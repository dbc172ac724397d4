/** The runit supervisor: the launcher text it builds for a service and the scripts it runs. */
module Supervisors {
  import opened Outcomes
  import opened ShellQuote
  import opened ShellWords

  /** `"{0}".format(username)`: a layout that reports no identity yields the text `None`. */
  function UserArg(username: Option<string>): string {
    match username
    case None => "None"
    case Some(u) => u
  }

  /** The script run as the service's user: stop at the first failure, change into the quoted
      application directory, then replace the shell by the command, inserted as it is. */
  function ExecCommand(cwd: string, command: string): string {
    "set -e\ncd " + Quote(cwd) + "\nexec " + command
  }

  /** The launcher: switch to `username` (inserted unquoted) and hand the quoted inner script
      to `sh -c` there. */
  function FullCommand(username: string, execCommand: string): string {
    "set -e\nexec su " + username + " - -c sh -c " + Quote(execCommand)
  }

  /** The environment overrides given to the `create-service` script. */
  function CreateServiceEnv(serviceName: string, cwd: string, username: Option<string>, command: string): (env: map<string, string>)
    ensures env.Keys == {"service_name", "command"}
    ensures env["service_name"] == serviceName
  {
    map["service_name" := serviceName, "command" := FullCommand(UserArg(username), ExecCommand(cwd, command))]
  }

  /** One call of `shell.run`: the argument vector and the environment overrides. */
  datatype ShellRun = ShellRun(argv: seq<string>, updateEnv: map<string, string>)

  /** The argument vector every supervisor script is run with. */
  function ScriptArgv(text: string): seq<string> {
    ["sh", "-c", text]
  }

  /** `set -e` is the quoted line of its two words. */
  lemma SetELine()
    ensures QuotedLine(["set", "-e"]) == "set -e"
  {
    assert AllSafe("set") && AllSafe("-e");
    assert ["set", "-e"][1..] == ["-e"];
  }

  /** `cd` and the quoted directory are the quoted line of those two words. */
  lemma CdLine(cwd: string)
    ensures QuotedLine(["cd", cwd]) == "cd " + Quote(cwd)
  {
    assert AllSafe("cd");
    assert ["cd", cwd][1..] == [cwd];
  }

  /** A non-empty word of safe characters, which quoting leaves alone. */
  predicate IsPlainWord(w: string) {
    w != [] && AllSafe(w)
  }

  /** A plain word in front of a line of quoted words is written as it stands. */
  lemma PlainCons(w: string, ws: seq<string>)
    requires ws != [] && IsPlainWord(w)
    ensures QuotedLine([w] + ws) == w + " " + QuotedLine(ws)
  {
    QuotedLineCons(w, ws);
    QuoteIdentity(w);
  }

  /** Seven plain words and a last, quoted one. */
  lemma EightWordLine(a: string, b: string, c: string, d: string, e: string, f: string, g: string, h: string)
    requires IsPlainWord(a) && IsPlainWord(b) && IsPlainWord(c) && IsPlainWord(d)
    requires IsPlainWord(e) && IsPlainWord(f) && IsPlainWord(g)
    ensures QuotedLine([a, b, c, d, e, f, g, h]) ==
      a + " " + (b + " " + (c + " " + (d + " " + (e + " " + (f + " " + (g + " " + Quote(h)))))))
  {
    var w7 := [g, h];
    assert w7[1..] == [h];
    var w6 := [f] + w7;
    var w5 := [e] + w6;
    var w4 := [d] + w5;
    var w3 := [c] + w4;
    var w2 := [b] + w3;
    assert [a] + w2 == [a, b, c, d, e, f, g, h];
    PlainCons(g, [h]);
    PlainCons(f, w7);
    PlainCons(e, w6);
    PlainCons(d, w5);
    PlainCons(c, w4);
    PlainCons(b, w3);
    PlainCons(a, w2);
  }

  /** The fixed words of the `su` line are plain. */
  lemma LauncherWordsPlain()
    ensures IsPlainWord("exec") && IsPlainWord("su") && IsPlainWord("-")
    ensures IsPlainWord("-c") && IsPlainWord("sh")
  {
    assert AllSafe("exec") && AllSafe("su") && AllSafe("-") && AllSafe("-c") && AllSafe("sh");
  }

  /** The `su` line is its eight words, all plain but the quoted inner script. */
  lemma SuLine(username: string, inner: string)
    requires IsPlainWord(username)
    ensures QuotedLine(["exec", "su", username, "-", "-c", "sh", "-c", inner]) ==
      "exec" + " " + ("su" + " " + (username + " " + ("-" + " " + ("-c" + " " + ("sh" + " " + ("-c" + " " + Quote(inner)))))))
  {
    LauncherWordsPlain();
    EightWordLine("exec", "su", username, "-", "-c", "sh", "-c", inner);
  }

  /** The launcher text regrouped as `set -e`, a newline and its words joined by blanks. */
  lemma SuText(username: string, q: string)
    ensures "set -e\nexec su " + username + " - -c sh -c " + q ==
      "set -e" + "\n" + ("exec" + " " + ("su" + " " + (username + " " + ("-" + " " + ("-c" + " " + ("sh" + " " + ("-c" + " " + q)))))))
  {
  }

  /** Two lines of quoted words followed by `exec ` and a command. */
  lemma {:induction false} TwoLinesThenExec(l1: seq<string>, l2: seq<string>, command: string)
    ensures Script(QuotedLine(l1) + "\n" + (QuotedLine(l2) + "\n" + ("exec " + command))) ==
      match Script(command)
      case None => None
      case Some(cs) => Some([l1, l2, ["exec"] + cs[0]] + cs[1..])
  {
    QuotedLineThenScript(l1, QuotedLine(l2) + "\n" + ("exec " + command));
    QuotedLineThenScript(l2, "exec " + command);
    ExecPrefix(command);
    match Script(command)
    case None =>
    case Some(cs) =>
      assert [l1] + ([l2] + ([["exec"] + cs[0]] + cs[1..])) == [l1, l2, ["exec"] + cs[0]] + cs[1..];
  }

  /** One line of quoted words followed by a last line of quoted words. */
  lemma {:induction false} TwoLines(l1: seq<string>, l2: seq<string>)
    ensures Script(QuotedLine(l1) + "\n" + QuotedLine(l2)) == Some([l1, l2])
  {
    QuotedLineThenScript(l1, QuotedLine(l2));
    LastQuotedLine(l2);
    assert [l1] + [l2] == [l1, l2];
  }

  /** The inner script as text, line by line. */
  lemma ExecCommandLines(cwd: string, command: string)
    ensures ExecCommand(cwd, command) ==
      QuotedLine(["set", "-e"]) + "\n" + (QuotedLine(["cd", cwd]) + "\n" + ("exec " + command))
  {
    SetELine();
    CdLine(cwd);
  }

  /** Read by a shell, the inner script is `set -e`, then `cd` with exactly `cwd` as its one
      argument, then `exec` in front of the first command of `command`, followed by any further
      lines of `command` unchanged. */
  lemma ExecCommandScript(cwd: string, command: string)
    ensures Script(ExecCommand(cwd, command)) ==
      match Script(command)
      case None => None
      case Some(cs) => Some([["set", "-e"], ["cd", cwd], ["exec"] + cs[0]] + cs[1..])
  {
    ExecCommandLines(cwd, command);
    TwoLinesThenExec(["set", "-e"], ["cd", cwd], command);
  }

  /** The launcher as text: `set -e` and the quoted words of the `su` line. */
  lemma FullCommandLines(username: string, inner: string)
    requires IsPlainWord(username)
    ensures FullCommand(username, inner) ==
      QuotedLine(["set", "-e"]) + "\n" + QuotedLine(["exec", "su", username, "-", "-c", "sh", "-c", inner])
  {
    SetELine();
    SuLine(username, inner);
    SuText(username, Quote(inner));
  }

  /** For a non-empty username of safe characters, the launcher is read as `set -e` and then one
      command `exec su USERNAME - -c sh -c INNER` whose last word is exactly the inner script. */
  lemma FullCommandScript(username: string, inner: string)
    requires IsPlainWord(username)
    ensures Script(FullCommand(username, inner)) ==
      Some([["set", "-e"], ["exec", "su", username, "-", "-c", "sh", "-c", inner]])
  {
    FullCommandLines(username, inner);
    TwoLines(["set", "-e"], ["exec", "su", username, "-", "-c", "sh", "-c", inner]);
  }

  /** The cwd and the command survive the nesting: the launcher's `sh -c` argument is a script
      whose `cd` argument is exactly `cwd` and whose last line runs `command`. */
  lemma LauncherCarriesCommand(username: string, cwd: string, command: string, cs: seq<seq<string>>)
    requires IsPlainWord(username)
    requires Script(command) == Some(cs)
    ensures Script(FullCommand(username, ExecCommand(cwd, command))) ==
      Some([["set", "-e"], ["exec", "su", username, "-", "-c", "sh", "-c", ExecCommand(cwd, command)]])
    ensures Script(ExecCommand(cwd, command)) ==
      Some([["set", "-e"], ["cd", cwd], ["exec"] + cs[0]] + cs[1..])
  {
    FullCommandScript(username, ExecCommand(cwd, command));
    ExecCommandScript(cwd, command);
  }

  /** runit's supervisor. The scripts directory is abstracted as the text of each script by
      name; the shell it drives is abstracted as the log of the runs it was asked for. */
  class Supervisor {
    const scripts: map<string, string>
    var runs: seq<ShellRun>

    constructor (scripts: map<string, string>)
      ensures this.scripts == scripts && runs == []
    {
      this.scripts := scripts;
      runs := [];
    }

    /** Reads the named script and runs it as `sh -c TEXT` with the given overrides. */
    method RunScript(name: string, env: map<string, string>) returns (r: Result<()>)
      modifies this
      ensures r.Ok? <==> name in scripts
      ensures name in scripts ==> runs == old(runs) + [ShellRun(ScriptArgv(scripts[name]), env)]
      ensures name !in scripts ==> r == Err(MissingScript(name)) && runs == old(runs)
    {
      if name !in scripts {
        return Err(MissingScript(name));
      }
      runs := runs + [ShellRun(ScriptArgv(scripts[name]), env)];
      r := Ok(());
    }

    /** Runs the `install` script with no overrides. */
    method Install() returns (r: Result<()>)
      modifies this
      ensures r.Ok? <==> "install" in scripts
      ensures r.Ok? ==> runs == old(runs) + [ShellRun(ScriptArgv(scripts["install"]), map[])]
      ensures r.Err? ==> r == Err(MissingScript("install")) && runs == old(runs)
    {
      r := RunScript("install", map[]);
    }

    /** Runs the `create-service` script with exactly the overrides `service_name` and
        `command`, the latter being the launcher for `command` in `cwd` as `username`. */
    method SetUp(serviceName: string, cwd: string, username: Option<string>, command: string) returns (r: Result<()>)
      modifies this
      ensures r.Ok? <==> "create-service" in scripts
      ensures r.Ok? ==> runs == old(runs) + [ShellRun(ScriptArgv(scripts["create-service"]),
        CreateServiceEnv(serviceName, cwd, username, command))]
      ensures r.Err? ==> r == Err(MissingScript("create-service")) && runs == old(runs)
    {
      r := RunScript("create-service", CreateServiceEnv(serviceName, cwd, username, command));
    }
  }
}
