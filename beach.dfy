/** The deployer: resolves an application's launch command from its manifest, the caller's
    parameters and the registry, then uploads the application and has the supervisor run it. */
module Beach {
  import opened Outcomes
  import opened ShellQuote
  import opened Templates
  import opened Registries
  import opened ShellWords

  /** The parsed `beach.json` of an application. */
  datatype Manifest = Manifest(name: string, service: string, dependencies: Option<seq<string>>)

  /** `app_config.get("dependencies", [])`. */
  function DependenciesOf(manifest: Manifest): seq<string> {
    match manifest.dependencies
    case None => []
    case Some(deps) => deps
  }

  /** The environment key under which dependency `dependency` offers its capability `key`. */
  function QualifiedKey(dependency: string, key: string): string {
    dependency + "." + key
  }

  /** True when `key` has the form `dependency.K` for some K. */
  predicate HasQualifier(dependency: string, key: string) {
    |key| > |dependency| && key[..|dependency| + 1] == dependency + "."
  }

  /** A qualified key carries its dependency's prefix, and the capability key after it. */
  lemma QualifiedKeyParts(dependency: string, k: string)
    ensures HasQualifier(dependency, QualifiedKey(dependency, k))
    ensures QualifiedKey(dependency, k)[|dependency| + 1..] == k
  {
    assert QualifiedKey(dependency, k)[..|dependency| + 1] == dependency + ".";
  }

  /** A key with a dependency's prefix is the qualified key of what follows the prefix. */
  lemma QualifiedKeyOfParts(dependency: string, key: string)
    requires HasQualifier(dependency, key)
    ensures key == QualifiedKey(dependency, key[|dependency| + 1..])
  {
    assert key == key[..|dependency| + 1] + key[|dependency| + 1..];
  }

  /** The entries one dependency adds to the environment: each of its capabilities under its
      qualified key, and nothing else. */
  function Qualified(dependency: string, provided: map<string, string>): (m: map<string, string>)
    ensures forall k :: k in provided ==> QualifiedKey(dependency, k) in m && m[QualifiedKey(dependency, k)] == provided[k]
    ensures forall key :: key in m <==> HasQualifier(dependency, key) && key[|dependency| + 1..] in provided
    ensures forall key :: key in m ==> HasQualifier(dependency, key) && m[key] == provided[key[|dependency| + 1..]]
  {
    var keys := set k | k in provided :: QualifiedKey(dependency, k);
    assert forall k :: k in provided ==> QualifiedKey(dependency, k) in keys;
    forall key | key in keys
      ensures HasQualifier(dependency, key) && key[|dependency| + 1..] in provided
    {
      var k :| k in provided && key == QualifiedKey(dependency, k);
      QualifiedKeyParts(dependency, k);
    }
    forall key | HasQualifier(dependency, key) && key[|dependency| + 1..] in provided
      ensures key in keys
    {
      QualifiedKeyOfParts(dependency, key);
    }
    forall k | k in provided
      ensures QualifiedKey(dependency, k)[|dependency| + 1..] == k
    {
      QualifiedKeyParts(dependency, k);
    }
    map key | key in keys :: provided[key[|dependency| + 1..]]
  }

  /** What a dependency provides, or why looking it up fails: the registry's own error, or
      None, whose `.provides` raises. */
  function ProvidedBy(registry: View, dependency: string): (r: Result<map<string, string>>)
  {
    match registry.Find(dependency)
    case Err(e) => Err(e)
    case Ok(None) => Err(UnresolvedDependency(dependency))
    case Ok(Some(s)) => Ok(s.provided)
  }

  /** The entries dependency `dependency` adds when its lookup succeeds (none otherwise). */
  function Layer(registry: View, dependency: string): map<string, string>
  {
    match ProvidedBy(registry, dependency)
    case Ok(p) => Qualified(dependency, p)
    case Err(_) => map[]
  }

  /** The environment the template is resolved in: the caller's parameters, then each
      dependency's qualified capabilities in manifest order, later entries overwriting earlier
      ones; the first failing lookup is the error. */
  function Env(params: map<string, string>, deps: seq<string>, registry: View): Result<map<string, string>>
    decreases |deps|
  {
    if deps == [] then Ok(params)
    else
      match Env(params, deps[..|deps| - 1], registry)
      case Err(e) => Err(e)
      case Ok(env) =>
        match ProvidedBy(registry, deps[|deps| - 1])
        case Err(e) => Err(e)
        case Ok(p) => Ok(env + Qualified(deps[|deps| - 1], p))
  }

  /** `_generate_command`: the manifest's service template resolved in that environment. */
  function Resolve(params: map<string, string>, manifest: Manifest, registry: View): Result<string>
  {
    match Env(params, DependenciesOf(manifest), registry)
    case Err(e) => Err(e)
    case Ok(env) => Substitute(manifest.service, env)
  }

  /** The supervisor's name for an application. */
  function ServiceName(name: string): string {
    "beach-" + name
  }

  /** Resolution fails exactly when some dependency's lookup fails, and then with the error of
      the first one that does. */
  lemma {:induction false} EnvFailure(params: map<string, string>, deps: seq<string>, registry: View)
    ensures Env(params, deps, registry).Ok? <==> forall i :: 0 <= i < |deps| ==> ProvidedBy(registry, deps[i]).Ok?
    ensures Env(params, deps, registry).Err? ==>
      exists i :: 0 <= i < |deps| && ProvidedBy(registry, deps[i]) == Err(Env(params, deps, registry).error)
        && forall j :: 0 <= j < i ==> ProvidedBy(registry, deps[j]).Ok?
    decreases |deps|
  {
    if deps != [] {
      var init := deps[..|deps| - 1];
      EnvFailure(params, init, registry);
      assert forall i :: 0 <= i < |init| ==> init[i] == deps[i];
      if Env(params, init, registry).Err? {
        var i :| 0 <= i < |init| && ProvidedBy(registry, init[i]) == Err(Env(params, init, registry).error)
          && forall j :: 0 <= j < i ==> ProvidedBy(registry, init[j]).Ok?;
        assert ProvidedBy(registry, deps[i]) == Err(Env(params, deps, registry).error);
      } else {
        if ProvidedBy(registry, deps[|deps| - 1]).Err? {
          var i := |deps| - 1;
          assert forall j :: 0 <= j < i ==> ProvidedBy(registry, deps[j]).Ok?;
        }
      }
    }
  }

  /** Every parameter stays in the environment, and keeps its value unless some dependency
      offers an entry under the same key. */
  lemma {:induction false} EnvKeepsParams(params: map<string, string>, deps: seq<string>, registry: View, key: string)
    requires Env(params, deps, registry).Ok?
    requires key in params
    ensures key in Env(params, deps, registry).value
    ensures (forall i :: 0 <= i < |deps| ==> key !in Layer(registry, deps[i])) ==>
      Env(params, deps, registry).value[key] == params[key]
    decreases |deps|
  {
    if deps != [] {
      var init := deps[..|deps| - 1];
      assert forall i :: 0 <= i < |init| ==> init[i] == deps[i];
      EnvKeepsParams(params, init, registry, key);
    }
  }

  /** Capability `key` of dependency `deps[i]` is in the environment under its qualified key,
      with the registry's value, unless a later dependency writes the same key. */
  lemma {:induction false} EnvOffersDependency(params: map<string, string>, deps: seq<string>, registry: View, i: nat, key: string)
    requires Env(params, deps, registry).Ok?
    requires i < |deps|
    requires ProvidedBy(registry, deps[i]).Ok? && key in ProvidedBy(registry, deps[i]).value
    requires forall j :: i < j < |deps| ==> QualifiedKey(deps[i], key) !in Layer(registry, deps[j])
    ensures QualifiedKey(deps[i], key) in Env(params, deps, registry).value
    ensures Env(params, deps, registry).value[QualifiedKey(deps[i], key)] == ProvidedBy(registry, deps[i]).value[key]
    decreases |deps|
  {
    var init := deps[..|deps| - 1];
    var last := deps[|deps| - 1];
    assert forall j :: 0 <= j < |init| ==> init[j] == deps[j];
    if i < |deps| - 1 {
      EnvOffersDependency(params, init, registry, i, key);
      assert QualifiedKey(deps[i], key) !in Layer(registry, last);
    }
  }

  /** Every key of the environment is a parameter or an entry offered by some dependency. */
  lemma {:induction false} EnvKeys(params: map<string, string>, deps: seq<string>, registry: View, key: string)
    requires Env(params, deps, registry).Ok?
    requires key in Env(params, deps, registry).value
    ensures key in params || exists i :: 0 <= i < |deps| && key in Layer(registry, deps[i])
    decreases |deps|
  {
    if deps != [] {
      var init := deps[..|deps| - 1];
      var last := deps[|deps| - 1];
      assert forall j :: 0 <= j < |init| ==> init[j] == deps[j];
      if key !in Layer(registry, last) {
        EnvKeys(params, init, registry, key);
      }
    }
  }

  /** The calls the deployer makes on its collaborators (layout, supervisor, local shell). */
  datatype Call =
    | UploadService(serviceName: string, path: string)
    | Install
    | SetUp(serviceName: string, cwd: string, username: Option<string>, command: string)
    | Spawn(argv: seq<string>, cwd: string, allowError: bool)

  /** Where a layout put the application, and the account (if any) it must run as. */
  datatype Target = Target(path: string, username: Option<string>)

  /** What happens to a spawned process. */
  datatype ProcessEvent = SendSignal(signal: int) | WaitForResult

  const SIGTERM: int := 15

  /** The spawned process of `Deployer.run`; leaving its scope stops it. */
  class RunningApplication {
    const argv: seq<string>
    const cwd: string
    var events: seq<ProcessEvent>

    constructor (argv: seq<string>, cwd: string)
      ensures this.argv == argv && this.cwd == cwd && events == []
    {
      this.argv := argv;
      this.cwd := cwd;
      events := [];
    }

    /** `__exit__`: SIGTERM first, then wait for the process to finish. */
    method Exit()
      modifies this
      ensures events == old(events) + [SendSignal(SIGTERM), WaitForResult]
    {
      events := events + [SendSignal(SIGTERM)];
      events := events + [WaitForResult];
    }
  }

  /** The argument vector `run` spawns: the resolved command under `exec`, so the shell is
      replaced by it. */
  function RunArgv(command: string): seq<string> {
    ["sh", "-c", "exec " + command]
  }

  class Deployer {
    const registry: Registry
    /** The layout, as what `upload_service(service_name, path)` answers. */
    const uploadService: (string, string) -> Target
    /** Every call made on the layout, the supervisor and the local shell, in order. */
    var trace: seq<Call>

    constructor (registry: Registry, uploadService: (string, string) -> Target)
      ensures this.registry == registry && this.uploadService == uploadService && trace == []
    {
      this.registry := registry;
      this.uploadService := uploadService;
      trace := [];
    }

    /** `_generate_command`: the environment, then the rewrite of the service template. */
    method GenerateCommand(params: map<string, string>, manifest: Manifest) returns (r: Result<string>)
      ensures r == Resolve(params, manifest, registry.View())
    {
      var env := GenerateEnv(params, DependenciesOf(manifest), registry.View());
      if env.Err? {
        return Err(env.error);
      }
      r := Substitute(manifest.service, env.value);
    }

    /** `deploy`: resolve the command (nothing else happens when that fails), upload the
        application as `beach-NAME`, then install the supervisor and set the service up with
        the directory and account the layout answered. */
    method Deploy(path: string, manifest: Manifest, params: map<string, string>) returns (r: Result<()>)
      modifies this
      ensures r.Ok? <==> Resolve(params, manifest, registry.View()).Ok?
      ensures r.Err? ==> r.error == Resolve(params, manifest, registry.View()).error && trace == old(trace)
      ensures r.Ok? ==>
        var name := ServiceName(manifest.name);
        var target := uploadService(name, path);
        trace == old(trace) + [UploadService(name, path), Install,
                               SetUp(name, target.path, target.username, Resolve(params, manifest, registry.View()).value)]
    {
      assert this !in registry.Objects();
      var command := GenerateCommand(params, manifest);
      if command.Err? {
        return Err(command.error);
      }
      var serviceName := ServiceName(manifest.name);
      trace := trace + [UploadService(serviceName, path)];
      var target := uploadService(serviceName, path);
      SetUpService(serviceName, target.path, target.username, command.value);
      r := Ok(());
    }

    /** `_set_up_service`: install strictly before set up. */
    method SetUpService(serviceName: string, appPath: string, username: Option<string>, command: string)
      modifies this
      ensures trace == old(trace) + [Install, SetUp(serviceName, appPath, username, command)]
    {
      trace := trace + [Install];
      trace := trace + [SetUp(serviceName, appPath, username, command)];
    }

    /** `run`: resolve the command and spawn `sh -c "exec COMMAND"` in the application's
        directory, tolerating a non-zero exit; the layout and supervisor are not used. */
    method Run(path: string, manifest: Manifest, params: map<string, string>) returns (r: Result<RunningApplication>)
      modifies this
      ensures r.Ok? <==> Resolve(params, manifest, registry.View()).Ok?
      ensures r.Err? ==> r.error == Resolve(params, manifest, registry.View()).error && trace == old(trace)
      ensures r.Ok? ==>
        var argv := RunArgv(Resolve(params, manifest, registry.View()).value);
        && trace == old(trace) + [Spawn(argv, path, true)]
        && fresh(r.value) && r.value.argv == argv && r.value.cwd == path && r.value.events == []
    {
      assert this !in registry.Objects();
      var command := GenerateCommand(params, manifest);
      if command.Err? {
        return Err(command.error);
      }
      var argv := RunArgv(command.value);
      trace := trace + [Spawn(argv, path, true)];
      var process := new RunningApplication(argv, path);
      r := Ok(process);
    }
  }

  /** The environment loop of `_generate_command`: copy the parameters, then, dependency by
      dependency, add each provided capability under its qualified key. */
  method GenerateEnv(params: map<string, string>, deps: seq<string>, registry: View) returns (r: Result<map<string, string>>)
    ensures r == Env(params, deps, registry)
  {
    var env := params;
    var i := 0;
    while i < |deps|
      invariant 0 <= i <= |deps|
      invariant Env(params, deps[..i], registry) == Ok(env)
    {
      assert deps[..i + 1][..i] == deps[..i];
      var dependency := deps[i];
      var found := registry.Find(dependency);
      if found.Err? {
        assert deps[..i + 1][..i] == deps[..i];
        EnvPrefixErr(params, deps, i + 1, registry);
        return Err(found.error);
      }
      if found.value.None? {
        EnvPrefixErr(params, deps, i + 1, registry);
        return Err(UnresolvedDependency(dependency));
      }
      var provided := found.value.value.provided;
      assert ProvidedBy(registry, dependency) == Ok(provided);
      EnvStep(params, deps, i, registry);
      ghost var next := env + Qualified(dependency, provided);
      assert Env(params, deps[..i + 1], registry) == Ok(next);
      env := AddProvided(env, dependency, provided);
      assert env == next;
      assert Env(params, deps[..i + 1], registry) == Ok(next);
      i := i + 1;
    }
    assert deps[..|deps|] == deps;
    r := Ok(env);
  }

  /** The inner loop: each capability of one dependency, in whatever order the dictionary
      gives them, written under its qualified key. */
  method AddProvided(env: map<string, string>, dependency: string, provided: map<string, string>)
    returns (r: map<string, string>)
    ensures r == env + Qualified(dependency, provided)
  {
    r := env;
    var pending := provided.Keys;
    while pending != {}
      invariant pending <= provided.Keys
      invariant r == env + Qualified(dependency, provided - pending)
      decreases pending
    {
      var key :| key in pending;
      var done := provided - pending;
      MinusStep(provided, pending, key);
      QualifiedAdd(dependency, done, key, provided[key]);
      OverlayUpdate(env, Qualified(dependency, done), QualifiedKey(dependency, key), provided[key]);
      r := r[QualifiedKey(dependency, key) := provided[key]];
      pending := pending - {key};
    }
    assert provided - pending == provided;
  }

  /** Taking one more key out of the pending set adds its entry to the done part. */
  lemma MinusStep(m: map<string, string>, pending: set<string>, key: string)
    requires key in pending && key in m
    ensures m - (pending - {key}) == (m - pending)[key := m[key]]
  {
  }

  /** Updating an overlay is overlaying the updated upper map. */
  lemma OverlayUpdate(a: map<string, string>, b: map<string, string>, x: string, v: string)
    ensures (a + b)[x := v] == a + b[x := v]
  {
  }

  /** One loop step of the environment: the lookup of `deps[i]` decides. */
  lemma EnvStep(params: map<string, string>, deps: seq<string>, i: nat, registry: View)
    requires i < |deps|
    ensures Env(params, deps[..i + 1], registry) ==
      match Env(params, deps[..i], registry)
      case Err(e) => Err(e)
      case Ok(env) =>
        match ProvidedBy(registry, deps[i])
        case Err(e) => Err(e)
        case Ok(p) => Ok(env + Qualified(deps[i], p))
  {
    assert deps[..i + 1][..i] == deps[..i];
  }

  /** One more capability adds exactly its qualified entry. */
  lemma QualifiedAdd(dependency: string, m: map<string, string>, key: string, v: string)
    ensures Qualified(dependency, m[key := v]) == Qualified(dependency, m)[QualifiedKey(dependency, key) := v]
  {
    var n := |dependency| + 1;
    var q := QualifiedKey(dependency, key);
    var lhs := Qualified(dependency, m[key := v]);
    var rhs := Qualified(dependency, m)[q := v];
    QualifiedKeyParts(dependency, key);
    forall x | x in lhs
      ensures x in rhs && lhs[x] == rhs[x]
    {
      if x[n..] == key {
        QualifiedKeyOfParts(dependency, x);
      }
    }
    forall x | x in rhs
      ensures x in lhs
    {
    }
    assert lhs == rhs;
  }

  /** A dependency providing one capability adds exactly one entry. */
  lemma QualifiedSingleton(dependency: string, key: string, v: string)
    ensures Qualified(dependency, map[key := v]) == map[QualifiedKey(dependency, key) := v]
  {
    QualifiedAdd(dependency, map[], key, v);
    assert map[][key := v] == map[key := v];
    assert Qualified(dependency, map[]) == map[];
  }

  /** A lookup failing at position `n - 1` after `n - 1` successes fails the whole loop. */
  lemma EnvPrefixErr(params: map<string, string>, deps: seq<string>, n: nat, registry: View)
    requires 0 < n <= |deps|
    requires Env(params, deps[..n - 1], registry).Ok?
    requires ProvidedBy(registry, deps[n - 1]).Err?
    ensures Env(params, deps, registry) == Err(ProvidedBy(registry, deps[n - 1]).error)
  {
    EnvFailure(params, deps, registry);
    EnvFailure(params, deps[..n - 1], registry);
    assert forall j :: 0 <= j < n - 1 ==> deps[..n - 1][j] == deps[j];
    var e := Env(params, deps, registry);
    var i :| 0 <= i < |deps| && ProvidedBy(registry, deps[i]) == Err(e.error)
      && forall j :: 0 <= j < i ==> ProvidedBy(registry, deps[j]).Ok?;
    assert i == n - 1;
  }
}

/** The deployments the repository's tests perform, resolved by the model. The applications'
    `beach.json` files are not part of this model, so their `service` templates are assumed:
    `server.py ${port} Hello` for the stand-alone script (tests/beach_tests.py:43-45 expects
    `Hello` on port 58080), and `server.py ${port} ${message.value}` for the script with a
    dependency, whose server reads the port from its first argument and the message from its
    second (example-apps/script-with-dependency/server.py:11,14). Lemmas about fixed
    texts take those texts as parameters pinned by `requires` (or lay them out as template parts):
    Dafny unfolds a recursive function applied to a literal as far as the literal goes, and with
    several such calls in one proof the solver runs past its budget. */
module BeachScenarios {
  import opened Outcomes
  import opened ShellQuote
  import opened ShellWords
  import opened Templates
  import opened Registries
  import opened Beach

  /** A stand-alone script: `${port}` with port `58080` is substituted bare. */
  lemma StandaloneCommand()
    ensures Resolve(map["port" := "58080"], Manifest("just-a-script", "server.py ${port} Hello", None), MemoryView(map[]))
      == Ok("server.py 58080 Hello")
  {
    var env := map["port" := "58080"];
    var parts := [Text("server.py "), Placeholder("port"), Text(" Hello")];
    StandaloneParts(parts);
    assert Quote("58080") == "58080" by { AllSafeOf("58080"); }
    StandaloneExpand(parts, env);
    SubstituteComposed(parts, env);
    assert Env(env, [], MemoryView(map[])) == Ok(env);
  }

  /** The stand-alone template as parts. */
  lemma StandaloneParts(parts: seq<Part>)
    requires parts == [Text("server.py "), Placeholder("port"), Text(" Hello")]
    ensures WellFormed(parts) && Compose(parts) == "server.py ${port} Hello"
  {
    StandalonePartsWellFormed(parts);
    StandalonePartsText(parts);
  }

  /** Those parts are well-formed. */
  lemma StandalonePartsWellFormed(parts: seq<Part>)
    requires parts == [Text("server.py "), Placeholder("port"), Text(" Hello")]
    ensures WellFormed(parts)
  {
    assert IsPlainText("server.py ") && IsPlainText(" Hello") && IsName("port");
  }

  /** Those parts spell the stand-alone template. */
  lemma StandalonePartsText(parts: seq<Part>)
    requires parts == [Text("server.py "), Placeholder("port"), Text(" Hello")]
    ensures Compose(parts) == "server.py ${port} Hello"
  {
    assert parts[2..][1..] == [] && parts[1..][1..] == parts[2..];
    assert Compose(parts[2..]) == " Hello" + [];
    assert Compose(parts[1..]) == "${port}" + (" Hello" + []);
    assert "server.py " + ("${port}" + (" Hello" + [])) == "server.py ${port} Hello";
  }

  /** The stand-alone template's part-by-part meaning. */
  lemma StandaloneExpand(parts: seq<Part>, env: map<string, string>)
    requires parts == [Text("server.py "), Placeholder("port"), Text(" Hello")]
    requires env == map["port" := "58080"] && Quote("58080") == "58080"
    ensures Expand(parts, env) == Ok("server.py 58080 Hello")
  {
    assert parts[2..] == [Text(" Hello")] && parts[2..][1..] == [];
    assert Expand(parts[2..], env) == Ok(" Hello" + []);
    assert " Hello" + [] == " Hello";
    assert parts[1..][0] == Placeholder("port") && parts[1..][1..] == parts[2..];
    assert Expand(parts[1..], env) == Prepend(Quote("58080"), Expand(parts[2..], env));
    assert Expand(parts[1..], env) == Ok("58080" + " Hello");
    assert Expand(parts, env) == Prepend("server.py ", Expand(parts[1..], env));
    assert "server.py " + ("58080" + " Hello") == "server.py 58080 Hello";
  }

  /** A dependency's capability reaches the command quoted: whatever its value, and whatever the
      port, the resolved command is the server followed by those two words, each quoted. */
  lemma DependencyCommand(port: string, value: string)
    ensures Resolve(map["port" := port],
                    Manifest("script-with-dependency", "server.py ${port} ${message.value}", Some(["message"])),
                    MemoryView(map["message" := Service(map["value" := value])]))
      == Ok(QuotedLine(["server.py", port, value]))
  {
    var registry := MemoryView(map["message" := Service(map["value" := value])]);
    var env := map["port" := port, "message.value" := value];
    DependencyEnv(port, value, registry);
    var parts := [Text("server.py "), Placeholder("port"), Text(" "), Placeholder("message.value")];
    DependencyParts(parts);
    DependencyExpand(parts, env, port, value);
    SubstituteComposed(parts, env);
    DependencyLine(["server.py", port, value]);
    Regroup(Quote(port), Quote(value));
  }

  /** A shell reading the text that `run` builds finds the server with exactly the port and the
      value as its two arguments, for every port and value the model's strings can hold. */
  lemma DependencyArguments(port: string, value: string)
    ensures Script("exec " + QuotedLine(["server.py", port, value])) == Some([["exec", "server.py", port, value]])
  {
    var words := ["server.py", port, value];
    ExecQuotedLine(words);
    assert ["exec"] + words == ["exec", "server.py", port, value];
  }

  /** The dependency's capability lands in the environment under its qualified name. */
  lemma DependencyEnv(port: string, value: string, registry: View)
    requires registry == MemoryView(map["message" := Service(map["value" := value])])
    ensures Env(map["port" := port], ["message"], registry)
      == Ok(map["port" := port, "message.value" := value])
  {
    var params := map["port" := port];
    var deps := ["message"];
    EnvStep(params, deps, 0, registry);
    assert deps[..0] == [] && deps[..1] == deps;
    assert ProvidedBy(registry, deps[0]) == Ok(map["value" := value]);
    QualifiedSingleton("message", "value", value);
    assert QualifiedKey("message", "value") == "message.value";
    assert "port" != "message.value" by { assert |"port"| != |"message.value"|; }
    assert params + map["message.value" := value] == map["port" := port, "message.value" := value];
  }

  /** The dependency template as parts. */
  lemma DependencyParts(parts: seq<Part>)
    requires parts == [Text("server.py "), Placeholder("port"), Text(" "), Placeholder("message.value")]
    ensures WellFormed(parts) && Compose(parts) == "server.py ${port} ${message.value}"
  {
    DependencyPartsWellFormed(parts);
    DependencyPartsText(parts);
  }

  /** Those parts are well-formed. */
  lemma DependencyPartsWellFormed(parts: seq<Part>)
    requires parts == [Text("server.py "), Placeholder("port"), Text(" "), Placeholder("message.value")]
    ensures WellFormed(parts)
  {
    assert IsPlainText("server.py ") && IsPlainText(" ") && IsName("port") && IsName("message.value");
  }

  /** Those parts spell the dependency template. */
  lemma DependencyPartsText(parts: seq<Part>)
    requires parts == [Text("server.py "), Placeholder("port"), Text(" "), Placeholder("message.value")]
    ensures Compose(parts) == "server.py ${port} ${message.value}"
  {
    assert parts[3..][1..] == [] && parts[1..][1..] == parts[2..] && parts[2..][1..] == parts[3..];
    assert Compose(parts[3..]) == "${message.value}" + [];
    assert Compose(parts[2..]) == " " + ("${message.value}" + []);
    assert Compose(parts[1..]) == "${port}" + (" " + ("${message.value}" + []));
    DependencyTemplateText();
  }

  /** The pieces of the dependency template joined. */
  lemma DependencyTemplateText()
    ensures "server.py " + ("${port}" + (" " + ("${message.value}" + []))) == "server.py ${port} ${message.value}"
  {
  }

  /** The dependency template's part-by-part meaning. */
  lemma DependencyExpand(parts: seq<Part>, env: map<string, string>, port: string, value: string)
    requires parts == [Text("server.py "), Placeholder("port"), Text(" "), Placeholder("message.value")]
    requires env == map["port" := port, "message.value" := value]
    ensures Expand(parts, env) == Ok("server.py " + (Quote(port) + (" " + (Quote(value) + []))))
  {
    assert parts[3..][1..] == [] && parts[1..][1..] == parts[2..] && parts[2..][1..] == parts[3..];
    assert Expand(parts[3..], env) == Ok(Quote(value) + []);
    assert Expand(parts[2..], env) == Ok(" " + (Quote(value) + []));
    assert Expand(parts[1..], env) == Ok(Quote(port) + (" " + (Quote(value) + [])));
  }

  /** The quoted line of the server and its two arguments. */
  lemma DependencyLine(words: seq<string>)
    requires |words| == 3 && words[0] == "server.py"
    ensures QuotedLine(words) == "server.py" + " " + (Quote(words[1]) + " " + Quote(words[2]))
  {
    assert Quote("server.py") == "server.py" by { AllSafeOf("server.py"); }
    assert words[1..][1..] == [words[2]];
    assert QuotedLine(words[1..]) == Quote(words[1]) + " " + Quote(words[2]);
  }

  /** The resolved text regrouped as the three-word quoted line. */
  lemma Regroup(a: string, b: string)
    ensures "server.py " + (a + (" " + (b + []))) == "server.py" + " " + (a + " " + b)
  {
    assert "server.py " == "server.py" + " ";
    assert b + [] == b;
  }

  /** The value of that scenario, `I feel fine`, is put in single quotes. */
  lemma QuotedSentence(s: string)
    requires s == "I feel fine"
    ensures Quote(s) == "'I feel fine'"
  {
    assert s[1] == ' ';
    assert forall i :: 0 <= i < |s| ==> s[i] != '\'';
    QuoteWraps(s, 1);
  }

  /** A value that looks like a placeholder is quoted, never expanded. */
  lemma ValueNotRescanned(template: string, env: map<string, string>)
    requires template == "echo ${a}" && env == map["a" := "${b}", "b" := "x"]
    ensures Substitute(template, env) == Ok("echo '${b}'")
  {
    assert IsPlainText("echo ") && IsName("a");
    assert template == "echo " + "${" + "a" + "}";
    TextThenPlaceholder("echo ", "a", env);
    PlaceholderLikeValue(env["a"]);
    assert "echo " + "'${b}'" == "echo '${b}'";
  }

  /** The value `${b}` is quoted as it stands. */
  lemma PlaceholderLikeValue(value: string)
    requires value == "${b}"
    ensures Quote(value) == "'${b}'"
  {
    assert value[0] == '$' && !IsSafeChar(value[0]);
    assert forall i :: 0 <= i < |value| ==> value[i] != '\'';
    QuoteWraps(value, 0);
  }

  /** A `$` just before a placeholder stays literal: `$${x}` with `x` = `1` becomes `$1`. */
  lemma DollarBeforePlaceholder(template: string, env: map<string, string>)
    requires template == "$${x}" && env == map["x" := "1"]
    ensures Substitute(template, env) == Ok("$1")
  {
    assert IsPlainText("$") && IsName("x");
    assert template == "$" + "${" + "x" + "}";
    TextThenPlaceholder("$", "x", env);
    assert Quote(env["x"]) == "1" by { AllSafeOf("1"); }
    assert "$" + "1" == "$1";
  }

  /** A dependency the registry does not know fails resolution, so nothing is deployed. */
  lemma MissingDependency()
    ensures Resolve(map[], Manifest("app", "server.py ${port}", Some(["message"])), MemoryView(map[]))
      == Err(UnresolvedDependency("message"))
    ensures Resolve(map[], Manifest("app", "server.py ${port}", Some(["message"])), FileView(Some(map[])))
      == Err(MissingService("message"))
  {
    assert ["message"][..0] == [];
  }

  /** A placeholder with no parameter behind it fails resolution with its name. */
  lemma MissingParameter()
    ensures Resolve(map[], Manifest("app", "server.py ${port}", None), MemoryView(map[]))
      == Err(UnresolvedPlaceholder("port"))
  {
    var parts := [Text("server.py "), Placeholder("port")];
    assert Compose(parts) == "server.py ${port}";
    SubstituteComposed(parts, map[]);
  }
}
