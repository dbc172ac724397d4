/** How a POSIX shell (section 2.2 "Quoting" and 2.3 "Token Recognition" of the Shell Command
    Language in POSIX.1-2017) splits a script into simple commands and words and removes quotes.
    Only what the deployer's generated text needs is modelled: plain characters, single-quoted
    runs, double-quoted runs without expansions, blanks between words and newlines between
    commands. Any other text reads as None ("not modelled") rather than guessing. */
module ShellWords {
  import opened Outcomes
  import opened ShellQuote

  /** Where the reader is inside a word. */
  datatype Mode = Bare | InSingle | InDouble

  /** An unquoted character that stands for itself: printable ASCII that is neither a blank,
      an operator, a quote, an expansion nor a pattern character. */
  predicate IsPlain(c: char) {
    '!' <= c <= '~' && c !in "|&;<>()$`\\\"'*?[]#~{}!^"
  }

  /** Inside double quotes `$`, backquote and backslash keep a special meaning. */
  predicate IsDoubleSpecial(c: char) {
    c in "$`\\"
  }

  /** Ends an unquoted word. */
  predicate IsDelimiter(c: char) {
    c == ' ' || c == '\n'
  }

  /** The characters of the word that starts `t` (read in mode `m`) after quote removal, and the
      text after it, which is empty or starts with an unquoted blank or newline. */
  function LexWord(t: string, m: Mode): (r: Option<(string, string)>)
    ensures r.Some? ==> |r.value.1| <= |t|
    ensures r.Some? ==> r.value.1 == [] || IsDelimiter(r.value.1[0])
    ensures r.Some? && t != [] && !IsDelimiter(t[0]) ==> |r.value.1| < |t|
    ensures r.Some? && m != Bare ==> |r.value.1| < |t|
    decreases |t|
  {
    if t == [] then (if m == Bare then Some(([], [])) else None)
    else match m
      case Bare =>
        if IsDelimiter(t[0]) then Some(([], t))
        else if t[0] == '\'' then LexWord(t[1..], InSingle)
        else if t[0] == '"' then LexWord(t[1..], InDouble)
        else if IsPlain(t[0]) then Prefixed([t[0]], LexWord(t[1..], Bare))
        else None
      case InSingle =>
        if t[0] == '\'' then LexWord(t[1..], Bare)
        else Prefixed([t[0]], LexWord(t[1..], InSingle))
      case InDouble =>
        if t[0] == '"' then LexWord(t[1..], Bare)
        else if IsDoubleSpecial(t[0]) then None
        else Prefixed([t[0]], LexWord(t[1..], InDouble))
  }

  /** Puts `p` in front of the word part of a reading. */
  function Prefixed(p: string, o: Option<(string, string)>): (r: Option<(string, string)>)
    ensures r.Some? <==> o.Some?
    ensures r.Some? ==> r.value == (p + o.value.0, o.value.1)
  {
    match o
    case None => None
    case Some(v) => Some((p + v.0, v.1))
  }

  /** The single word a shell reads from the whole of `t`, if `t` is exactly one word. */
  function ReadWord(t: string): Option<string> {
    if t == [] then None
    else match LexWord(t, Bare)
      case None => None
      case Some(v) => if v.1 == [] then Some(v.0) else None
  }

  /** The words of the simple command at the start of `t`, and the text after it (empty, or
      starting with the newline that ends the command). */
  function Words(t: string): (r: Option<(seq<string>, string)>)
    ensures r.Some? ==> |r.value.1| <= |t|
    ensures r.Some? ==> r.value.1 == [] || r.value.1[0] == '\n'
    decreases |t|
  {
    if t == [] then Some(([], []))
    else if t[0] == '\n' then Some(([], t))
    else if t[0] == ' ' then Words(t[1..])
    else match LexWord(t, Bare)
      case None => None
      case Some(v) =>
        match Words(v.1)
        case None => None
        case Some(u) => Some(([v.0] + u.0, u.1))
  }

  /** The simple commands of a script, one per line, each as its words. */
  function Script(t: string): (r: Option<seq<seq<string>>>)
    ensures r.Some? ==> |r.value| >= 1
    decreases |t|
  {
    match Words(t)
    case None => None
    case Some(v) =>
      if v.1 == [] then Some([v.0])
      else match Script(v.1[1..])
        case None => None
        case Some(cs) => Some([v.0] + cs)
  }

  /** The words `ws`, each quoted, separated by single blanks. */
  function QuotedLine(ws: seq<string>): string
    decreases |ws|
  {
    if ws == [] then []
    else if |ws| == 1 then Quote(ws[0])
    else Quote(ws[0]) + " " + QuotedLine(ws[1..])
  }

  /** Every character `pipes.quote` leaves unquoted is one the shell takes literally. */
  lemma SafeIsPlain(c: char)
    requires IsSafeChar(c)
    ensures IsPlain(c)
  {
  }

  /** A blank, a newline or the end of the text ends the current bare word at once. */
  lemma DelimitedEmpty(rest: string)
    requires rest == [] || IsDelimiter(rest[0])
    ensures LexWord(rest, Bare) == Some(([], rest))
  {
  }

  /** Prefixing nothing changes nothing. */
  lemma PrefixedNil(o: Option<(string, string)>)
    ensures Prefixed([], o) == o
  {
    if o.Some? {
      assert [] + o.value.0 == o.value.0;
    }
  }

  /** Prefixing twice is prefixing with the concatenation. */
  lemma PrefixedTwice(a: string, b: string, o: Option<(string, string)>)
    ensures Prefixed(a, Prefixed(b, o)) == Prefixed(a + b, o)
  {
    if o.Some? {
      assert a + (b + o.value.0) == (a + b) + o.value.0;
    }
  }

  /** A run of safe characters is read back literally. */
  lemma {:induction false} ReadSafe(s: string, rest: string)
    requires AllSafe(s)
    ensures LexWord(s + rest, Bare) == Prefixed(s, LexWord(rest, Bare))
  {
    if s != [] {
      ReadPlainChar(s, rest);
      ReadSafe(s[1..], rest);
      PrefixedTwice([s[0]], s[1..], LexWord(rest, Bare));
      assert [s[0]] + s[1..] == s;
    } else {
      assert s + rest == rest;
      PrefixedNil(LexWord(rest, Bare));
    }
  }

  /** A safe character outside quotes stands for itself. */
  lemma ReadPlainChar(s: string, rest: string)
    requires s != [] && IsSafeChar(s[0])
    ensures LexWord(s + rest, Bare) == Prefixed([s[0]], LexWord(s[1..] + rest, Bare))
  {
    SafeIsPlain(s[0]);
    assert (s + rest)[0] == s[0] && (s + rest)[1..] == s[1..] + rest;
  }

  /** Inside single quotes the escaped text of `s` followed by the closing quote reads back as
      `s`, after which the reader continues with `rest` outside quotes. */
  lemma {:induction false} ReadEscaped(s: string, rest: string)
    ensures LexWord(Escape(s) + "'" + rest, InSingle) == Prefixed(s, LexWord(rest, Bare))
  {
    if s == [] {
      var t := Escape(s) + "'" + rest;
      assert Escape(s) == [];
      assert t == "'" + rest && t[1..] == rest;
      PrefixedNil(LexWord(rest, Bare));
    } else {
      var u := Escape(s[1..]) + "'" + rest;
      assert Escape(s) + "'" + rest == Escape([s[0]]) + u;
      ReadEscapedChar(s[0], u);
      ReadEscaped(s[1..], rest);
      PrefixedTwice([s[0]], s[1..], LexWord(rest, Bare));
      assert [s[0]] + s[1..] == s;
    }
  }

  /** Inside single quotes, one escaped character followed by `u` reads as that character. */
  lemma ReadEscapedChar(c: char, u: string)
    ensures LexWord(Escape([c]) + u, InSingle) == Prefixed([c], LexWord(u, InSingle))
  {
    assert [c][1..] == [];
    if c == '\'' {
      assert Escape([c]) == "'\"'\"'";
      ReadEscapedQuote(u);
    } else {
      assert Escape([c]) == [c];
      assert ([c] + u)[1..] == u;
    }
  }

  /** The escape of a single quote ends the quoted run, gives a quote in double quotes, and
      reopens the quoted run. */
  lemma ReadEscapedQuote(u: string)
    ensures LexWord("'\"'\"'" + u, InSingle) == Prefixed("'", LexWord(u, InSingle))
  {
    var t0 := "'\"'\"'" + u;
    var t1 := "\"'\"'" + u;
    var t2 := "'\"'" + u;
    var t3 := "\"'" + u;
    var t4 := "'" + u;
    assert t0[0] == '\'' && t0[1..] == t1;
    assert t1[0] == '"' && t1[1..] == t2;
    assert t2[0] == '\'' && t2[1..] == t3;
    assert t3[0] == '"' && t3[1..] == t4;
    assert t4[0] == '\'' && t4[1..] == u;
    assert LexWord(t4, Bare) == LexWord(u, InSingle);
    assert LexWord(t3, InDouble) == LexWord(u, InSingle);
    assert LexWord(t2, InDouble) == Prefixed("'", LexWord(u, InSingle));
    assert LexWord(t1, Bare) == LexWord(t2, InDouble);
  }

  /** The shell reads `Quote(s)` followed by a blank, a newline or nothing as exactly the word `s`. */
  lemma ReadQuoted(s: string, rest: string)
    requires rest == [] || IsDelimiter(rest[0])
    ensures LexWord(Quote(s) + rest, Bare) == Some((s, rest))
  {
    DelimitedEmpty(rest);
    if s != [] && AllSafe(s) {
      ReadSafe(s, rest);
      assert s + [] == s;
    } else {
      ReadSingleQuoted(s, rest);
    }
  }

  /** A string in single quotes, with its own single quotes escaped, reads back as itself. */
  lemma ReadSingleQuoted(s: string, rest: string)
    requires rest == [] || IsDelimiter(rest[0])
    ensures LexWord("'" + Escape(s) + "'" + rest, Bare) == Some((s, rest))
  {
    var v := Escape(s) + "'" + rest;
    assert "'" + Escape(s) + "'" + rest == "'" + v;
    OpeningQuote(v);
    ReadEscaped(s, rest);
    DelimitedEmpty(rest);
    assert s + [] == s;
  }

  /** An opening single quote outside quotes starts a single-quoted run. */
  lemma OpeningQuote(v: string)
    ensures LexWord("'" + v, Bare) == LexWord(v, InSingle)
  {
    assert ("'" + v)[0] == '\'' && ("'" + v)[1..] == v;
  }

  /** Round trip: whatever `s` holds, a shell reads `Quote(s)` as the single word `s`. */
  lemma QuoteRoundTrip(s: string)
    ensures ReadWord(Quote(s)) == Some(s)
  {
    ReadQuoted(s, []);
    assert Quote(s) + [] == Quote(s);
  }

  /** A word that does not start with a blank or newline is taken off the front of a command. */
  lemma WordsStep(t: string, w: string, r: string)
    requires t != [] && !IsDelimiter(t[0])
    requires LexWord(t, Bare) == Some((w, r))
    ensures Words(t) ==
      match Words(r)
      case None => None
      case Some(u) => Some(([w] + u.0, u.1))
  {
  }

  /** Blanks before a word are skipped. */
  lemma WordsBlank(u: string)
    ensures Words(" " + u) == Words(u)
  {
    assert (" " + u)[1..] == u;
  }

  /** A quoted word starts with neither a blank nor a newline. */
  lemma SafeFirstNotBlank(q: string)
    requires q != [] && (q[0] == '\'' || IsSafeChar(q[0]))
    ensures q[0] != ' ' && q[0] != '\n'
  {
  }

  /** A quoted word at the front of a command becomes its first word. */
  lemma QuotedFirstWord(w: string, more: string)
    requires more == [] || IsDelimiter(more[0])
    ensures Words(Quote(w) + more) ==
      match Words(more)
      case None => None
      case Some(u) => Some(([w] + u.0, u.1))
  {
    ReadQuoted(w, more);
    SafeFirstNotBlank(Quote(w));
    WordsStep(Quote(w) + more, w, more);
  }

  /** A line of one quoted word is read as that word alone. */
  lemma QuotedLineOne(w: string, rest: string)
    requires rest == [] || rest[0] == '\n'
    ensures Words(Quote(w) + rest) == Some(([w], rest))
  {
    QuotedFirstWord(w, rest);
    assert Words(rest) == Some(([], rest));
    assert [w] + [] == [w];
  }

  /** A quoted word and a blank in front of a line add that word in front of its words. */
  lemma QuotedLineMore(w: string, ws: seq<string>, rest: string)
    requires ws != []
    requires Words(QuotedLine(ws) + rest) == Some((ws, rest))
    ensures Words(QuotedLine([w] + ws) + rest) == Some(([w] + ws, rest))
  {
    var u := QuotedLine(ws) + rest;
    QuotedLineConsText(w, ws, rest);
    WordsBlank(u);
    QuotedWordBefore(w, " " + u, ws, rest);
  }

  /** A quoted word in front of a delimited command adds itself as the first word. */
  lemma QuotedWordBefore(w: string, more: string, ws: seq<string>, rest: string)
    requires more == [] || IsDelimiter(more[0])
    requires Words(more) == Some((ws, rest))
    ensures Words(Quote(w) + more) == Some(([w] + ws, rest))
  {
    QuotedFirstWord(w, more);
  }

  /** A quoted line of at least two words: the first quoted word, a blank, the rest. */
  lemma QuotedLineCons(w: string, ws: seq<string>)
    requires ws != []
    ensures QuotedLine([w] + ws) == Quote(w) + " " + QuotedLine(ws)
  {
    assert ([w] + ws)[1..] == ws;
  }

  /** The same split, with the text that follows the line. */
  lemma QuotedLineConsText(w: string, ws: seq<string>, rest: string)
    requires ws != []
    ensures QuotedLine([w] + ws) + rest == Quote(w) + (" " + (QuotedLine(ws) + rest))
  {
    assert ([w] + ws)[1..] == ws;
  }

  /** Round trip for a command line: quoting each of `ws` and joining them with blanks gives a
      line the shell splits back into exactly `ws`. */
  lemma {:induction false} QuotedLineRoundTrip(ws: seq<string>, rest: string)
    requires rest == [] || rest[0] == '\n'
    ensures Words(QuotedLine(ws) + rest) == Some((ws, rest))
    decreases |ws|
  {
    if ws == [] {
      assert QuotedLine(ws) + rest == rest;
    } else if |ws| == 1 {
      QuotedLineOne(ws[0], rest);
      assert [ws[0]] == ws;
    } else {
      QuotedLineRoundTrip(ws[1..], rest);
      QuotedLineMore(ws[0], ws[1..], rest);
      assert [ws[0]] + ws[1..] == ws;
    }
  }

  /** A script line made of quoted words and a newline contributes exactly those words as its
      first command. */
  lemma QuotedLineThenScript(ws: seq<string>, rest: string)
    ensures Script(QuotedLine(ws) + "\n" + rest) ==
      match Script(rest)
      case None => None
      case Some(cs) => Some([ws] + cs)
  {
    var t := QuotedLine(ws) + ("\n" + rest);
    assert QuotedLine(ws) + "\n" + rest == t;
    QuotedLineRoundTrip(ws, "\n" + rest);
    assert ("\n" + rest)[1..] == rest;
  }

  /** The last line of a script made of quoted words is exactly those words. */
  lemma LastQuotedLine(ws: seq<string>)
    ensures Script(QuotedLine(ws)) == Some([ws])
  {
    QuotedLineRoundTrip(ws, []);
    assert QuotedLine(ws) + [] == QuotedLine(ws);
  }

  /** `exec ` in front of a script adds the word `exec` to its first command and leaves the
      others alone. */
  lemma ExecPrefix(c: string)
    ensures Script("exec " + c) ==
      match Script(c)
      case None => None
      case Some(cs) => Some([["exec"] + cs[0]] + cs[1..])
  {
    var t := "exec" + (" " + c);
    assert "exec " + c == t;
    assert AllSafe("exec");
    ReadSafe("exec", " " + c);
    DelimitedEmpty(" " + c);
    assert "exec" + [] == "exec";
    WordsStep(t, "exec", " " + c);
    WordsBlank(c);
    match Words(c)
    case None =>
    case Some(u) =>
      assert Words(t) == Some((["exec"] + u.0, u.1));
      if u.1 == [] {
        assert Script(c) == Some([u.0]);
        assert Script(t) == Some([["exec"] + u.0]);
        var cs := [u.0];
        assert [["exec"] + cs[0]] + cs[1..] == [["exec"] + u.0];
      } else {
        match Script(u.1[1..])
        case None =>
        case Some(cs) =>
          assert Script(c) == Some([u.0] + cs);
      }
  }

  /** `exec ` in front of a line of quoted words runs exactly those words under `exec`. */
  lemma ExecQuotedLine(ws: seq<string>)
    ensures Script("exec " + QuotedLine(ws)) == Some([["exec"] + ws])
  {
    LastQuotedLine(ws);
    ExecPrefix(QuotedLine(ws));
    var cs := [ws];
    assert Script(QuotedLine(ws)) == Some(cs);
    assert Script("exec " + QuotedLine(ws)) == Some([["exec"] + cs[0]] + cs[1..]);
    assert [["exec"] + cs[0]] + cs[1..] == [["exec"] + ws];
  }
}
