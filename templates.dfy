/** The rewrite of a manifest's `service` template: `re.sub(r"\$\{([^}]+)\}", ...)` with each
    match replaced by the shell-quoted value of its name. */
module Templates {
  import opened Outcomes
  import opened ShellQuote

  /** The number of characters before the first `}` of `s` (all of `s` when it has none). */
  function NameLength(s: string): (n: nat)
    ensures n <= |s|
    ensures forall i :: 0 <= i < n ==> s[i] != '}'
    ensures n < |s| ==> s[n] == '}'
  {
    if s == [] || s[0] == '}' then 0 else 1 + NameLength(s[1..])
  }

  /** True when `name` can be the group of a match: non-empty and free of `}`. */
  predicate IsName(name: string) {
    name != [] && forall i :: 0 <= i < |name| ==> name[i] != '}'
  }

  /** The name of the match that starts at the front of `t`, if one does: `$`, `{`, one or more
      characters other than `}`, and the first `}` after them. */
  function PlaceholderAt(t: string): (r: Option<string>)
    ensures r.Some? ==> IsName(r.value) && |r.value| + 3 <= |t|
    ensures r.Some? ==> t[..|r.value| + 3] == "${" + r.value + "}"
  {
    if |t| >= 2 && t[0] == '$' && t[1] == '{' then
      var n := NameLength(t[2..]);
      if 0 < n < |t| - 2 then Some(t[2..2 + n]) else None
    else None
  }

  /** Puts `p` in front of a successful result. */
  function Prepend(p: string, r: Result<string>): (q: Result<string>)
    ensures q.Ok? <==> r.Ok?
    ensures q.Ok? ==> q.value == p + r.value
    ensures q.Err? ==> q.error == r.error
  {
    match r
    case Ok(s) => Ok(p + s)
    case Err(e) => Err(e)
  }

  /** One left-to-right pass: at a match the whole match becomes the quoted value of its name
      (and the scan resumes after it, so a value is never rescanned); anywhere else one character
      is copied. A name missing from `env` fails the whole rewrite. */
  function Substitute(t: string, env: map<string, string>): Result<string>
    decreases |t|
  {
    if t == [] then Ok([])
    else match PlaceholderAt(t)
      case Some(name) =>
        if name in env then Prepend(Quote(env[name]), Substitute(t[|name| + 3..], env))
        else Err(UnresolvedPlaceholder(name))
      case None => Prepend([t[0]], Substitute(t[1..], env))
  }

  /** `${name}` at the front of a text is recognised as a match of exactly that name. */
  lemma PlaceholderRecognised(name: string, rest: string)
    requires IsName(name)
    ensures PlaceholderAt("${" + name + "}" + rest) == Some(name)
  {
    var t := "${" + name + "}" + rest;
    assert t[0] == '$' && t[1] == '{' && |t| == |name| + 3 + |rest|;
    assert t[2..] == name + ("}" + rest);
    NameLengthOf(name, "}" + rest);
    assert NameLength(t[2..]) == |name|;
    assert t[2..2 + |name|] == name;
  }

  /** The name runs up to the `}` that follows a `}`-free prefix. */
  lemma {:induction false} NameLengthOf(name: string, rest: string)
    requires forall i :: 0 <= i < |name| ==> name[i] != '}'
    requires rest != [] && rest[0] == '}'
    ensures NameLength(name + rest) == |name|
  {
    if name != [] {
      assert (name + rest)[1..] == name[1..] + rest;
      NameLengthOf(name[1..], rest);
    } else {
      assert name + rest == rest;
    }
  }

  /** No match starts at any position of `t`, even with `u` following it (position by
      position; `NoMatchWithinAt` gives the same as a statement about every index). */
  predicate NoMatchWithin(t: string, u: string)
    decreases |t|
  {
    t == [] || (PlaceholderAt(t + u).None? && NoMatchWithin(t[1..], u))
  }

  /** `NoMatchWithin` holds exactly when no match starts at any index of `t`. */
  lemma {:induction false} NoMatchWithinAt(t: string, u: string)
    ensures NoMatchWithin(t, u) <==> forall i :: 0 <= i < |t| ==> PlaceholderAt((t + u)[i..]).None?
    decreases |t|
  {
    if t != [] {
      NoMatchWithinAt(t[1..], u);
      assert (t + u)[0..] == t + u;
      forall i | 0 <= i < |t[1..]|
        ensures (t[1..] + u)[i..] == (t + u)[i + 1..]
      {
      }
      if forall i :: 0 <= i < |t| ==> PlaceholderAt((t + u)[i..]).None? {
        forall i | 0 <= i < |t[1..]|
          ensures PlaceholderAt((t[1..] + u)[i..]).None?
        {
          assert PlaceholderAt((t + u)[i + 1..]).None?;
        }
      }
      if NoMatchWithin(t, u) {
        forall i | 0 <= i < |t|
          ensures PlaceholderAt((t + u)[i..]).None?
        {
          if i > 0 {
            assert PlaceholderAt((t[1..] + u)[i - 1..]).None?;
          }
        }
      }
    }
  }

  /** Text in which no match starts is copied verbatim, and the rest is rewritten as if alone. */
  lemma {:induction false} CopiedVerbatim(t: string, u: string, env: map<string, string>)
    requires NoMatchWithin(t, u)
    ensures Substitute(t + u, env) == Prepend(t, Substitute(u, env))
    decreases |t|
  {
    if t == [] {
      assert t + u == u;
      PrependNil(Substitute(u, env));
    } else {
      NoMatchTail(t, u);
      CopyOne(t + u, env);
      CopiedVerbatim(t[1..], u, env);
      PrependTwice([t[0]], t[1..], Substitute(u, env));
      assert [t[0]] + t[1..] == t;
    }
  }

  /** Prepending nothing changes nothing. */
  lemma PrependNil(r: Result<string>)
    ensures Prepend([], r) == r
  {
    if r.Ok? {
      assert [] + r.value == r.value;
    }
  }

  /** Prepending twice is prepending the concatenation. */
  lemma PrependTwice(a: string, b: string, r: Result<string>)
    ensures Prepend(a, Prepend(b, r)) == Prepend(a + b, r)
  {
    if r.Ok? {
      assert a + (b + r.value) == (a + b) + r.value;
    }
  }

  /** Where no match starts, the rewrite copies the first character. */
  lemma CopyOne(w: string, env: map<string, string>)
    requires w != [] && PlaceholderAt(w).None?
    ensures Substitute(w, env) == Prepend([w[0]], Substitute(w[1..], env))
  {
  }

  /** No match starts at the front of `t + u`, nor anywhere in the rest of `t`. */
  lemma NoMatchTail(t: string, u: string)
    requires t != [] && NoMatchWithin(t, u)
    ensures PlaceholderAt(t + u).None?
    ensures (t + u)[1..] == t[1..] + u
    ensures NoMatchWithin(t[1..], u)
  {
  }

  /** A template in which nothing matches comes back unchanged, whatever the environment. */
  lemma NoPlaceholderUnchanged(t: string, env: map<string, string>)
    requires NoMatchWithin(t, [])
    ensures Substitute(t, env) == Ok(t)
  {
    CopiedVerbatim(t, [], env);
    assert t + [] == t;
  }

  /** A piece of a template: literal text, or a placeholder. */
  datatype Part = Text(text: string) | Placeholder(name: string)

  /** Literal text with no `$` directly before `{`. A `$` at its end is allowed: what follows a
      text in a template is nothing or a placeholder, and `$$` starts no match. */
  predicate IsPlainText(s: string) {
    forall i :: 0 <= i < |s| - 1 ==> !(s[i] == '$' && s[i + 1] == '{')
  }

  /** Parts that spell a template unambiguously: plain texts, well-formed names, and never two
      texts in a row (they would be one text). */
  predicate WellFormed(parts: seq<Part>) {
    (forall i :: 0 <= i < |parts| ==>
      match parts[i]
      case Text(s) => IsPlainText(s)
      case Placeholder(name) => IsName(name))
    && (forall i :: 0 <= i < |parts| - 1 && parts[i].Text? ==> parts[i + 1].Placeholder?)
  }

  /** The template text that the parts spell out. */
  function Compose(parts: seq<Part>): string
    decreases |parts|
  {
    if parts == [] then []
    else
      (match parts[0]
       case Text(s) => s
       case Placeholder(name) => "${" + name + "}")
      + Compose(parts[1..])
  }

  /** The intended meaning of a template, part by part: literal text stays, each placeholder
      becomes its quoted value, and the first name missing from `env` is the error. */
  function Expand(parts: seq<Part>, env: map<string, string>): Result<string>
    decreases |parts|
  {
    if parts == [] then Ok([])
    else match parts[0]
      case Text(s) => Prepend(s, Expand(parts[1..], env))
      case Placeholder(name) =>
        if name in env then Prepend(Quote(env[name]), Expand(parts[1..], env))
        else Err(UnresolvedPlaceholder(name))
  }

  /** Plain text starts no match when nothing or a `$` follows it. */
  lemma {:induction false} PlainTextNoMatch(s: string, u: string)
    requires IsPlainText(s)
    requires u == [] || u[0] == '$'
    ensures NoMatchWithin(s, u)
    decreases |s|
  {
    if s != [] {
      var w := s + u;
      assert w[0] == s[0];
      assert |s| > 1 ==> w[1] == s[1];
      assert |s| == 1 && u != [] ==> w[1] == u[0];
      assert PlaceholderAt(w).None?;
      assert IsPlainText(s[1..]) by {
        forall i | 0 <= i < |s[1..]| - 1
          ensures !(s[1..][i] == '$' && s[1..][i + 1] == '{')
        {
          assert s[1..][i] == s[i + 1] && s[1..][i + 1] == s[i + 2];
        }
      }
      PlainTextNoMatch(s[1..], u);
    }
  }

  /** The parts after the first of a well-formed sequence are well-formed too. */
  lemma WellFormedTail(parts: seq<Part>)
    requires parts != [] && WellFormed(parts)
    ensures WellFormed(parts[1..])
  {
    forall i | 0 <= i < |parts[1..]|
      ensures match parts[1..][i]
        case Text(s) => IsPlainText(s)
        case Placeholder(name) => IsName(name)
    {
      assert parts[1..][i] == parts[i + 1];
    }
    forall i | 0 <= i < |parts[1..]| - 1 && parts[1..][i].Text?
      ensures parts[1..][i + 1].Placeholder?
    {
      assert parts[1..][i] == parts[i + 1] && parts[1..][i + 1] == parts[i + 2];
    }
  }

  /** What follows a text in a well-formed template is nothing or a placeholder, which starts
      with `$`. */
  lemma AfterText(parts: seq<Part>)
    requires parts != [] && WellFormed(parts) && parts[0].Text?
    ensures Compose(parts[1..]) == [] || Compose(parts[1..])[0] == '$'
  {
    if |parts| > 1 {
      assert parts[1..][0] == parts[1];
      assert parts[1].Placeholder?;
    }
  }

  /** The rewrite agrees with the part-by-part meaning on every well-formed template: each
      placeholder becomes the quoted value of its name, text between them is copied verbatim,
      values are not rescanned, and resolution fails, with no partial result, at the first
      missing name. */
  lemma {:induction false} SubstituteComposed(parts: seq<Part>, env: map<string, string>)
    requires WellFormed(parts)
    ensures Substitute(Compose(parts), env) == Expand(parts, env)
    decreases |parts|
  {
    if parts != [] {
      WellFormedTail(parts);
      SubstituteComposed(parts[1..], env);
      var rest := Compose(parts[1..]);
      match parts[0]
      case Text(s) =>
        assert IsPlainText(s) by { assert parts[0] == parts[0]; }
        AfterText(parts);
        PlainTextNoMatch(s, rest);
        CopiedVerbatim(s, rest, env);
      case Placeholder(name) =>
        assert IsName(name);
        var t := "${" + name + "}" + rest;
        assert Compose(parts) == t;
        PlaceholderRecognised(name, rest);
        assert t[|name| + 3..] == rest;
    }
  }

  /** Plain text followed by one placeholder becomes that text and the quoted value. */
  lemma TextThenPlaceholder(text: string, name: string, env: map<string, string>)
    requires IsPlainText(text) && IsName(name) && name in env
    ensures Substitute(text + "${" + name + "}", env) == Ok(text + Quote(env[name]))
  {
    var parts := [Text(text), Placeholder(name)];
    assert parts[1..] == [Placeholder(name)] && parts[1..][1..] == [];
    assert Compose(parts[1..]) == "${" + name + "}" + [];
    assert Compose(parts) == text + "${" + name + "}";
    SubstituteComposed(parts, env);
    assert Expand(parts[1..], env) == Ok(Quote(env[name]) + []);
    assert Quote(env[name]) + [] == Quote(env[name]);
  }
}
