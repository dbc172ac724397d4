/** Python 2.7's `pipes.quote`, which the deployer uses on every value it puts into a command line. */
module ShellQuote {

  /** The characters `pipes.quote` leaves alone: ASCII letters, digits and `@%_-+=:,./`. */
  predicate IsSafeChar(c: char) {
    ('a' <= c <= 'z') || ('A' <= c <= 'Z') || ('0' <= c <= '9') || c in "@%_-+=:,./"
  }

  /** True when every character of `s` is safe. */
  predicate AllSafe(s: string) {
    s == [] || (IsSafeChar(s[0]) && AllSafe(s[1..]))
  }

  /** `s.replace("'", "'\"'\"'")`: each single quote closes the quoted run, is written inside
      double quotes, and reopens the run. */
  function Escape(s: string): (r: string)
    ensures |r| >= |s|
  {
    if s == [] then []
    else if s[0] == '\'' then "'\"'\"'" + Escape(s[1..])
    else [s[0]] + Escape(s[1..])
  }

  /** `pipes.quote(s)`: the empty string becomes `''`, an all-safe string is returned as it is,
      anything else is wrapped in single quotes with its single quotes escaped. */
  function Quote(s: string): (r: string)
    ensures r != []
    ensures r[0] == '\'' || IsSafeChar(r[0])
  {
    if s == [] then "''"
    else if AllSafe(s) then s
    else "'" + Escape(s) + "'"
  }

  /** Each character of an all-safe string is safe. */
  lemma {:induction false} AllSafeAt(s: string, i: nat)
    requires AllSafe(s) && i < |s|
    ensures IsSafeChar(s[i])
  {
    if i > 0 {
      AllSafeAt(s[1..], i - 1);
    }
  }

  /** A string whose every character is safe is all-safe. */
  lemma {:induction false} AllSafeOf(s: string)
    requires forall i :: 0 <= i < |s| ==> IsSafeChar(s[i])
    ensures AllSafe(s)
    decreases |s|
  {
    if s != [] {
      assert forall i :: 0 <= i < |s[1..]| ==> s[1..][i] == s[i + 1];
      AllSafeOf(s[1..]);
    }
  }

  /** Escaping changes nothing in a string without single quotes. */
  lemma {:induction false} EscapeWithoutQuotes(s: string)
    requires forall i :: 0 <= i < |s| ==> s[i] != '\''
    ensures Escape(s) == s
    decreases |s|
  {
    if s != [] {
      assert forall i :: 0 <= i < |s[1..]| ==> s[1..][i] == s[i + 1];
      EscapeWithoutQuotes(s[1..]);
      assert [s[0]] + s[1..] == s;
    }
  }

  /** A string containing an unsafe character is not all-safe. */
  lemma {:induction false} UnsafeCharBreaksSafety(s: string, i: nat)
    requires i < |s| && !IsSafeChar(s[i])
    ensures !AllSafe(s)
  {
    if AllSafe(s) {
      AllSafeAt(s, i);
    }
  }

  /** A string with an unsafe character and no single quote is simply wrapped in single quotes. */
  lemma QuoteWraps(s: string, i: nat)
    requires i < |s| && !IsSafeChar(s[i])
    requires forall j :: 0 <= j < |s| ==> s[j] != '\''
    ensures Quote(s) == "'" + s + "'"
  {
    UnsafeCharBreaksSafety(s, i);
    EscapeWithoutQuotes(s);
  }

  /** Quoting is the identity exactly on the non-empty strings made only of safe characters. */
  lemma QuoteIdentity(s: string)
    ensures Quote(s) == s <==> (s != [] && AllSafe(s))
  {
    if s != [] && !AllSafe(s) {
      assert |Quote(s)| >= |s| + 2;
    }
  }
}
