/**
 * The support page's `sanitizeInput`: every match of the global regular
 * expression `<[^>]*>?` is replaced by the empty string. A match starts at a
 * `<` and runs up to and including the next `>`, or to the end of the string
 * when there is no further `>`.
 */
module Sanitizer {
  import opened Options

  /** `t` is matched by `<[^>]*>?`: a `<`, characters other than `>`, and perhaps one closing `>`. */
  predicate IsTagMatch(t: string) {
    |t| >= 1 && t[0] == '<' && forall k :: 1 <= k < |t| - 1 ==> t[k] != '>'
  }

  /** Length of the greedy match of `[^>]*>?` at the start of `s`. */
  function TagBodyLength(s: string): (n: nat)
    ensures n <= |s|
    ensures forall k :: 0 <= k < n - 1 ==> s[k] != '>'
    ensures n < |s| ==> n > 0 && s[n - 1] == '>'
  {
    if s == [] then 0
    else if s[0] == '>' then 1
    else 1 + TagBodyLength(s[1..])
  }

  /**
   * Length of the match of `<[^>]*>?` at the start of `s`: the match exists
   * and no longer prefix of `s` is a match, as the regular expression's
   * greedy `*` and `?` demand.
   */
  function TagMatchLength(s: string): (n: nat)
    requires |s| > 0 && s[0] == '<'
    ensures 1 <= n <= |s|
    ensures IsTagMatch(s[..n])
    ensures forall m :: n < m <= |s| ==> !IsTagMatch(s[..m])
  {
    var n := 1 + TagBodyLength(s[1..]);
    assert forall m :: n < m <= |s| ==> s[..m][n - 1] == '>' && 1 <= n - 1 < m - 1;
    n
  }

  /** The global replace: scan left to right, drop each match, keep every other character. */
  function Sanitize(s: string): string
    decreases |s|
  {
    if |s| == 0 then ""
    else if s[0] == '<' then Sanitize(s[TagMatchLength(s)..])
    else [s[0]] + Sanitize(s[1..])
  }

  /** No `<` survives the replace: every `<` starts a match that is removed. */
  lemma {:induction false} SanitizeNoAngle(s: string)
    ensures '<' !in Sanitize(s)
    decreases |s|
  {
    if |s| == 0 {
    } else if s[0] == '<' {
      SanitizeNoAngle(s[TagMatchLength(s)..]);
    } else {
      SanitizeNoAngle(s[1..]);
    }
  }

  /** Text before the first `<` is kept as it is. */
  lemma {:induction false} SanitizeKeepsPlainPrefix(a: string, b: string)
    requires '<' !in a
    ensures Sanitize(a + b) == a + Sanitize(b)
    decreases |a|
  {
    if |a| > 0 {
      assert a[0] in a && (a + b)[0] == a[0];
      assert (a + b)[1..] == a[1..] + b;
      assert forall c :: c in a[1..] ==> c in a;
      SanitizeKeepsPlainPrefix(a[1..], b);
      assert a + b != [] && (a + b)[0] != '<';
      assert Sanitize(a + b) == [a[0]] + Sanitize(a[1..] + b);
      assert a == [a[0]] + a[1..];
    } else {
      assert a + b == b;
    }
  }

  /**
   * A match of `<[^>]*>?` in front of `b` is removed whole, provided it is the
   * match the regular expression takes there: it is closed by `>`, or nothing
   * follows it.
   */
  lemma SanitizeDropsTag(t: string, b: string)
    requires IsTagMatch(t)
    requires (|t| >= 2 && t[|t| - 1] == '>') || b == []
    ensures Sanitize(t + b) == Sanitize(b)
  {
    var s := t + b;
    assert s[..|t|] == t;
    assert s[|t|..] == b;
    var n := TagMatchLength(s);
    if n < |t| {
      assert false;
    }
    if n > |t| {
      assert false;
    }
  }

  /** A string without `<` is left unchanged. */
  lemma SanitizeIdentity(s: string)
    ensures '<' !in s ==> Sanitize(s) == s
  {
    if '<' !in s {
      SanitizeKeepsPlainPrefix(s, "");
      assert s + "" == s;
    }
  }

  /** Sanitising twice gives the same result as sanitising once. */
  lemma SanitizeIdempotent(s: string)
    ensures Sanitize(Sanitize(s)) == Sanitize(s)
  {
    SanitizeNoAngle(s);
    SanitizeIdentity(Sanitize(s));
  }

  /** Sanitising never lengthens a string. */
  lemma {:induction false} SanitizeShorter(s: string)
    ensures |Sanitize(s)| <= |s|
    decreases |s|
  {
    if |s| == 0 {
    } else if s[0] == '<' {
      SanitizeShorter(s[TagMatchLength(s)..]);
    } else {
      SanitizeShorter(s[1..]);
    }
  }

  /**
   * `sanitizeInput`: a falsy input (absent or empty) gives the empty string,
   * anything else goes through the global replace.
   */
  function SanitizeInput(input: Option<string>): (r: string)
    ensures !TruthyText(input) ==> r == ""
    ensures TruthyText(input) ==> r == Sanitize(input.value)
    ensures '<' !in r
    ensures input.Some? ==> |r| <= |input.value|
    ensures input.Some? && '<' !in input.value ==> r == input.value
  {
    match input
    case None => ""
    case Some(s) =>
      if s == "" then ""
      else
        SanitizeNoAngle(s);
        SanitizeShorter(s);
        SanitizeIdentity(s);
        Sanitize(s)
  }

  /** Feeding a sanitised value back through `sanitizeInput` changes nothing. */
  lemma SanitizeInputIdempotent(input: Option<string>)
    ensures SanitizeInput(Some(SanitizeInput(input))) == SanitizeInput(input)
  {
  }
}
