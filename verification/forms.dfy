/**
 * What the form handlers of the login, register and scanner pages share:
 * the outcome of a submit (an error message, or the call the form makes)
 * and the email-format test `/\S+@\S+\.\S+/`.
 */
module Forms {
  import opened Text

  /** A submit either sets one error message or makes exactly one call. */
  datatype Submission<+A> = Rejected(message: string) | Submitted(request: A)

  const FillAllFields: string := "Please fill in all fields"
  const InvalidEmail: string := "Please enter a valid email address"

  /** No character of `s[lo..hi]` is white space (each would match `\S`). */
  predicate NoSpaceIn(s: string, lo: int, hi: int)
    requires 0 <= lo <= hi <= |s|
  {
    forall k :: lo <= k < hi ==> !IsSpace(s[k])
  }

  /**
   * One way for `/\S+@\S+\.\S+/` to match `s`: a non-empty run of
   * non-space characters `s[a..b]`, an '@' at `b`, a second run
   * `s[b+1..c]`, a '.' at `c`, and a third run `s[c+1..e]`.
   */
  predicate MatchSpan(s: string, a: int, b: int, c: int, e: int) {
    && 0 <= a < b && b + 1 < c && c + 1 < e <= |s|
    && s[b] == '@' && s[c] == '.'
    && NoSpaceIn(s, a, b) && NoSpaceIn(s, b + 1, c) && NoSpaceIn(s, c + 1, e)
  }

  /** `/\S+@\S+\.\S+/.test(s)`: the pattern is not anchored, so any span will do. */
  predicate MatchesEmailPattern(s: string): (m: bool)
    ensures m ==> |s| >= 5
    ensures m ==> exists k :: 0 < k < |s| - 3 && s[k] == '@'
  {
    exists a, b, c, e | 0 <= a < b < c < e <= |s| :: MatchSpan(s, a, b, c, e)
  }

  /** A shortest match: one character, '@', the run up to '.', '.', one character. */
  predicate EmailAt(s: string, at: int, dot: int) {
    && 1 <= at && at + 2 <= dot && dot + 2 <= |s|
    && s[at] == '@' && s[dot] == '.'
    && NoSpaceIn(s, at - 1, dot + 2)
  }

  /** The pattern matches exactly when some shortest match exists. */
  lemma EmailPatternShortest(s: string)
    ensures MatchesEmailPattern(s) <==> exists at, dot :: EmailAt(s, at, dot)
  {
    if MatchesEmailPattern(s) {
      var a, b, c, e :| 0 <= a < b < c < e <= |s| && MatchSpan(s, a, b, c, e);
      assert !IsSpace(s[b - 1]);
      assert !IsSpace(s[c + 1]);
      assert EmailAt(s, b, c);
    }
    if exists at, dot :: EmailAt(s, at, dot) {
      var at, dot :| EmailAt(s, at, dot);
      assert MatchSpan(s, at - 1, at, dot, dot + 2);
    }
  }

  /** The pattern is unanchored: text around a matching string does not stop it matching. */
  lemma EmailPatternUnanchored(p: string, s: string, q: string)
    requires MatchesEmailPattern(s)
    ensures MatchesEmailPattern(p + s + q)
  {
    var a, b, c, e :| 0 <= a < b < c < e <= |s| && MatchSpan(s, a, b, c, e);
    var t := p + s + q;
    forall k | |p| + a <= k < |p| + e
      ensures t[k] == s[k - |p|]
    {
    }
    assert MatchSpan(t, |p| + a, |p| + b, |p| + c, |p| + e);
  }

  /** "a@b.c" is the shortest kind of address the pattern accepts. */
  lemma ShortAddressMatches()
    ensures MatchesEmailPattern("a@b.c")
  {
    assert MatchSpan("a@b.c", 0, 1, 3, 5);
  }

  /** Without a '.' after the '@' nothing matches. */
  lemma NoDotNoMatch(s: string)
    requires forall k :: 0 <= k < |s| ==> s[k] != '.'
    ensures !MatchesEmailPattern(s)
  {
  }
}
