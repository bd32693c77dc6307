/**
 * The submit handler of the scanner page: a blankness check, a default
 * scheme, and a parse check before the scan starts. Whether a string parses
 * as a URL is decided by the host platform's URL parser, which is a
 * parameter here.
 */
module ScanForm {
  import opened Text
  import opened Forms

  const EnterUrl: string := "Please enter a URL to scan"
  const InvalidUrl: string := "Please enter a valid URL"
  const DefaultScheme: string := "https://"

  /** `/^https?:\/\//i`: the text starts with "http://" or "https://", letters in either case. */
  predicate HasHttpScheme(s: string): (b: bool)
    ensures b ==> |s| >= 7 && Lower(s[..4]) == "http"
  {
    || (|s| >= 7 && Lower(s[..7]) == "http://")
    || (|s| >= 8 && Lower(s[..8]) == "https://")
  }

  /** The pattern is anchored at the start only: whatever follows a scheme does not matter. */
  lemma SchemeIgnoresRest(s: string, rest: string)
    ensures HasHttpScheme(s) ==> HasHttpScheme(s + rest)
  {
    if |s| >= 7 {
      assert (s + rest)[..7] == s[..7];
    }
    if |s| >= 8 {
      assert (s + rest)[..8] == s[..8];
    }
  }

  /** With the `i` flag, the test gives the same answer for a string and its lower-case form. */
  lemma SchemeIgnoresCase(s: string)
    ensures HasHttpScheme(Lower(s)) <==> HasHttpScheme(s)
  {
    if |s| >= 7 {
      assert Lower(Lower(s)[..7]) == Lower(s[..7]);
    }
    if |s| >= 8 {
      assert Lower(Lower(s)[..8]) == Lower(s[..8]);
    }
  }

  /** The default scheme itself passes the scheme test. */
  lemma DefaultSchemePrefix(url: string)
    ensures HasHttpScheme(DefaultScheme + url)
  {
    assert (DefaultScheme + url)[..8] == DefaultScheme;
    assert Lower(DefaultScheme) == DefaultScheme;
  }

  /** The url the scan is started with: the input if it has a scheme, otherwise the input behind "https://". */
  function WithScheme(url: string): (r: string)
    ensures HasHttpScheme(r)
    ensures HasHttpScheme(url) ==> r == url
    ensures !HasHttpScheme(url) ==> r == DefaultScheme + url
    ensures |r| >= |url| && r[|r| - |url|..] == url
  {
    if HasHttpScheme(url) then url
    else
      DefaultSchemePrefix(url);
      DefaultScheme + url
  }

  /** Adding the scheme twice changes nothing further. */
  lemma WithSchemeIdempotent(url: string)
    ensures WithScheme(WithScheme(url)) == WithScheme(url)
  {
  }

  /**
   * After a submit: the text left in the url field (the handler writes the
   * prefixed url back only when it added the scheme) and the outcome.
   */
  datatype ScanSubmit = ScanSubmit(field: string, outcome: Submission<string>)

  function Submit(url: string, parses: string -> bool): (r: ScanSubmit)
    ensures r.outcome == Rejected(EnterUrl) <==> IsBlank(url)
    ensures IsBlank(url) ==> r.field == url
    ensures !IsBlank(url) ==> r.field == WithScheme(url)
    ensures r.outcome == Rejected(InvalidUrl) <==> !IsBlank(url) && !parses(WithScheme(url))
    ensures r.outcome.Submitted? <==> !IsBlank(url) && parses(WithScheme(url))
    ensures r.outcome.Submitted? ==> r.outcome.request == r.field && HasHttpScheme(r.outcome.request)
  {
    if IsBlank(url) then ScanSubmit(url, Rejected(EnterUrl))
    else
      var target := WithScheme(url);
      if !parses(target) then ScanSubmit(target, Rejected(InvalidUrl))
      else ScanSubmit(target, Submitted(target))
  }

  /** Submitting again what the field holds after a submit gives the same field and outcome. */
  lemma ResubmitIsStable(url: string, parses: string -> bool)
    ensures Submit(Submit(url, parses).field, parses) == Submit(url, parses)
  {
    if !IsBlank(url) {
      SchemedNotBlank(url);
      WithSchemeIdempotent(url);
    }
  }

  /** A url with a scheme starts with 'h' or 'H', so it is never blank. */
  lemma SchemedNotBlank(url: string)
    ensures !IsBlank(WithScheme(url))
  {
    var target := WithScheme(url);
    assert !IsSpace(target[0]) by {
      if |target| >= 7 && Lower(target[..7]) == "http://" {
        assert LowerChar(target[0]) == Lower(target[..7])[0];
      } else {
        assert LowerChar(target[0]) == Lower(target[..8])[0];
      }
    }
  }

  /** The scheme test ignores letter case: an upper-case scheme is kept, not prefixed again. */
  lemma UpperCaseSchemeKept()
    ensures WithScheme("HTTP://example.com") == "HTTP://example.com"
  {
    assert Lower("HTTP://example.com"[..7]) == "http://";
  }

  /** Any other scheme is not recognised; the default scheme goes in front of it. */
  lemma OtherSchemePrefixed()
    ensures WithScheme("ftp://example.com") == "https://ftp://example.com"
  {
    assert Lower("ftp://example.com"[..7])[0] == 'f';
    assert Lower("ftp://example.com"[..8])[0] == 'f';
  }
}
