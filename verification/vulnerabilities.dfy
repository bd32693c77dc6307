/**
 * The fixed vulnerability catalog of `src/lib/scanner.ts` and the selector
 * `generateVulnerabilities`: `seed % 7 + 1` entries taken from the front of
 * the catalog as the JavaScript engine's `sort` leaves it.
 */
module Vulnerabilities {
  import opened Wrappers

  /** The catalog only ever uses the severity strings "high", "medium" and "low". */
  datatype Severity = High | Medium | Low

  /** The severity as the source spells it. */
  function SeverityText(s: Severity): string {
    match s
    case High => "high"
    case Medium => "medium"
    case Low => "low"
  }

  datatype Vulnerability = Vulnerability(
    name: string,
    severity: Severity,
    description: string,
    location: string,
    evidence: Option<string>,
    cvss: Option<string>)

  /** The ten catalog entries, in declaration order. */
  const Pool: seq<Vulnerability> :=
    [
      Vulnerability(
        "Cross-Site Scripting (XSS)", High,
        "The application does not properly sanitize user input before reflecting it in the response, allowing attackers to inject malicious scripts that execute in users' browsers.",
        "/search?q=parameter", Some("<script>alert('XSS Vulnerability Found')</script>"), Some("8.2")),
      Vulnerability(
        "SQL Injection", High,
        "The application constructs SQL queries using unsanitized user input, potentially allowing attackers to manipulate database queries and access unauthorized data.",
        "/products?id=parameter", Some("id=1' OR '1'='1"), Some("8.5")),
      Vulnerability(
        "Missing Content Security Policy", Medium,
        "The application does not implement a Content Security Policy header, which helps prevent XSS attacks by specifying which dynamic resources are allowed to load.",
        "HTTP Headers", None, Some("5.8")),
      Vulnerability(
        "Insecure Cookie Configuration", Medium,
        "Cookies are being set without the 'secure' and 'HttpOnly' flags, which means they could be transmitted over unencrypted connections and accessed by client-side scripts.",
        "HTTP Headers", Some("Set-Cookie: sessionid=123456; path=/"), Some("5.4")),
      Vulnerability(
        "Server Information Disclosure", Low,
        "The server is revealing detailed version information in HTTP headers, which could help attackers identify specific vulnerabilities in the server software.",
        "HTTP Headers", Some("Server: Apache/2.4.41 (Ubuntu)"), Some("3.7")),
      Vulnerability(
        "Cross-Site Request Forgery (CSRF)", Medium,
        "The application does not implement anti-CSRF tokens, making it vulnerable to cross-site request forgery attacks where unauthorized commands are transmitted from a user the website trusts.",
        "/user/profile", None, Some("6.8")),
      Vulnerability(
        "Outdated TLS Version", Medium,
        "The server supports outdated TLS protocols (TLS 1.0/1.1) which have known vulnerabilities and have been deprecated by major browsers.",
        "TLS Configuration", None, Some("5.9")),
      Vulnerability(
        "Open Redirect", Low,
        "The application allows redirects to arbitrary external domains, which could be exploited in phishing attacks.",
        "/redirect?url=parameter", Some("/redirect?url=https://malicious-site.com"), Some("4.3")),
      Vulnerability(
        "Insecure CORS Configuration", Medium,
        "The application has a permissive CORS policy that allows requests from any origin, potentially enabling cross-origin attacks.",
        "HTTP Headers", Some("Access-Control-Allow-Origin: *"), Some("5.5")),
      Vulnerability(
        "Missing HTTP Strict Transport Security", Low,
        "The application does not implement HSTS, which helps protect against protocol downgrade attacks and cookie hijacking.",
        "HTTP Headers", None, Some("3.8"))
    ]

  /** No two catalog entries share a name. */
  lemma PoolNamesDistinct()
    ensures |Pool| == 10
    ensures forall i, j :: 0 <= i < j < |Pool| ==> Pool[i].name != Pool[j].name
  {
  }

  /**
   * `order` lists, for each position of the sorted copy, the catalog index
   * that lands there: an arrangement of 0 .. n-1 without repetition.
   */
  predicate IsPermutation(order: seq<int>, n: nat) {
    && |order| == n
    && (forall i :: 0 <= i < n ==> 0 <= order[i] < n)
    && (forall i, j :: 0 <= i < j < n ==> order[i] != order[j])
  }

  /**
   * The value the source's comparator returns for every pair: one value in
   * [-6, 6], fixed by the seed.
   */
  function ComparatorValue(seed: nat): (v: int)
    ensures -6 <= v <= 6
    ensures v + 6 == seed % 13
    ensures v < 0 <==> seed % 13 < 6
  {
    seed % 13 - 6
  }

  /**
   * The engine's `sort` of the catalog under a comparator that always
   * returns `v`: `sortWith(v)` is the arrangement it leaves. What a
   * comparator that ignores its arguments leads to is up to the engine's
   * sorting algorithm, so any permutation is allowed for each value.
   */
  predicate IsSortEngine(sortWith: int -> seq<int>) {
    forall v :: -6 <= v <= 6 ==> IsPermutation(sortWith(v), |Pool|)
  }

  /**
   * One such engine: a sort that starts by detecting a run, as V8's TimSort
   * does. Under a negative constant every element continues a descending
   * run, which is then reversed; under any other constant the catalog is
   * one ascending run, left as it is.
   */
  function RunSort(v: int): (order: seq<int>)
    ensures IsPermutation(order, |Pool|)
    ensures v < 0 ==> forall i :: 0 <= i < |Pool| ==> order[i] == |Pool| - 1 - i
    ensures v >= 0 ==> forall i :: 0 <= i < |Pool| ==> order[i] == i
  {
    if v < 0 then seq(|Pool|, i requires 0 <= i < |Pool| => |Pool| - 1 - i)
    else seq(|Pool|, i requires 0 <= i < |Pool| => i)
  }

  /** The number of vulnerabilities reported for a seed. */
  function SelectionCount(seed: nat): (n: nat)
    ensures 1 <= n <= 7
    ensures seed % 7 == 0 ==> n == 1
  {
    seed % 7 + 1
  }

  /**
   * `generateVulnerabilities`: sort a copy of the catalog with the seed's
   * comparator value (the arrangement `sortWith` gives for it), then keep
   * its first `seed % 7 + 1` entries.
   */
  function Select(seed: nat, sortWith: int -> seq<int>): (r: seq<Vulnerability>)
    requires IsSortEngine(sortWith)
    ensures |r| == seed % 7 + 1
    ensures 1 <= |r| <= 7
    ensures forall i :: 0 <= i < |r| ==> r[i] == Pool[sortWith(ComparatorValue(seed))[i]]
    ensures forall i :: 0 <= i < |r| ==> r[i] in Pool
    ensures forall i, j :: 0 <= i < j < |r| ==> r[i].name != r[j].name
  {
    PoolNamesDistinct();
    var order := sortWith(ComparatorValue(seed));
    var sorted := seq(|Pool|, i requires 0 <= i < |Pool| => Pool[order[i]]);
    sorted[..SelectionCount(seed)]
  }

  /**
   * Seeds whose comparator values agree sort the catalog alike, so a smaller
   * count selects a prefix of a larger one.
   */
  lemma SelectionsNest(seed1: nat, seed2: nat, sortWith: int -> seq<int>)
    requires IsSortEngine(sortWith)
    requires ComparatorValue(seed1) == ComparatorValue(seed2)
    requires seed1 % 7 <= seed2 % 7
    ensures Select(seed1, sortWith) <= Select(seed2, sortWith)
  {
  }

  /** Under the run-detecting sort, the sign of the comparator value decides which end of the catalog is reported. */
  lemma RunSortSelection(seed: nat)
    ensures IsSortEngine(RunSort)
    ensures ComparatorValue(seed) < 0 ==> Select(seed, RunSort)[0] == Pool[|Pool| - 1]
    ensures ComparatorValue(seed) >= 0 ==> Select(seed, RunSort)[0] == Pool[0]
  {
    assert IsSortEngine(RunSort);
  }

  /** Seed 0 under the run-detecting sort reports only the last catalog entry, a low-severity finding. */
  lemma EmptySeedRunSort()
    ensures IsSortEngine(RunSort)
    ensures Select(0, RunSort) == [Pool[|Pool| - 1]]
    ensures Pool[|Pool| - 1].severity == Low
  {
    RunSortSelection(0);
  }
}
