/**
 * `scanForVulnerabilities` of `src/lib/scanner.ts`: the host name's seed
 * drives the selector and the technical profile; the scorer and the
 * recommendation mapper work on the selection. The wall-clock values (scan
 * date, `Date:` header) and the `Math.random` draw for the duration are
 * parameters.
 */
module Scanner {
  import opened Int32
  import opened DomainHash
  import opened Vulnerabilities
  import opened Scoring
  import opened Recommendations
  import opened TechProfile

  datatype ScanReport = ScanReport(
    url: string,
    scanDate: string,
    durationSeconds: int,
    securityScore: int,
    riskLevel: RiskLevel,
    summary: Summary,
    vulnerabilities: seq<Vulnerability>,
    recommendations: seq<Recommendation>,
    technicalDetails: TechnicalDetails)

  /** `15 + Math.floor(Math.random() * 30)`, for a draw in [0, 1). */
  function ScanDuration(draw: real): (n: int)
    requires 0.0 <= draw < 1.0
    ensures 15 <= n < 45
  {
    15 + (draw * 30.0).Floor
  }

  /**
   * The report for `url`, whose host name is `host`. `sortWith` is the
   * engine's `sort` of the catalog under a constant comparator value.
   */
  function Report(url: string, host: string, sortWith: int -> seq<int>, scanDate: string, httpDate: string,
                  durationDraw: real): (r: ScanReport)
    requires IsSortEngine(sortWith)
    requires 0.0 <= durationDraw < 1.0
    ensures r.url == url && r.scanDate == scanDate
    ensures 15 <= r.durationSeconds < 45
    ensures 1 <= |r.vulnerabilities| <= 7
    ensures forall i, j :: 0 <= i < j < |r.vulnerabilities| ==> r.vulnerabilities[i].name != r.vulnerabilities[j].name
    ensures forall i :: 0 <= i < |r.vulnerabilities| ==> r.vulnerabilities[i] in Pool
    ensures forall i :: 0 <= i < |r.vulnerabilities| ==>
              r.vulnerabilities[i] == Pool[sortWith(ComparatorValue(Seed(host)))[i]]
    ensures r.summary.high + r.summary.medium + r.summary.low == |r.vulnerabilities|
    ensures 0 <= r.securityScore < 100
    ensures r.riskLevel == HighRisk <==> r.summary.high > 0
    ensures r.riskLevel == MediumRisk <==> r.summary.high == 0 && r.summary.medium > 0
    ensures |r.recommendations| >= 3
    ensures 3 <= |r.technicalDetails.technologies| <= 7
    ensures 2 <= |r.technicalDetails.ports| <= 5
    ensures r.technicalDetails.ports[0].number == 80 && r.technicalDetails.ports[1].number == 443
    ensures r.vulnerabilities == Select(Seed(host), sortWith)
    ensures r.summary == Summarize(r.vulnerabilities)
    ensures r.securityScore == Score(r.summary) && r.riskLevel == Risk(r.summary)
    ensures r.recommendations == Recommend(r.vulnerabilities)
    ensures r.technicalDetails == Synthesize(Seed(host), host, httpDate)
  {
    var seed := Seed(host);
    var vs := Select(seed, sortWith);
    var summary := Summarize(vs);
    ScoreFullIffNoFindings(vs);
    ScanReport(
      url,
      scanDate,
      ScanDuration(durationDraw),
      Score(summary),
      Risk(summary),
      summary,
      vs,
      Recommend(vs),
      Synthesize(seed, host, httpDate))
  }

  /** Only the scan date and the duration vary between two scans of the same host. */
  lemma Deterministic(url: string, host: string, sortWith: int -> seq<int>,
                      date1: string, httpDate: string, draw1: real, date2: string, draw2: real)
    requires IsSortEngine(sortWith)
    requires 0.0 <= draw1 < 1.0 && 0.0 <= draw2 < 1.0
    ensures Report(url, host, sortWith, date2, httpDate, draw2) ==
            Report(url, host, sortWith, date1, httpDate, draw1).(scanDate := date2, durationSeconds := ScanDuration(draw2))
  {
  }

  /** The empty host name hashes to 0: one finding, hence three recommendations. */
  lemma EmptyHostFindings(url: string, sortWith: int -> seq<int>, scanDate: string, httpDate: string, draw: real)
    requires IsSortEngine(sortWith)
    requires 0.0 <= draw < 1.0
    ensures Seed("") == 0
    ensures |Report(url, "", sortWith, scanDate, httpDate, draw).vulnerabilities| == 1
    ensures |Report(url, "", sortWith, scanDate, httpDate, draw).recommendations| == 3
  {
  }

  /** The empty host name's profile: three picks of Apache, an Apache server, a CSP line, two ports, 192.168.0.1. */
  lemma EmptyHostProfile(url: string, sortWith: int -> seq<int>, scanDate: string, httpDate: string, draw: real)
    requires IsSortEngine(sortWith)
    requires 0.0 <= draw < 1.0
    ensures Report(url, "", sortWith, scanDate, httpDate, draw).technicalDetails.technologies == ["Apache", "Apache", "Apache"]
    ensures Report(url, "", sortWith, scanDate, httpDate, draw).technicalDetails.headers.server == "Apache"
    ensures Report(url, "", sortWith, scanDate, httpDate, draw).technicalDetails.headers.csp.Some?
    ensures |Report(url, "", sortWith, scanDate, httpDate, draw).technicalDetails.ports| == 2
    ensures Report(url, "", sortWith, scanDate, httpDate, draw).technicalDetails.dns.ip == [192, 168, 0, 1]
  {
    ProfileOfSeedZero("", httpDate);
    assert Report(url, "", sortWith, scanDate, httpDate, draw).technicalDetails == Synthesize(0, "", httpDate);
  }

  /**
   * Under the run-detecting sort, the empty host's comparator value is -6,
   * so the reversed catalog's first entry, the one low-severity HSTS finding,
   * is the whole selection: score 98, low risk.
   */
  lemma EmptyHostUnderRunSort(url: string, scanDate: string, httpDate: string, draw: real)
    requires 0.0 <= draw < 1.0
    ensures IsSortEngine(RunSort)
    ensures Report(url, "", RunSort, scanDate, httpDate, draw).vulnerabilities == [Pool[|Pool| - 1]]
    ensures Report(url, "", RunSort, scanDate, httpDate, draw).summary == Summary(0, 0, 1)
    ensures Report(url, "", RunSort, scanDate, httpDate, draw).securityScore == 98
    ensures Report(url, "", RunSort, scanDate, httpDate, draw).riskLevel == LowRisk
  {
    EmptySeedRunSort();
    var r := Report(url, "", RunSort, scanDate, httpDate, draw);
    assert r.vulnerabilities == Select(0, RunSort);
    SingleLowFinding(Pool[|Pool| - 1]);
  }
}
