/**
 * The scorer inlined in `scanForVulnerabilities` (`src/lib/scanner.ts`):
 * per-severity counts, the clamped security score, and the risk level.
 */
module Scoring {
  import opened Vulnerabilities

  datatype Summary = Summary(high: nat, medium: nat, low: nat)

  /** Displayed as "High", "Medium" and "Low". */
  datatype RiskLevel = HighRisk | MediumRisk | LowRisk

  /** `vulnerabilities.filter((v) => v.severity === sev).length`. */
  function Count(vs: seq<Vulnerability>, sev: Severity): (n: nat)
    ensures n <= |vs|
    ensures vs == [] ==> n == 0
    ensures |vs| == 1 ==> n == (if vs[0].severity == sev then 1 else 0)
  {
    if vs == [] then 0
    else (if vs[0].severity == sev then 1 else 0) + Count(vs[1..], sev)
  }

  /** A severity is counted at least once exactly when some vulnerability has it. */
  lemma {:induction false} CountPositive(vs: seq<Vulnerability>, sev: Severity)
    ensures Count(vs, sev) > 0 <==> exists i :: 0 <= i < |vs| && vs[i].severity == sev
  {
    if vs != [] {
      CountPositive(vs[1..], sev);
      if Count(vs[1..], sev) > 0 {
        var i :| 0 <= i < |vs[1..]| && vs[1..][i].severity == sev;
        assert vs[i + 1].severity == sev;
      }
      if exists i :: 0 <= i < |vs| && vs[i].severity == sev {
        var i :| 0 <= i < |vs| && vs[i].severity == sev;
        if i > 0 {
          assert vs[1..][i - 1].severity == sev;
        }
      }
    }
  }

  /** Every vulnerability is counted under exactly one severity. */
  lemma {:induction false} CountTotal(vs: seq<Vulnerability>)
    ensures Count(vs, High) + Count(vs, Medium) + Count(vs, Low) == |vs|
  {
    if vs != [] {
      CountTotal(vs[1..]);
    }
  }

  /** Counting is additive: the count over two lists joined is the sum of their counts. */
  lemma {:induction false} CountAppend(a: seq<Vulnerability>, b: seq<Vulnerability>, sev: Severity)
    ensures Count(a + b, sev) == Count(a, sev) + Count(b, sev)
  {
    if a == [] {
      assert a + b == b;
    } else {
      assert (a + b)[1..] == a[1..] + b;
      CountAppend(a[1..], b, sev);
    }
  }

  /**
   * The `high`, `medium` and `low` counts: they add up to the number of
   * findings, and each is positive exactly when its severity occurs.
   */
  function Summarize(vs: seq<Vulnerability>): (s: Summary)
    ensures s.high + s.medium + s.low == |vs|
    ensures s.high > 0 <==> exists i :: 0 <= i < |vs| && vs[i].severity == High
    ensures s.medium > 0 <==> exists i :: 0 <= i < |vs| && vs[i].severity == Medium
    ensures s.low > 0 <==> exists i :: 0 <= i < |vs| && vs[i].severity == Low
  {
    CountTotal(vs);
    CountPositive(vs, High);
    CountPositive(vs, Medium);
    CountPositive(vs, Low);
    Summary(Count(vs, High), Count(vs, Medium), Count(vs, Low))
  }

  /**
   * The summary is additive, and one finding counts once under its own
   * severity: together these fix every count of every list.
   */
  lemma SummarizeAppend(a: seq<Vulnerability>, b: seq<Vulnerability>)
    ensures Summarize(a + b) == Summary(
              Summarize(a).high + Summarize(b).high,
              Summarize(a).medium + Summarize(b).medium,
              Summarize(a).low + Summarize(b).low)
  {
    CountAppend(a, b, High);
    CountAppend(a, b, Medium);
    CountAppend(a, b, Low);
  }

  /** One finding is counted once, under its own severity. */
  lemma SummarizeOne(v: Vulnerability)
    ensures Summarize([v]).high == (if v.severity == High then 1 else 0)
    ensures Summarize([v]).medium == (if v.severity == Medium then 1 else 0)
    ensures Summarize([v]).low == (if v.severity == Low then 1 else 0)
  {
  }

  /** The penalty points: 15 per high, 7 per medium, 2 per low. */
  function Penalty(s: Summary): nat {
    s.high * 15 + s.medium * 7 + s.low * 2
  }

  /** `Math.max(0, 100 - (high * 15 + medium * 7 + low * 2))`. */
  function Score(s: Summary): (score: int)
    ensures 0 <= score <= 100
    ensures score == 100 <==> s.high == 0 && s.medium == 0 && s.low == 0
    ensures Penalty(s) < 100 ==> score == 100 - Penalty(s)
    ensures Penalty(s) >= 100 ==> score == 0
  {
    var raw := 100 - Penalty(s);
    if raw > 0 then raw else 0
  }

  /** High wins over medium, medium over low. */
  function Risk(s: Summary): (r: RiskLevel)
    ensures r == HighRisk <==> s.high > 0
    ensures r == MediumRisk <==> s.high == 0 && s.medium > 0
    ensures r == LowRisk <==> s.high == 0 && s.medium == 0
  {
    if s.high > 0 then HighRisk
    else if s.medium > 0 then MediumRisk
    else LowRisk
  }

  /** The score of a list of vulnerabilities is 100 exactly when the list is empty. */
  lemma {:induction false} ScoreFullIffNoFindings(vs: seq<Vulnerability>)
    ensures Score(Summarize(vs)) == 100 <==> vs == []
  {
    if vs == [] {
      assert Summarize(vs) == Summary(0, 0, 0);
    } else {
      assert Summarize(vs) != Summary(0, 0, 0);
    }
  }

  /** One more finding never raises the score, and lowers it unless it is already 0. */
  lemma {:induction false} ScoreMonotone(vs: seq<Vulnerability>, v: Vulnerability)
    ensures Score(Summarize([v] + vs)) <= Score(Summarize(vs))
    ensures Score(Summarize(vs)) > 0 ==> Score(Summarize([v] + vs)) < Score(Summarize(vs))
  {
    assert ([v] + vs)[1..] == vs;
  }

  /** The risk level is the worst severity present. */
  lemma {:induction false} RiskIsWorstSeverity(vs: seq<Vulnerability>)
    ensures Risk(Summarize(vs)) == HighRisk <==> exists i :: 0 <= i < |vs| && vs[i].severity == High
    ensures Risk(Summarize(vs)) == MediumRisk <==>
      (forall i :: 0 <= i < |vs| ==> vs[i].severity != High) &&
      (exists i :: 0 <= i < |vs| && vs[i].severity == Medium)
    ensures Risk(Summarize(vs)) == LowRisk <==> forall i :: 0 <= i < |vs| ==> vs[i].severity == Low
  {
  }

  /** With at most seven findings, a low-risk report scores at least 86 and a high-risk one at most 85. */
  lemma {:induction false} RiskBoundsScore(vs: seq<Vulnerability>)
    requires |vs| <= 7
    ensures Risk(Summarize(vs)) == LowRisk ==> Score(Summarize(vs)) >= 86
    ensures Risk(Summarize(vs)) == HighRisk ==> Score(Summarize(vs)) <= 85
  {
  }

  /** A single low-severity finding scores 98 at low risk. */
  lemma SingleLowFinding(v: Vulnerability)
    requires v.severity == Low
    ensures Summarize([v]) == Summary(0, 0, 1)
    ensures Score(Summarize([v])) == 98 && Risk(Summarize([v])) == LowRisk
  {
    assert [v][1..] == [];
  }

  /** Two high findings and a medium one are summarised as (2, 1, 0) and score 100 - 37 = 63, at high risk. */
  lemma TwoHighOneMedium(h1: Vulnerability, h2: Vulnerability, m: Vulnerability)
    requires h1.severity == High && h2.severity == High && m.severity == Medium
    ensures Summarize([h1, h2, m]) == Summary(2, 1, 0)
    ensures Score(Summarize([h1, h2, m])) == 63 && Risk(Summarize([h1, h2, m])) == HighRisk
  {
    SummarizeOne(h1);
    SummarizeOne(h2);
    SummarizeOne(m);
    SummarizeAppend([h1], [h2]);
    assert [h1] + [h2] == [h1, h2];
    SummarizeAppend([h1, h2], [m]);
    assert [h1, h2] + [m] == [h1, h2, m];
  }
}
