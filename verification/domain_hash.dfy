/**
 * The domain hasher of `src/lib/scanner.ts` (`hashCode`): a left fold of
 * `h := wrap32(31 * h + c)` over the host name's UTF-16 code units, starting
 * from 0, followed by `Math.abs`. The result is the seed that drives every
 * deterministic choice of the synthetic report.
 */
module DomainHash {
  import opened Int32
  import opened Text

  /** The loop body as the source writes it: `(hash << 5) - hash + char`, then `hash & hash`. */
  function StepAsWritten(h: int, c: CodeUnit): (r: int)
    ensures InInt32(r)
  {
    AndSelf(ShiftLeft5(h) - h + c)
  }

  /** The reference step: multiply by 31, add the code unit, wrap to 32 bits. */
  function Step(h: int, c: CodeUnit): (r: int)
    ensures InInt32(r)
    ensures (31 * h + c - r) % TwoTo32 == 0
  {
    Wrap32(31 * h + c)
  }

  /** The shift-and-subtract form is exactly int32 wraparound of `31*h + c`. */
  lemma {:induction false} StepAsWrittenIsStep(h: int, c: CodeUnit)
    ensures StepAsWritten(h, c) == Step(h, c)
  {
    var s := ShiftLeft5(h);
    var k := (s - 32 * h) / TwoTo32;
    assert s == 32 * h + k * TwoTo32;
    assert (s - h + c) - (31 * h + c) == k * TwoTo32;
    ModShift(0, k);
    Wrap32Congruent(s - h + c, 31 * h + c);
  }

  /** The running accumulator after the given code units: a left fold of `Step` from 0. */
  function Fold(units: seq<CodeUnit>): (h: int)
    ensures InInt32(h)
    decreases |units|
  {
    if |units| == 0 then 0 else Step(Fold(units[..|units| - 1]), units[|units| - 1])
  }

  function Abs(x: int): (r: nat)
    ensures r == x || r == -x
  {
    if x < 0 then -x else x
  }

  /** The seed of a host name: `Math.abs` of the folded accumulator. */
  function Seed(host: string): (s: nat)
    ensures s <= TwoTo31
    ensures host == "" ==> s == 0
  {
    Abs(Fold(Utf16(host)))
  }

  /** Appending one code unit performs one more fold step. */
  lemma FoldSnoc(units: seq<CodeUnit>, c: CodeUnit)
    ensures Fold(units + [c]) == Step(Fold(units), c)
  {
    assert (units + [c])[..|units|] == units;
  }

  /** `hashCode` as written: a counted loop over `charCodeAt`, shifting, subtracting, and masking. */
  method HashCode(str: string) returns (hash: int)
    ensures 0 <= hash <= TwoTo31
    ensures hash == Seed(str)
  {
    var units := Utf16(str);
    hash := 0;
    var i := 0;
    while i < |units|
      invariant 0 <= i <= |units|
      invariant hash == Fold(units[..i])
    {
      var ch := units[i];
      StepAsWrittenIsStep(hash, ch);
      assert units[..i + 1] == units[..i] + [ch];
      FoldSnoc(units[..i], ch);
      hash := ShiftLeft5(hash) - hash + ch;
      hash := AndSelf(hash);
      i := i + 1;
    }
    assert units[..i] == units;
    hash := Abs(hash);
  }

  /** A fixed regression value: "example.com" hashes to 1944013059 (so 3 findings, 7 technologies, 5 ports). */
  lemma ExampleDotCom()
    ensures Seed("example.com") == 1944013059
    ensures SeedCounts(1944013059) == (3, 7, 5)
  {
    ExampleUnits();
    FoldOfExample(Utf16("example.com"));
  }

  /** The number of findings, technologies and ports a seed yields. */
  function SeedCounts(seed: nat): (nat, nat, nat) {
    (seed % 7 + 1, 3 + seed % 5, 2 + seed % 4)
  }

  /** The code units of "example.com", one ASCII character each. */
  predicate ExampleUnitsAre(u: seq<CodeUnit>) {
    && |u| == 11
    && u[0] == 101 && u[1] == 120 && u[2] == 97 && u[3] == 109
    && u[4] == 112 && u[5] == 108 && u[6] == 101 && u[7] == 46
    && u[8] == 99 && u[9] == 111 && u[10] == 109
  }

  lemma ExampleUnits()
    ensures ExampleUnitsAre(Utf16("example.com"))
  {
    var s := "example.com";
    assert s == ['e', 'x', 'a', 'm', 'p', 'l', 'e', '.', 'c', 'o', 'm'];
    assert forall i :: 0 <= i < |s| ==> s[i] as int < 0x80;
    Utf16OfBasicPlane(s);
    var u := Utf16(s);
    assert u[7] == s[7] as int && s[7] == '.' && '.' as int == 46;
    assert u[0] == 101 && u[1] == 120 && u[2] == 97 && u[3] == 109;
    assert u[4] == 112 && u[5] == 108 && u[6] == 101 && u[7] == 46;
    assert u[8] == 99 && u[9] == 111 && u[10] == 109;
  }

  /** One more code unit of the prefix is one more fold step. */
  lemma FoldStep(units: seq<CodeUnit>, k: nat, v: int)
    requires 1 <= k <= |units|
    requires Fold(units[..k - 1]) == v
    ensures Fold(units[..k]) == Step(v, units[k - 1])
  {
    assert units[..k][..k - 1] == units[..k - 1];
  }

  /** The eleven steps of the fold over "example.com", as plain arithmetic. */
  lemma ExampleStepsA()
    ensures Step(0, 101) == 101
    ensures Step(101, 120) == 3251
    ensures Step(3251, 97) == 100878
    ensures Step(100878, 109) == 3127327
    ensures Step(3127327, 112) == 96947249
    ensures Step(96947249, 108) == -1289602469
  {
  }

  lemma ExampleStepsB()
    ensures Step(-1289602469, 101) == -1322970774
    ensures Step(-1322970774, 46) == 1937579012
    ensures Step(1937579012, 99) == -64592673
    ensures Step(-64592673, 111) == -2002372752
    ensures Step(-2002372752, 109) == -1944013059
  {
  }

  lemma FoldOfExampleFirst(units: seq<CodeUnit>)
    requires ExampleUnitsAre(units)
    ensures Fold(units[..6]) == -1289602469
  {
    ExampleStepsA();
    FoldStep(units, 1, 0);
    FoldStep(units, 2, 101);
    FoldStep(units, 3, 3251);
    FoldStep(units, 4, 100878);
    FoldStep(units, 5, 3127327);
    FoldStep(units, 6, 96947249);
  }

  lemma FoldOfExample(units: seq<CodeUnit>)
    requires ExampleUnitsAre(units)
    ensures Fold(units) == -1944013059
  {
    FoldOfExampleFirst(units);
    ExampleStepsB();
    FoldStep(units, 7, -1289602469);
    FoldStep(units, 8, -1322970774);
    FoldStep(units, 9, 1937579012);
    FoldStep(units, 10, -64592673);
    FoldStep(units, 11, -2002372752);
    assert units[..11] == units;
  }
}
