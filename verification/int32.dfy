/**
 * Signed 32-bit integers as JavaScript's bitwise operators see them.
 * JavaScript numbers are doubles; the operators `<<` and `&` first apply
 * ToInt32, which reduces modulo 2^32 into [-2^31, 2^31).
 */
module Int32 {

  const TwoTo31: int := 0x8000_0000
  const TwoTo32: int := 0x1_0000_0000

  predicate InInt32(x: int) {
    -TwoTo31 <= x < TwoTo31
  }

  /** ECMAScript ToInt32 on an integral value: the unique int32 congruent to `x` modulo 2^32. */
  function Wrap32(x: int): (r: int)
    ensures InInt32(r)
    ensures (x - r) % TwoTo32 == 0
  {
    var m := x % TwoTo32;
    if m >= TwoTo31 then m - TwoTo32 else m
  }

  /** `x << 5`: ToInt32 of the operand, shifted, and ToInt32 of the result. */
  function ShiftLeft5(x: int): (r: int)
    ensures InInt32(r)
    ensures (r - 32 * x) % TwoTo32 == 0
  {
    var w := Wrap32(x);
    ScaleCongruent(x, w, Wrap32(w * 32));
    Wrap32(w * 32)
  }

  /** If `w` is congruent to `x` and `r` to `32 * w`, then `r` is congruent to `32 * x`. */
  lemma {:induction false} ScaleCongruent(x: int, w: int, r: int)
    requires (x - w) % TwoTo32 == 0
    requires (w * 32 - r) % TwoTo32 == 0
    ensures (r - 32 * x) % TwoTo32 == 0
  {
    var k := (x - w) / TwoTo32;
    var j := (w * 32 - r) / TwoTo32;
    assert x - w == k * TwoTo32;
    assert w * 32 - r == j * TwoTo32;
    assert r - 32 * x == (-j - 32 * k) * TwoTo32;
    ModShift(0, -j - 32 * k);
  }

  /** `x & x`: ToInt32 of both operands; a value anded with itself is itself. */
  function AndSelf(x: int): (r: int)
    ensures InInt32(r)
    ensures (x - r) % TwoTo32 == 0
  {
    Wrap32(x)
  }

  /** Two integers with the same residue modulo 2^32 wrap to the same int32. */
  lemma {:induction false} Wrap32Congruent(a: int, b: int)
    requires (a - b) % TwoTo32 == 0
    ensures Wrap32(a) == Wrap32(b)
  {
    var k := (a - b) / TwoTo32;
    assert a == b + k * TwoTo32;
    ModShift(b, k);
  }

  lemma {:induction false} ModShift(b: int, k: int)
    ensures (b + k * TwoTo32) % TwoTo32 == b % TwoTo32
  {
  }

  /** Values already in range are left unchanged. */
  lemma Wrap32Identity(x: int)
    requires InInt32(x)
    ensures Wrap32(x) == x
  {
  }
}
