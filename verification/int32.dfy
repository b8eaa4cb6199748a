/**
 * Two's-complement 32-bit wrap-around, the ToInt32 conversion that the
 * JavaScript bitwise operators apply to their operands and results.
 */
module Int32 {

  const TwoTo31: int := 0x8000_0000
  const TwoTo32: int := 0x1_0000_0000

  predicate InRange(x: int) {
    -TwoTo31 <= x < TwoTo31
  }

  /** The unique 32-bit signed integer congruent to `x` modulo 2^32. */
  function ToInt32(x: int): (r: int)
    ensures InRange(r)
    ensures (x - r) % TwoTo32 == 0
  {
    var m := x % TwoTo32;
    if m >= TwoTo31 then m - TwoTo32 else m
  }

  /** Two signed 32-bit integers that agree modulo 2^32 are equal. */
  lemma CongruentInRangeEqual(a: int, b: int)
    requires InRange(a) && InRange(b)
    requires (a - b) % TwoTo32 == 0
    ensures a == b
  {
    var k := (a - b) / TwoTo32;
    assert a - b == k * TwoTo32;
  }

  /** ToInt32 depends only on the residue modulo 2^32. */
  lemma ToInt32Congruent(x: int, y: int)
    requires (x - y) % TwoTo32 == 0
    ensures ToInt32(x) == ToInt32(y)
  {
    var rx, ry := ToInt32(x), ToInt32(y);
    var kx, ky, kd := (x - rx) / TwoTo32, (y - ry) / TwoTo32, (x - y) / TwoTo32;
    assert x - rx == kx * TwoTo32;
    assert y - ry == ky * TwoTo32;
    assert x - y == kd * TwoTo32;
    assert rx - ry == (kd - kx + ky) * TwoTo32;
    CongruentInRangeEqual(rx, ry);
  }

  /** A value already in the signed 32-bit range is left as it is. */
  lemma ToInt32Identity(x: int)
    requires InRange(x)
    ensures ToInt32(x) == x
  {
    CongruentInRangeEqual(ToInt32(x), x);
  }
}
