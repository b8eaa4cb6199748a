/**
 * The seeded generator of the page script (class SeededRandom): a string
 * hash that seeds an integer state, and a linear congruential generator
 * that advances it.
 */
module SeededRandom {
  import opened Int32

  /** A UTF-16 code unit, the value `String.prototype.charCodeAt` returns. */
  type CodeUnit = c: int | 0 <= c < 0x1_0000

  const Multiplier: nat := 9301
  const Increment: nat := 49297
  const Modulus: nat := 233280

  /** A multiplicative inverse of Multiplier modulo Modulus. */
  const InverseMultiplier: nat := 123901

  // ---------------------------------------------------------------------
  // Hash
  // ---------------------------------------------------------------------

  /** The polynomial `31^(n-1)*s[0] + ... + 31*s[n-2] + s[n-1]` in unbounded integers. */
  function Fold31(s: seq<CodeUnit>): int
    decreases |s|
  {
    if |s| == 0 then 0 else 31 * Fold31(s[..|s| - 1]) + s[|s| - 1]
  }

  function Abs(x: int): (r: nat)
    ensures r == x || r == -x
  {
    if x < 0 then -x else x
  }

  /**
   * Reference definition of the seed hash: the polynomial fold, wrapped once
   * to a signed 32-bit integer, then made non-negative. The bound is 2^31
   * and not 2^31 - 1, because the absolute value of -2^31 is 2^31.
   */
  function HashSpec(s: seq<CodeUnit>): (r: nat)
    ensures r <= TwoTo31
    ensures (r - Fold31(s)) % TwoTo32 == 0 || (r + Fold31(s)) % TwoTo32 == 0
  {
    Abs(ToInt32(Fold31(s)))
  }

  /** `h << 5` on a JavaScript number: both operand and result pass through ToInt32. */
  function ShiftLeft5(h: int): (r: int)
    ensures InRange(r)
    ensures InRange(h) ==> (r - 32 * h) % TwoTo32 == 0
  {
    var operand := ToInt32(h);
    assert InRange(h) ==> operand == h by {
      if InRange(h) {
        ToInt32Identity(h);
      }
    }
    ToInt32(operand * 32)
  }

  /**
   * One iteration of the hash loop as the script writes it:
   * `((hash << 5) - hash) + code`, then `hash & hash`, which is ToInt32 of its operand.
   * The subtraction and addition are exact in double precision, since every
   * operand is below 2^33 in magnitude.
   */
  function HashStep(h: int, c: CodeUnit): (r: int)
    requires InRange(h)
    ensures r == ToInt32(31 * h + c)
  {
    ToInt32Identity(h);
    var shifted := ToInt32(h * 32);
    var k := (h * 32 - shifted) / TwoTo32;
    assert (shifted - h + c) - (31 * h + c) == -k * TwoTo32;
    ToInt32Congruent(shifted - h + c, 31 * h + c);
    ToInt32(ShiftLeft5(h) - h + c)
  }

  /** Wrapping after every step agrees with wrapping once at the end. */
  lemma WrapEachStep(f: int, c: CodeUnit)
    ensures ToInt32(31 * ToInt32(f) + c) == ToInt32(31 * f + c)
  {
    var k := (f - ToInt32(f)) / TwoTo32;
    assert (31 * ToInt32(f) + c) - (31 * f + c) == (-31 * k) * TwoTo32;
    ToInt32Congruent(31 * ToInt32(f) + c, 31 * f + c);
  }

  /** `hashCode(str)`: the loop of the script, with 32-bit wrap after every step. */
  method HashCode(s: seq<CodeUnit>) returns (h: nat)
    ensures h == HashSpec(s)
    ensures h <= TwoTo31
  {
    var hash := 0;
    var i := 0;
    while i < |s|
      invariant 0 <= i <= |s|
      invariant hash == ToInt32(Fold31(s[..i]))
    {
      assert s[..i + 1][..i] == s[..i];
      WrapEachStep(Fold31(s[..i]), s[i]);
      hash := HashStep(hash, s[i]);
      i := i + 1;
    }
    assert s[..|s|] == s;
    h := Abs(hash);
  }

  /** The bound 2^31 is attained: this five-unit seed folds to exactly 2^31. */
  lemma HashAttainsTwoTo31()
    ensures HashSpec([2325, 9, 30, 12, 2]) == TwoTo31
  {
    var s1: seq<CodeUnit> := [2325];
    var s2: seq<CodeUnit> := s1 + [9];
    var s3: seq<CodeUnit> := s2 + [30];
    var s4: seq<CodeUnit> := s3 + [12];
    var s5: seq<CodeUnit> := s4 + [2];
    assert s1[..0] == [];
    assert Fold31(s1) == 2325;
    assert s2[..1] == s1;
    assert Fold31(s2) == 72084;
    assert s3[..2] == s2;
    assert Fold31(s3) == 2234634;
    assert s4[..3] == s3;
    assert Fold31(s4) == 69273666;
    assert s5[..4] == s4;
    assert Fold31(s5) == TwoTo31;
    assert s5 == [2325, 9, 30, 12, 2];
  }

  // ---------------------------------------------------------------------
  // Linear congruential generator
  // ---------------------------------------------------------------------

  /** The state after one `random()` call. The state is never negative, so JavaScript's `%` agrees with Euclidean `%`. */
  function Next(s: nat): (t: nat)
    ensures t < Modulus
  {
    (s * Multiplier + Increment) % Modulus
  }

  /** The step backwards: the state that `Next` maps to `t`. */
  function Prev(t: nat): (s: nat)
    ensures s < Modulus
  {
    ((t - Increment) * InverseMultiplier) % Modulus
  }

  lemma MulNonNegative(a: int, b: int)
    requires a >= 0 && b >= 0
    ensures a * b >= 0
  {
  }

  lemma MulAwayFromZero(n: int, m: int)
    requires m > 0
    ensures n > 0 ==> n * m >= m
    ensures n < 0 ==> n * m <= -m
  {
    if n > 0 {
      MulNonNegative(n - 1, m);
      assert n * m == (n - 1) * m + m;
    } else if n < 0 {
      MulNonNegative(-n - 1, m);
      assert n * m == -((-n - 1) * m) - m;
    }
  }

  /** The remainder is determined by any quotient-remainder decomposition. */
  lemma ModUnique(y: int, a: int, r: int, m: int)
    requires m > 0
    requires 0 <= r < m
    requires y == a * m + r
    ensures y % m == r
  {
    var d := y / m;
    assert y == d * m + y % m;
    assert (a - d) * m == y % m - r;
    MulAwayFromZero(a - d, m);
  }

  lemma ModAddMultiple(x: int, k: int, m: int)
    requires m > 0
    ensures (x + k * m) % m == x % m
  {
    var q, r := x / m, x % m;
    assert x == q * m + r;
    assert x + k * m == (q + k) * m + r;
    ModUnique(x + k * m, q + k, r, m);
  }

  /** `Prev` undoes `Next` on every state, up to the residue modulo Modulus. */
  lemma PrevNext(s: nat)
    ensures Prev(Next(s)) == s % Modulus
  {
    var q := (s * Multiplier + Increment) / Modulus;
    assert Next(s) == s * Multiplier + Increment - q * Modulus;
    assert Multiplier * InverseMultiplier == 1 + 4940 * Modulus;
    calc {
      (Next(s) - Increment) * InverseMultiplier;
      (s * Multiplier - q * Modulus) * InverseMultiplier;
      s * (Multiplier * InverseMultiplier) - q * InverseMultiplier * Modulus;
      s + (4940 * s - q * InverseMultiplier) * Modulus;
    }
    ModAddMultiple(s, 4940 * s - q * InverseMultiplier, Modulus);
  }

  /** `Next` undoes `Prev`: every state below Modulus has exactly one predecessor there. */
  lemma NextPrev(t: nat)
    requires t < Modulus
    ensures Next(Prev(t)) == t
  {
    var p := (t - Increment) * InverseMultiplier;
    var q := p / Modulus;
    assert Prev(t) == p - q * Modulus;
    assert Multiplier * InverseMultiplier == 1 + 4940 * Modulus;
    calc {
      Prev(t) * Multiplier + Increment;
      (p - q * Modulus) * Multiplier + Increment;
      (t - Increment) * (InverseMultiplier * Multiplier) - q * Multiplier * Modulus + Increment;
      t + ((t - Increment) * 4940 - q * Multiplier) * Modulus;
    }
    ModAddMultiple(t, (t - Increment) * 4940 - q * Multiplier, Modulus);
  }

  /** The generator sees only the residue of its state: a hash-sized seed acts like its residue. */
  lemma NextResidue(s: nat)
    ensures Next(s) == Next(s % Modulus)
  {
    var q := s / Modulus;
    assert s * Multiplier + Increment == (s % Modulus) * Multiplier + Increment + (q * Multiplier) * Modulus;
    ModAddMultiple((s % Modulus) * Multiplier + Increment, q * Multiplier, Modulus);
  }

  /** The state after `n` calls of `random()`. */
  function Advance(s: nat, n: nat): nat
    decreases n
  {
    if n == 0 then s else Next(Advance(s, n - 1))
  }

  /** Drawing `a` then `b` values is drawing `a + b` values. */
  lemma {:induction false} AdvanceAdd(s: nat, a: nat, b: nat)
    ensures Advance(Advance(s, a), b) == Advance(s, a + b)
    decreases b
  {
    if b > 0 {
      AdvanceAdd(s, a, b - 1);
    }
  }

  /** The value `t / 233280` returned for state `t`, as an exact rational. */
  function Unit(t: nat): real {
    t as real / Modulus as real
  }

  /** The value returned by one call and the state it leaves behind. */
  datatype Draw = Draw(value: real, state: nat)

  /** `random()`: advance the state and return it scaled into [0, 1). */
  function Random(s: nat): (d: Draw)
    ensures d.state == Advance(s, 1)
    ensures d.state < Modulus
    ensures 0.0 <= d.value < 1.0
    ensures d.value * Modulus as real == d.state as real
  {
    var t := Next(s);
    Draw(Unit(t), t)
  }

  /** Each call continues from the state the previous one left: the k-th value is that of `Advance(s, k)`. */
  lemma DrawsInSequence(s: nat, k: nat)
    ensures Random(Advance(s, k)).state == Advance(s, k + 1)
    ensures Random(Advance(s, k)).value == Unit(Advance(s, k + 1))
  {
  }

  /** `floor(value * k)` for the value of state `t` is the integer quotient `(k * t) div Modulus`. */
  lemma ScaledFloor(t: nat, k: nat)
    ensures (Unit(t) * k as real).Floor == (k * t) / Modulus
    ensures t < Modulus && k > 0 ==> 0 <= (k * t) / Modulus < k
  {
    var q, r := (k * t) / Modulus, (k * t) % Modulus;
    assert k * t == q * Modulus + r;
    if t < Modulus && k > 0 {
      assert k * t < k * Modulus;
      assert (q - k) * Modulus < 0;
      MulAwayFromZero(q - k, Modulus);
    }
    assert Unit(t) * k as real == (k * t) as real / Modulus as real;
    assert (k * t) as real / Modulus as real == q as real + r as real / Modulus as real;
    assert 0.0 <= r as real / Modulus as real < 1.0;
  }
}
