/** The signed 64-bit arithmetic used by the clock: the saturating operations of
    Rust's `i64`, plain subtraction as two's-complement wrap-around, and division
    that truncates toward zero. */
module Int64 {
  const MIN: int := -0x8000_0000_0000_0000
  const MAX: int := 0x7FFF_FFFF_FFFF_FFFF
  const MODULUS: int := 0x1_0000_0000_0000_0000

  predicate InRange(x: int) {
    MIN <= x <= MAX
  }

  function Saturate(x: int): int {
    if x < MIN then MIN else if x > MAX then MAX else x
  }

  function SatAdd(a: int, b: int): int {
    Saturate(a + b)
  }

  function SatSub(a: int, b: int): int {
    Saturate(a - b)
  }

  function SatMul(a: int, b: int): int {
    Saturate(a * b)
  }

  /** `a - b` on operands in range, wrapping once on overflow. */
  function WrapSub(a: int, b: int): int {
    if a - b > MAX then a - b - MODULUS
    else if a - b < MIN then a - b + MODULUS
    else a - b
  }

  /** Division by a positive number that rounds toward zero. */
  function TruncDiv(a: int, b: int): int
    requires b > 0
  {
    if a >= 0 then a / b else -((-a) / b)
  }

  /** `abs_i64`: the absolute value, with `-MIN` mapped to `MAX`. */
  function Abs(v: int): int {
    if v < 0 then Min(-v, MAX) else v
  }

  function Min(a: int, b: int): int {
    if a <= b then a else b
  }

  function Max(a: int, b: int): int {
    if a >= b then a else b
  }

  /** The nearest value in range to the exact one, and there is only one. */
  ghost predicate Nearest(r: int, exact: int) {
    InRange(r) && forall y :: InRange(y) && y != r ==> Magnitude(r - exact) < Magnitude(y - exact)
  }

  function Magnitude(x: int): nat {
    if x < 0 then -x else x
  }

  /** Saturating operations return the nearest `i64` to the exact result. */
  lemma SaturatingIsNearest(a: int, b: int)
    ensures Nearest(SatAdd(a, b), a + b)
    ensures Nearest(SatSub(a, b), a - b)
    ensures Nearest(SatMul(a, b), a * b)
  {
  }

  lemma AbsIsMagnitude(v: int)
    requires InRange(v)
    ensures Abs(v) == if v == MIN then MAX else Magnitude(v)
  {
  }

  /** Plain subtraction is right modulo 2^64. */
  lemma WrapSubIsModular(a: int, b: int)
    requires InRange(a) && InRange(b)
    ensures InRange(WrapSub(a, b)) && (WrapSub(a, b) - (a - b)) % MODULUS == 0
    ensures InRange(a - b) ==> WrapSub(a, b) == a - b
  {
  }

  /** Rounding toward zero: the remainder has the sign of the dividend. */
  lemma TruncDivRounds(a: int, b: int)
    requires b > 0
    ensures var r := a - TruncDiv(a, b) * b;
            Magnitude(r) < b && (a >= 0 ==> r >= 0) && (a <= 0 ==> r <= 0)
  {
    var m := Magnitude(a);
    assert m == m / b * b + m % b;
    if a < 0 {
      assert -(m / b) * b == -(m / b * b);
    }
  }

  lemma ProductMonotone(a: int, b: int, d: int)
    requires a <= b
    ensures d >= 0 ==> a * d <= b * d
    ensures d <= 0 ==> a * d >= b * d
  {
  }

  /** The quotient is pinned down by the interval it names. */
  lemma QuotientIs(x: int, p: int, k: int)
    requires p > 0
    requires k * p <= x < k * p + p
    ensures x / p == k
  {
    var q, r := x / p, x % p;
    assert x == q * p + r && 0 <= r < p;
    if q > k {
      ProductMonotone(k + 1, q, p);
    } else if q < k {
      ProductMonotone(q + 1, k, p);
    }
  }
}
