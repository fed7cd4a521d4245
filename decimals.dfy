/**
 * The part of `java.math.BigDecimal` the commission computation uses: a
 * decimal is an unscaled integer and a scale, its value unscaled / 10^scale.
 */
module Decimals {
  import opened Common

  datatype Decimal = Decimal(unscaled: int, scale: nat)

  function Pow10(n: nat): (p: int)
    ensures p >= 1
  {
    if n == 0 then 1 else 10 * Pow10(n - 1)
  }

  function Abs(x: int): nat { if x < 0 then -x else x }

  /**
   * `q` is `n / d` rounded to an integer with `RoundingMode.HALF_UP`: the
   * nearest integer, and on a tie the one farther from zero.
   */
  ghost predicate IsHalfUpRounding(n: int, d: int, q: int)
    requires d > 0
  {
    2 * Abs(n - q * d) < d || (2 * Abs(n - q * d) == d && Abs(q * d) > Abs(n))
  }

  /** HALF_UP division of `n` by a positive `d`. */
  function DivHalfUp(n: int, d: int): (q: int)
    requires d > 0
    ensures IsHalfUpRounding(n, d, q)
  {
    if n >= 0 then
      var m := 2 * n + d;
      var q := m / (2 * d);
      assert m == (2 * d) * q + m % (2 * d);
      assert q >= 0 by { if q < 0 { MulLeq(q + 1, 0, 2 * d); } }
      q
    else
      var m := 2 * (-n) + d;
      var q := m / (2 * d);
      assert m == (2 * d) * q + m % (2 * d);
      assert q >= 0 by { if q < 0 { MulLeq(q + 1, 0, 2 * d); } }
      -q
  }

  /** HALF_UP rounding has exactly one result. */
  lemma HalfUpUnique(n: int, d: int, q1: int, q2: int)
    requires d > 0 && IsHalfUpRounding(n, d, q1) && IsHalfUpRounding(n, d, q2)
    ensures q1 == q2
  {
    if q1 < q2 {
      HalfUpNoTwo(n, d, q1, q2);
    } else if q2 < q1 {
      HalfUpNoTwo(n, d, q2, q1);
    }
  }

  lemma HalfUpNoTwo(n: int, d: int, lo: int, hi: int)
    requires d > 0 && lo <= hi && IsHalfUpRounding(n, d, lo) && IsHalfUpRounding(n, d, hi)
    ensures lo == hi
  {
    if lo == hi { return; }
    MulLeq(lo + 1, hi, d);
    assert (lo + 1) * d == lo * d + d;
    var e1, e2 := n - lo * d, n - hi * d;
    assert 2 * e1 == d && 2 * e2 == -d;
    if n >= 0 {
      assert lo * d < 0;
      if lo >= 0 { MulLeq(0, lo, d); }
      MulLeq(lo, -1, d);
    } else {
      assert hi * d > 0;
      if hi <= 0 { MulLeq(hi, 0, d); }
      MulLeq(1, hi, d);
    }
  }

  /** `a.multiply(b)`: exact, the scales add up. */
  function Multiply(a: Decimal, b: Decimal): (r: Decimal)
    ensures r.scale == a.scale + b.scale
    ensures r.unscaled == a.unscaled * b.unscaled
  {
    Decimal(a.unscaled * b.unscaled, a.scale + b.scale)
  }

  /**
   * `x.divide(divisor, scale, RoundingMode.HALF_UP)`: the exact quotient
   * x.u * 10^divisor.s / (divisor.u * 10^x.s), rounded HALF_UP to `scale`
   * decimal places.
   */
  function DivideHalfUp(x: Decimal, divisor: Decimal, scale: nat): (r: Decimal)
    requires divisor.unscaled > 0
    ensures r.scale == scale
    ensures IsHalfUpRounding(x.unscaled * Pow10(divisor.scale + scale),
                             divisor.unscaled * Pow10(x.scale), r.unscaled)
  {
    MulPositive(divisor.unscaled, Pow10(x.scale));
    Decimal(DivHalfUp(x.unscaled * Pow10(divisor.scale + scale), divisor.unscaled * Pow10(x.scale)), scale)
  }

  lemma MulPositive(a: int, b: int)
    requires a > 0 && b > 0
    ensures a * b > 0
  {
  }

  /** Truncating division: the quotient rounded toward zero. */
  function DivTowardZero(n: int, d: int): (q: int)
    requires d > 0
    ensures n >= 0 ==> 0 <= q * d <= n < q * d + d
    ensures n < 0 ==> q * d - d < n <= q * d <= 0
  {
    if n >= 0 then
      assert n == d * (n / d) + n % d;
      assert n / d >= 0 by { if n / d < 0 { MulLeq(n / d + 1, 0, d); } }
      n / d
    else
      assert -n == d * ((-n) / d) + (-n) % d;
      assert (-n) / d >= 0 by { if (-n) / d < 0 { MulLeq((-n) / d + 1, 0, d); } }
      -((-n) / d)
  }

  /**
   * `longValue()`: the fractional part is discarded and, when the integer
   * part does not fit, only its low-order 64 bits are kept.
   */
  function LongValue(x: Decimal): (r: Long)
    ensures LONG_MIN <= DivTowardZero(x.unscaled, Pow10(x.scale)) <= LONG_MAX ==>
      r == DivTowardZero(x.unscaled, Pow10(x.scale))
  {
    WrapLong(DivTowardZero(x.unscaled, Pow10(x.scale)))
  }

  lemma Pow10Add(a: nat, b: nat)
    ensures Pow10(a + b) == Pow10(a) * Pow10(b)
  {
    if a > 0 {
      Pow10Add(a - 1, b);
    }
  }
}
