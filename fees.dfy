/**
 * The platform fee of `config/StripeFeeConfig.java`: a configured percentage
 * of a transaction amount in cents, rounded to a whole number of cents with
 * `Math.round`. The percentage is a `double` in the source; here it is the
 * exact rational `num / den`.
 */
module Fees {
  import opened Common

  /** An exact percentage `num / den` (5.0 is `Percentage(5, 1)`). */
  datatype Percentage = Percentage(num: int, den: int) {
    predicate Valid() { den > 0 }
    predicate InZeroToHundred() { Valid() && 0 <= num <= 100 * den }
  }

  /** `stripe.platform.fee_percentage` when the property is not set. */
  const DEFAULT_FEE_PERCENTAGE: Percentage := Percentage(5, 1)

  /** `q` is the integer nearest to `n / d`, a tie going to the larger integer. */
  ghost predicate NearestTiesUp(n: int, d: int, q: int)
    requires d > 0
  {
    2 * (q * d - n) <= d && 2 * (n - q * d) < d
  }

  /** floor(n / d + 1/2), the value `Math.round` computes when no bound is hit. */
  function RoundNearestTiesUp(n: int, d: int): (q: int)
    requires d > 0
    ensures NearestTiesUp(n, d, q)
  {
    var m := 2 * n + d;
    var q := m / (2 * d);
    assert m == (2 * d) * q + m % (2 * d);
    q
  }

  /** There is one nearest integer (ties up), so the rounding is determined. */
  lemma NearestTiesUpUnique(n: int, d: int, q1: int, q2: int)
    requires d > 0 && NearestTiesUp(n, d, q1) && NearestTiesUp(n, d, q2)
    ensures q1 == q2
  {
    if q1 < q2 {
      MulLeq(q1 + 1, q2, d);
    } else if q2 < q1 {
      MulLeq(q2 + 1, q1, d);
    }
  }

  /** Rounding to nearest preserves the order of the values rounded. */
  lemma RoundMonotone(n1: int, n2: int, d: int)
    requires d > 0 && n1 <= n2
    ensures RoundNearestTiesUp(n1, d) <= RoundNearestTiesUp(n2, d)
  {
    var q1, q2 := RoundNearestTiesUp(n1, d), RoundNearestTiesUp(n2, d);
    if q1 > q2 {
      MulLeq(q2 + 1, q1, d);
    }
  }

  /** `Math.round` clamps a result beyond the `long` range to the nearest bound. */
  function Saturate(q: int): (r: Long)
    ensures LONG_MIN <= q <= LONG_MAX ==> r == q
    ensures q > LONG_MAX ==> r == LONG_MAX
    ensures q < LONG_MIN ==> r == LONG_MIN
  {
    if q > LONG_MAX then LONG_MAX else if q < LONG_MIN then LONG_MIN else q
  }

  /**
   * `Math.round(n / d)` computed exactly: the nearest integer, ties up,
   * when the quotient lies within the `long` range, and the nearer bound
   * beyond it.
   */
  function MathRound(n: int, d: int): (r: Long)
    requires d > 0
    ensures LONG_MIN * d <= n <= LONG_MAX * d ==> NearestTiesUp(n, d, r)
    ensures n >= LONG_MAX * d ==> r == LONG_MAX
    ensures n <= LONG_MIN * d ==> r == LONG_MIN
  {
    RoundAgainstLongBounds(n, d);
    Saturate(RoundNearestTiesUp(n, d))
  }

  /** Where the rounded quotient falls relative to the `long` bounds. */
  lemma RoundAgainstLongBounds(n: int, d: int)
    requires d > 0
    ensures LONG_MIN * d <= n <= LONG_MAX * d ==> LONG_MIN <= RoundNearestTiesUp(n, d) <= LONG_MAX
    ensures n >= LONG_MAX * d ==> RoundNearestTiesUp(n, d) >= LONG_MAX
    ensures n <= LONG_MIN * d ==> RoundNearestTiesUp(n, d) <= LONG_MIN
  {
    if LONG_MIN * d <= n <= LONG_MAX * d {
      RoundBetween(n, d, LONG_MIN, LONG_MAX);
    }
    if n >= LONG_MAX * d {
      RoundMonotone(LONG_MAX * d, n, d);
      RoundOfMultiple(LONG_MAX, d);
    }
    if n <= LONG_MIN * d {
      RoundMonotone(n, LONG_MIN * d, d);
      RoundOfMultiple(LONG_MIN, d);
    }
  }

  datatype StripeFeeConfig = StripeFeeConfig(platformFeePercentage: Percentage) {
    predicate Valid() { platformFeePercentage.Valid() }

    function GetPlatformFeePercentage(): Percentage {
      platformFeePercentage
    }

    /**
     * `calculateFeeAmount`: `Math.round(amount * (pct / 100))`. For a
     * percentage between 0 and 100 the fee is the integer nearest to
     * amount * pct / 100, half a cent rounding up.
     */
    function CalculateFeeAmount(amount: Long): (fee: Long)
      requires Valid()
      ensures platformFeePercentage.InZeroToHundred() ==>
        NearestTiesUp(amount * platformFeePercentage.num, 100 * platformFeePercentage.den, fee)
    {
      var n, d := amount * platformFeePercentage.num, 100 * platformFeePercentage.den;
      if platformFeePercentage.InZeroToHundred() then
        FeeRoundStaysInRange(amount, platformFeePercentage);
        MathRound(n, d)
      else
        MathRound(n, d)
    }
  }

  /** The configuration the service runs with when nothing overrides the default. */
  function DefaultFeeConfig(): (c: StripeFeeConfig)
    ensures c.Valid() && c.GetPlatformFeePercentage() == Percentage(5, 1)
  {
    StripeFeeConfig(DEFAULT_FEE_PERCENTAGE)
  }

  /** Rounding an exact multiple of `d` gives the multiplier back. */
  lemma RoundOfMultiple(k: int, d: int)
    requires d > 0
    ensures RoundNearestTiesUp(k * d, d) == k
  {
    NearestTiesUpUnique(k * d, d, RoundNearestTiesUp(k * d, d), k);
  }

  /** A value between `lo` and `hi` rounds to an integer between `lo` and `hi`. */
  lemma RoundBetween(n: int, d: int, lo: int, hi: int)
    requires d > 0 && lo * d <= n <= hi * d
    ensures lo <= RoundNearestTiesUp(n, d) <= hi
  {
    RoundMonotone(lo * d, n, d);
    RoundMonotone(n, hi * d, d);
    RoundOfMultiple(lo, d);
    RoundOfMultiple(hi, d);
  }

  /** amount * pct / 100 lies between 0 and amount when 0 <= pct <= 100. */
  lemma ScaledBetween(amount: int, p: Percentage)
    requires p.InZeroToHundred()
    ensures amount >= 0 ==> 0 * (100 * p.den) <= amount * p.num <= amount * (100 * p.den)
    ensures amount < 0 ==> amount * (100 * p.den) <= amount * p.num <= 0 * (100 * p.den)
  {
    if amount >= 0 {
      MulLeq(p.num, 100 * p.den, amount);
      MulLeq(0, p.num, amount);
    } else {
      MulLeq(p.num, 100 * p.den, -amount);
      MulLeq(0, p.num, -amount);
    }
  }

  /** For a percentage in [0, 100] the rounded fee never reaches the bounds of `long`. */
  lemma FeeRoundStaysInRange(amount: Long, p: Percentage)
    requires p.InZeroToHundred()
    ensures LONG_MIN <= RoundNearestTiesUp(amount * p.num, 100 * p.den) <= LONG_MAX
  {
    ScaledBetween(amount, p);
    if amount >= 0 {
      RoundBetween(amount * p.num, 100 * p.den, 0, amount);
    } else {
      RoundBetween(amount * p.num, 100 * p.den, amount, 0);
    }
  }

  /** No amount, no fee. */
  lemma FeeOfZero(c: StripeFeeConfig)
    requires c.Valid()
    ensures c.CalculateFeeAmount(0) == 0
  {
    var d := 100 * c.platformFeePercentage.den;
    assert 0 * c.platformFeePercentage.num == 0;
    var q := RoundNearestTiesUp(0, d);
    if q > 0 { MulLeq(1, q, d); }
    if q < 0 { MulLeq(q + 1, 0, d); }
  }

  /** A non-negative amount at a non-negative percentage has a non-negative fee. */
  lemma FeeNonNegative(c: StripeFeeConfig, amount: Long)
    requires c.Valid() && c.platformFeePercentage.num >= 0 && amount >= 0
    ensures c.CalculateFeeAmount(amount) >= 0
  {
    var n, d := amount * c.platformFeePercentage.num, 100 * c.platformFeePercentage.den;
    MulLeq(0, c.platformFeePercentage.num, amount);
    RoundMonotone(0, n, d);
    FeeOfZero(c);
  }

  /** Up to 100 %, the platform never takes more than the amount. */
  lemma FeeAtMostAmount(c: StripeFeeConfig, amount: Long)
    requires c.platformFeePercentage.InZeroToHundred() && amount >= 0
    ensures 0 <= c.CalculateFeeAmount(amount) <= amount
  {
    FeeNonNegative(c, amount);
    var p := c.platformFeePercentage;
    var n, d := amount * p.num, 100 * p.den;
    var q := c.CalculateFeeAmount(amount);
    MulLeq(p.num, 100 * p.den, amount);
    if q > amount { MulLeq(amount + 1, q, d); }
  }

  /** A larger amount never has a smaller fee. */
  lemma FeeMonotone(c: StripeFeeConfig, a1: Long, a2: Long)
    requires c.Valid() && c.platformFeePercentage.num >= 0 && a1 <= a2
    ensures c.CalculateFeeAmount(a1) <= c.CalculateFeeAmount(a2)
  {
    var p := c.platformFeePercentage;
    MulLeq(a1, a2, p.num);
    RoundMonotone(a1 * p.num, a2 * p.num, 100 * p.den);
  }

  /** At the default 5 %: 1000 cents pay 50, and 999 cents (49.95) also pay 50. */
  lemma DefaultFeeExamples()
    ensures DefaultFeeConfig().CalculateFeeAmount(1000) == 50
    ensures DefaultFeeConfig().CalculateFeeAmount(999) == 50
    ensures DefaultFeeConfig().CalculateFeeAmount(10000) == 500
  {
    var c := DefaultFeeConfig();
    NearestTiesUpUnique(5000, 100, c.CalculateFeeAmount(1000), 50);
    NearestTiesUpUnique(4995, 100, c.CalculateFeeAmount(999), 50);
    NearestTiesUpUnique(50000, 100, c.CalculateFeeAmount(10000), 500);
  }
}
