/** American odds: prices, implied probabilities, winnings and the Kelly fraction. */
module Odds {
  import opened Wrappers
  import opened Reals

  /** Prices strictly between -100 and 100 do not exist. */
  predicate Valid(american: int) {
    american <= -100 || american >= 100
  }

  function AbsInt(x: int): int {
    if x < 0 then -x else x
  }

  function DecimalOf(american: int): (d: real)
    requires american != 0
  {
    if american >= 100 then 1.0 + american as real / 100.0 else 1.0 + 100.0 / AbsInt(american) as real
  }

  function ToDecimal(american: int): Result<real> {
    if Valid(american) then Ok(DecimalOf(american)) else Err("invalid american odds")
  }

  function ImpliedProbability(american: int): real
  {
    if american < 0 then AbsInt(american) as real / (AbsInt(american) as real + 100.0)
    else 100.0 / (american as real + 100.0)
  }

  /** Profit per unit staked, as settlement computes it. */
  function Multiplier(american: int): real
    requires american != 0
  {
    if american > 0 then american as real / 100.0 else 100.0 / AbsInt(american) as real
  }

  /** Profit in cents of a winning bet. */
  function Winnings(stakeCents: int, american: int): int
    requires american != 0
  {
    Round(stakeCents as real * Multiplier(american))
  }

  function Kelly(probability: real, decimal: real): real {
    var net := decimal - 1.0;
    if net <= 0.0 then 0.0 else (probability * decimal - 1.0) / net
  }

  // ---- what the formulas mean ----

  lemma DecimalAboveOne(american: int)
    requires Valid(american)
    ensures DecimalOf(american) > 1.0
    ensures american > 0 ==> DecimalOf(american) >= 2.0
    ensures american < 0 ==> DecimalOf(american) <= 2.0
  {
  }

  /** A larger American number is never a worse price. */
  lemma DecimalMonotone(a: int, b: int)
    requires Valid(a) && Valid(b) && a <= b
    ensures DecimalOf(a) <= DecimalOf(b)
  {
    DecimalAboveOne(a);
    DecimalAboveOne(b);
    if b < 0 {
      ReciprocalAntitone(100.0, AbsInt(b) as real, AbsInt(a) as real);
    }
  }

  /** The implied probability is the reciprocal of the decimal price. */
  lemma ImpliedIsReciprocal(american: int)
    requires Valid(american)
    ensures ImpliedProbability(american) * DecimalOf(american) == 1.0
    ensures 0.0 < ImpliedProbability(american) < 1.0
  {
    var n := AbsInt(american) as real;
    if american < 0 {
      assert DecimalOf(american) == (n + 100.0) / n;
      assert (n / (n + 100.0)) * ((n + 100.0) / n) == 1.0;
    } else {
      assert DecimalOf(american) == (n + 100.0) / 100.0;
      assert (100.0 / (n + 100.0)) * ((n + 100.0) / 100.0) == 1.0;
    }
  }

  /** Settlement and sizing price a bet alike. */
  lemma MultiplierIsNetPrice(american: int)
    requires Valid(american)
    ensures Multiplier(american) == DecimalOf(american) - 1.0 > 0.0
  {
  }

  /** Winnings are the nearest cent to stake times net price. */
  lemma WinningsNearest(stakeCents: int, american: int)
    requires Valid(american)
    ensures Abs(Winnings(stakeCents, american) as real - stakeCents as real * (DecimalOf(american) - 1.0)) <= 0.5
    ensures stakeCents >= 0 ==> Winnings(stakeCents, american) >= 0
  {
    MultiplierIsNetPrice(american);
    var x := stakeCents as real * Multiplier(american);
    RoundIsNearest(x);
    if stakeCents >= 0 {
      ProductNonNegative(stakeCents as real, Multiplier(american));
      RoundMonotone(0.0, x);
    }
  }

  /** A larger American number never pays less on the same stake. */
  lemma WinningsMonotone(stakeCents: int, a: int, b: int)
    requires Valid(a) && Valid(b) && a <= b && stakeCents >= 0
    ensures Winnings(stakeCents, a) <= Winnings(stakeCents, b)
  {
    DecimalMonotone(a, b);
    MultiplierIsNetPrice(a);
    MultiplierIsNetPrice(b);
    ProductMonotone(stakeCents as real, Multiplier(a), Multiplier(b));
    RoundMonotone(stakeCents as real * Multiplier(a), stakeCents as real * Multiplier(b));
  }

  lemma KellyForm(p: real, d: real)
    requires d > 1.0
    ensures Kelly(p, d) == p - (1.0 - p) / (d - 1.0)
    ensures Kelly(p, d) * (d - 1.0) == p * d - 1.0
  {
    var net := d - 1.0;
    assert p * d - 1.0 == p * net - (1.0 - p);
    assert (p * net) / net == p;
    assert (p * net - (1.0 - p)) / net == (p * net) / net - (1.0 - p) / net;
  }

  /** A better price never lowers the Kelly fraction. */
  lemma KellyMonotone(p: real, d: real, e: real)
    requires p <= 1.0 && 1.0 < d <= e
    ensures Kelly(p, d) <= Kelly(p, e)
  {
    KellyForm(p, d);
    KellyForm(p, e);
    ReciprocalAntitone(1.0 - p, d - 1.0, e - 1.0);
  }

  /** The raw fraction is below the win probability, and positive exactly when that probability beats the implied one. */
  lemma KellyPositiveIffEdge(p: real, american: int)
    requires 0.0 < p < 1.0 && Valid(american)
    ensures Kelly(p, DecimalOf(american)) < p
    ensures Kelly(p, DecimalOf(american)) > 0.0 <==> p > ImpliedProbability(american)
  {
    var d := DecimalOf(american);
    var q := ImpliedProbability(american);
    DecimalAboveOne(american);
    ImpliedIsReciprocal(american);
    KellyForm(p, d);
    assert (1.0 - p) / (d - 1.0) > 0.0;
    assert Kelly(p, d) * (d - 1.0) == (p - q) * d;
    SameSign(Kelly(p, d), d - 1.0, p - q, d);
  }

  lemma SameSign(x: real, u: real, y: real, v: real)
    requires u > 0.0 && v > 0.0 && x * u == y * v
    ensures x > 0.0 <==> y > 0.0
  {
    if x > 0.0 {
      ProductPositive(x, u);
      if y <= 0.0 { ProductNonNegative(-y, v); }
    } else {
      ProductNonNegative(-x, u);
      if y > 0.0 { ProductPositive(y, v); }
    }
  }
}
