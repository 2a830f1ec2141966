/** Real-number helpers shared by sizing, settlement and the calibration metrics. */
module Reals {

  function Abs(x: real): (r: real)
    ensures r >= 0.0
  {
    if x < 0.0 then -x else x
  }

  function MinReal(x: real, y: real): real {
    if x < y then x else y
  }

  function MinInt(x: int, y: int): int {
    if x < y then x else y
  }

  /** `math.Round`: nearest integer, halves away from zero. */
  function Round(x: real): int {
    if x >= 0.0 then (x + 0.5).Floor else -((0.5 - x).Floor)
  }

  /** Rounding is to a nearest integer, it never crosses an integer bound, and an exact half moves away from zero. */
  lemma RoundIsNearest(x: real)
    ensures Abs(Round(x) as real - x) <= 0.5
    ensures Abs(Round(x) as real - x) == 0.5 ==> Abs(Round(x) as real) > Abs(x)
    ensures forall k: int {:trigger k as real} :: x <= k as real ==> Round(x) <= k
    ensures forall k: int {:trigger k as real} :: k as real <= x ==> k <= Round(x)
  {
  }

  lemma RoundMonotone(x: real, y: real)
    requires x <= y
    ensures Round(x) <= Round(y)
  {
  }

  lemma ProductMonotone(c: real, x: real, y: real)
    requires c >= 0.0 && x <= y
    ensures c * x <= c * y
  {
  }

  lemma IntProductMonotone(c: int, x: int, y: int)
    requires c >= 0 && x <= y
    ensures c * x <= c * y
  {
  }

  lemma QuotientMonotone(x: real, y: real, n: real)
    requires n > 0.0 && x <= y
    ensures x / n <= y / n
  {
  }

  lemma ProductPositive(x: real, y: real)
    requires x > 0.0 && y > 0.0
    ensures x * y > 0.0
  {
  }

  lemma ProductNonNegative(x: real, y: real)
    requires x >= 0.0 && y >= 0.0
    ensures x * y >= 0.0
  {
  }

  lemma SquareNonNegative(x: real)
    ensures x * x >= 0.0
  {
  }

  lemma ReciprocalAntitone(c: real, x: real, y: real)
    requires c >= 0.0 && 0.0 < x <= y
    ensures c / y <= c / x
  {
    var p, q := c / x, c / y;
    assert p * x == c && q * y == c;
    if q > p {
      ProductPositive(q - p, y);
      ProductMonotone(p, x, y);
    }
  }

  lemma SquareMonotone(x: real, y: real)
    requires 0.0 <= x <= y
    ensures x * x <= y * y
  {
    ProductMonotone(x, x, y);
    ProductMonotone(y, x, y);
  }

  lemma SquareReflects(x: real, y: real)
    requires x * x <= y * y && y >= 0.0
    ensures x <= y
  {
    assert (x - y) * (x + y) == x * x - y * y;
    if x > y {
      ProductPositive(x - y, x + y);
    }
  }
}
