/** What the calibration report guarantees, whatever the rows and the bucket count. */
module CalibrationLaws {
  import opened Calibration
  import opened Reals
  import opened Grouping

  ghost function Errors(rows: seq<Row>): (xs: seq<real>)
    ensures |xs| == |rows|
  {
    seq(|rows|, i requires 0 <= i < |rows| => Error(rows[i]))
  }

  ghost function SettledMask(rows: seq<Row>): (mask: seq<bool>)
    ensures |mask| == |rows|
  {
    seq(|rows|, i requires 0 <= i < |rows| => Settles(rows[i]))
  }

  // ---- one tally ----

  lemma {:induction false} TallyDifference(rows: seq<Row>, groups: seq<int>, b: int)
    requires |rows| == |groups|
    ensures TallyOf(rows, groups, b).observed - TallyOf(rows, groups, b).expected == GroupSum(Errors(rows), groups, b)
  {
    if rows != [] {
      var n := |rows| - 1;
      assert Errors(rows)[..n] == Errors(rows[..n]);
      TallyDifference(rows[..n], groups[..n], b);
    }
  }

  ghost predicate Bounded(t: Tally) {
    var m := t.settled as real;
    && 0.0 <= t.observed <= m && 0.0 <= t.expected <= m && 0.0 <= t.brier <= m
    && MissWithin(m, t.observed - t.expected, t.brier)
  }

  lemma UnitSquare(e: real)
    requires -1.0 <= e <= 1.0
    ensures 0.0 <= e * e <= 1.0
  {
    SquareMonotone(Abs(e), 1.0);
    assert Abs(e) * Abs(e) == e * e;
  }

  lemma MissStep(m: real, d: real, q: real, e: real)
    requires m >= 0.0 && q >= 0.0 && MissWithin(m, d, q)
    ensures MissWithin(m + 1.0, d + e, q + e * e)
  {
    CauchyStep(d, e, m, q);
  }

  lemma AddKeepsBounded(t: Tally, row: Row)
    requires Bounded(t)
    ensures Bounded(AddRow(t, row))
  {
    if Settles(row) {
      var e := Error(row);
      var t' := AddRow(t, row);
      UnitSquare(e);
      MissStep(t.settled as real, t.observed - t.expected, t.brier, e);
      assert t'.settled as real == t.settled as real + 1.0;
      assert t'.observed - t'.expected == t.observed - t.expected + e;
      assert t'.brier == t.brier + e * e;
    }
  }

  /** Every bucket's squared miss is at most its settled count times its squared error. */
  lemma {:induction false} TallyBounded(rows: seq<Row>, groups: seq<int>, b: int)
    requires |rows| == |groups|
    ensures Bounded(TallyOf(rows, groups, b))
  {
    if rows != [] {
      var n := |rows| - 1;
      TallyBounded(rows[..n], groups[..n], b);
      AddKeepsBounded(TallyOf(rows[..n], groups[..n], b), rows[n]);
    }
  }

  // ---- the whole table ----

  /** The tally has summed these errors over the rows the mask admits. */
  ghost predicate Summed(t: Tally, xs: seq<real>, mask: seq<bool>) {
    t.observed - t.expected == Sum(xs) && t.brier == SumSquares(xs) && t.settled == CountTrue(mask)
  }

  lemma SummedStep(t: Tally, row: Row, xs: seq<real>, mask: seq<bool>)
    requires Summed(t, xs, mask)
    ensures Summed(AddRow(t, row), xs + [Error(row)], mask + [Settles(row)])
  {
    assert (xs + [Error(row)])[..|xs|] == xs && (mask + [Settles(row)])[..|mask|] == mask;
  }

  lemma {:induction false} OverallIsSummed(rows: seq<Row>)
    ensures Summed(Overall(rows), Errors(rows), SettledMask(rows))
  {
    if rows != [] {
      var n := |rows| - 1;
      OverallIsSummed(rows[..n]);
      OverallStep(rows, n);
      SummedStep(Overall(rows[..n]), rows[n], Errors(rows[..n]), SettledMask(rows[..n]));
      assert rows[..n + 1] == rows;
      assert Errors(rows) == Errors(rows[..n]) + [Error(rows[n])];
      assert SettledMask(rows) == SettledMask(rows[..n]) + [Settles(rows[n])];
    }
  }

  lemma OverallMeaning(rows: seq<Row>)
    ensures Overall(rows).observed - Overall(rows).expected == Sum(Errors(rows))
    ensures Overall(rows).brier == SumSquares(Errors(rows))
    ensures Overall(rows).settled == CountTrue(SettledMask(rows))
  {
    OverallIsSummed(rows);
  }

  ghost function BucketErrors(rows: seq<Row>, k: nat): seq<real> {
    GroupSums(Errors(rows), BucketOf(|rows|, k), k)
  }

  /** What bucket `b` contributes to the reported ECE. */
  ghost function Contribution(bucket: Bucket, total: nat): real
    requires total > 0
  {
    if bucket.settled == 0 then 0.0 else Abs(bucket.gap) * (bucket.settled as real / total as real)
  }

  lemma WeightedGapOf(rows: seq<Row>, k: nat, b: nat, total: nat)
    requires b < k && total > 0
    ensures Contribution(BucketsOf(rows, k)[b], total) == Abs(BucketErrors(rows, k)[b]) / total as real
  {
    var t := TallyOf(rows, BucketOf(|rows|, k), b);
    TallyDifference(rows, BucketOf(|rows|, k), b);
    if t.settled == 0 {
      TallyBounded(rows, BucketOf(|rows|, k), b);
    } else {
      WeightCancels(t.observed, t.expected, t.settled as real, total as real);
    }
  }

  /** The weighted gaps of buckets that contribute the absolute values of `xs`. */
  lemma {:induction false} GapsAddUp(buckets: seq<Bucket>, xs: seq<real>, total: nat, m: nat)
    requires |buckets| == |xs| && m <= |xs| && total > 0
    requires forall b :: 0 <= b < |xs| ==> Contribution(buckets[b], total) == Abs(xs[b]) / total as real
    ensures WeightedGaps(buckets, total, m) == SumAbs(xs[..m]) / total as real
  {
    if m > 0 {
      GapsAddUp(buckets, xs, total, m - 1);
      assert WeightedGaps(buckets, total, m) == WeightedGaps(buckets, total, m - 1) + Contribution(buckets[m - 1], total);
      assert xs[..m] == xs[..m - 1] + [xs[m - 1]];
      SumAppend(xs[..m - 1], xs[m - 1]);
      QuotientsAdd(SumAbs(xs[..m - 1]), Abs(xs[m - 1]), total as real);
    }
  }

  /** The reported ECE is the summed absolute bucket error over the settled count. */
  lemma EceMeaning(rows: seq<Row>, k: nat)
    requires Overall(rows).settled > 0
    ensures ReportOf(rows, k).summary.ece == SumAbs(BucketErrors(rows, k)) / Overall(rows).settled as real
  {
    var total, buckets, xs := Overall(rows).settled, BucketsOf(rows, k), BucketErrors(rows, k);
    forall b | 0 <= b < k ensures Contribution(buckets[b], total) == Abs(xs[b]) / total as real {
      WeightedGapOf(rows, k, b, total);
    }
    GapsAddUp(buckets, xs, total, k);
    assert xs[..k] == xs;
  }

  // ---- main results ----

  lemma UnitRatio(x: real, n: real)
    requires n > 0.0 && 0.0 <= x <= n
    ensures Unit(x / n)
  {
    QuotientMonotone(0.0, x, n);
    QuotientMonotone(x, n, n);
  }

  lemma DifferenceOfRates(o: real, e: real, n: real)
    requires n > 0.0
    ensures o / n - e / n == (o - e) / n
  {
  }

  lemma RatesBounded(t: Tally)
    requires Bounded(t) && t.settled > 0
    ensures var m := t.settled as real; Unit(t.observed / m) && Unit(t.expected / m) && Unit(t.brier / m)
    ensures var m := t.settled as real; SquareAtMost(t.observed / m - t.expected / m, t.brier / m)
  {
    var m := t.settled as real;
    UnitRatio(t.observed, m);
    UnitRatio(t.expected, m);
    UnitRatio(t.brier, m);
    SquaredMeanBelow(t.observed - t.expected, t.brier, m);
    DifferenceOfRates(t.observed, t.expected, m);
  }

  /** Within each bucket the rates and Brier score are in [0,1] and the squared gap is at most the Brier score. */
  lemma BucketGapBelowBrier(rows: seq<Row>, k: nat, b: nat)
    requires b < k
    ensures var bucket := ReportOf(rows, k).buckets[b];
            SquareAtMost(bucket.gap, bucket.brier) && Unit(bucket.brier) && Unit(bucket.observedRate) && Unit(bucket.expectedRate)
  {
    var t := TallyOf(rows, BucketOf(|rows|, k), b);
    TallyBounded(rows, BucketOf(|rows|, k), b);
    if t.settled > 0 {
      RatesBounded(t);
    }
  }

  /** The overall miss is at most the ECE, the squared ECE is at most the Brier score, and everything is in [0,1]. */
  lemma ReportBounds(rows: seq<Row>, k: nat)
    requires k > 0 && Overall(rows).settled > 0
    ensures var s := ReportOf(rows, k).summary;
            && Abs(s.observedRate - s.expectedRate) <= s.ece
            && SquareAtMost(s.ece, s.brier)
            && Unit(s.ece) && Unit(s.brier) && Unit(s.observedRate) && Unit(s.expectedRate)
  {
    var t := Overall(rows);
    TallyBounded(rows, seq(|rows|, _ => 0), 0);
    RatesBounded(t);
    EceMeaning(rows, k);
    TotalMissBelowBucketErrors(rows, k);
    var a, n := SumAbs(BucketErrors(rows, k)), t.settled as real;
    MissBelow(t.observed, t.expected, a, n);
    SquaredMeanBelow(a, t.brier, n);
    UnitEce(a / n, t.brier / n);
    QuotientMonotone(0.0, a, n);
  }

  lemma UnitEce(ece: real, brier: real)
    requires SquareAtMost(ece, brier) && Unit(brier)
    ensures ece <= 1.0
  {
    SquareReflects(ece, 1.0);
  }

  lemma TotalMissBelowBucketErrors(rows: seq<Row>, k: nat)
    requires k > 0
    ensures var t := Overall(rows); var a := SumAbs(BucketErrors(rows, k));
            0.0 <= Abs(t.observed - t.expected) <= a && MissWithin(t.settled as real, a, t.brier)
  {
    var errors, groups := Errors(rows), BucketOf(|rows|, k);
    var sums := BucketErrors(rows, k);
    OverallMeaning(rows);
    GroupsInRange(|rows|, k);
    GroupSumsPreserveTotal(errors, groups, k);
    TotalBelowSumAbs(sums);
    GroupingShrinks(errors, groups, k);
    SumAbsNonNegative(sums);
    GroupedMissWithin(SumAbs(sums), errors, SettledMask(rows));
  }

  lemma GroupedMissWithin(a: real, errors: seq<real>, mask: seq<bool>)
    requires 0.0 <= a <= SumAbs(errors) && |errors| == |mask|
    requires forall i :: 0 <= i < |errors| && !mask[i] ==> errors[i] == 0.0
    ensures MissWithin(CountTrue(mask) as real, a, SumSquares(errors))
  {
    CauchySchwarz(errors, mask);
    MissShrinks(CountTrue(mask) as real, a, SumAbs(errors), SumSquares(errors));
  }

  lemma MissShrinks(m: real, a: real, s: real, q: real)
    requires 0.0 <= a <= s && MissWithin(m, s, q)
    ensures MissWithin(m, a, q)
  {
    SquareMonotone(a, s);
  }

  lemma {:induction false} SumAbsNonNegative(xs: seq<real>)
    ensures SumAbs(xs) >= 0.0
  {
    if xs != [] {
      SumAbsNonNegative(xs[..|xs| - 1]);
    }
  }

  lemma MissBelow(o: real, e: real, a: real, n: real)
    requires n > 0.0 && Abs(o - e) <= a
    ensures Abs(o / n - e / n) <= a / n
  {
    assert o / n - e / n == (o - e) / n;
    QuotientMonotone(o - e, a, n);
    QuotientMonotone(e - o, a, n);
    assert (e - o) / n == -((o - e) / n);
  }

  // ---- nested bucket counts ----

  /** The coarse bucket that holds fine bucket `b` when there are `c` fine buckets to a coarse one. */
  ghost function Merge(k: nat, c: nat): (merge: seq<int>)
    requires c > 0
    ensures |merge| == k
  {
    seq(k, b requires 0 <= b < k => b / c)
  }

  lemma NestedFloor(x: nat, n: nat, c: nat)
    requires n > 0 && c > 0
    ensures (x * c / n) / c == x / n
  {
    var q, r := x / n, x % n;
    ScaledFloor(x, q, r, n, c);
    BucketInRange(r, n, c);
    SmallOnTop(q, (r * c) / n, c);
  }

  lemma ScaledFloor(x: nat, q: nat, r: nat, n: nat, c: nat)
    requires n > 0 && x == n * q + r
    ensures x * c / n == c * q + (r * c) / n
  {
    assert x * c == n * (c * q) + r * c;
    FloorShift(c * q, r * c, n);
  }

  lemma SmallOnTop(q: nat, small: nat, c: nat)
    requires small < c
    ensures (c * q + small) / c == q
  {
    FloorShift(q, small, c);
  }

  lemma FloorShift(q: int, r: int, n: nat)
    requires n > 0
    ensures (n * q + r) / n == q + r / n
  {
    var a := (n * q + r) / n;
    var b := r / n;
    assert n * a <= n * q + r < n * a + n;
    assert n * b <= r < n * b + n;
    var d := a - q - b;
    assert n * d == n * a - n * q - n * b;
    if d >= 1 {
      IntProductMonotone(n, 1, d);
    } else if d <= -1 {
      IntProductMonotone(n, d, -1);
    }
  }

  lemma CoarseBucketInRange(b: nat, coarse: nat, c: nat)
    requires c > 0 && b < coarse * c
    ensures 0 <= b / c < coarse
  {
    var q := b / c;
    assert c * q <= b;
    if q >= coarse {
      IntProductMonotone(c, coarse, q);
    }
  }

  lemma FineIndexNests(i: nat, n: nat, coarse: nat, c: nat)
    requires n > 0 && c > 0
    ensures (i * coarse) / n == ((i * (coarse * c)) / n) / c
  {
    assert i * (coarse * c) == (i * coarse) * c;
    NestedFloor(i * coarse, n, c);
  }

  /** With `c` times as many buckets, each coarse bucket is exactly `c` consecutive fine ones. */
  lemma FinerBucketsRefine(n: nat, coarse: nat, c: nat)
    requires coarse > 0 && c > 0
    ensures Coarsens(BucketOf(n, coarse), BucketOf(n, coarse * c), Merge(coarse * c, c))
    ensures GroupsBelow(Merge(coarse * c, c), coarse)
  {
    var fine := coarse * c;
    GroupsInRange(n, fine);
    forall i | 0 <= i < n
      ensures BucketOf(n, coarse)[i] == BucketOf(n, fine)[i] / c
    {
      FineIndexNests(i, n, coarse, c);
    }
    forall b | 0 <= b < fine
      ensures 0 <= Merge(fine, c)[b] < coarse
    {
      CoarseBucketInRange(b, coarse, c);
    }
  }

  /** Asking for a divisor of the bucket count can only lower the reported ECE. */
  lemma FewerBucketsLowerEce(rows: seq<Row>, coarse: nat, c: nat)
    requires coarse > 0 && c > 0 && Overall(rows).settled > 0
    ensures ReportOf(rows, coarse).summary.ece <= ReportOf(rows, coarse * c).summary.ece
    ensures ReportOf(rows, coarse).summary.(ece := 0.0) == ReportOf(rows, coarse * c).summary.(ece := 0.0)
  {
    var fine := coarse * c;
    FinerBucketsRefine(|rows|, coarse, c);
    CoarseningShrinks(Errors(rows), BucketOf(|rows|, fine), BucketOf(|rows|, coarse), Merge(fine, c), coarse);
    EceMeaning(rows, coarse);
    EceMeaning(rows, fine);
    QuotientMonotone(SumAbs(BucketErrors(rows, coarse)), SumAbs(BucketErrors(rows, fine)), Overall(rows).settled as real);
  }
}
