/** The backtest error metrics of internal/backtest/engine.go. */
module BacktestMetrics {
  import opened Wrappers
  import opened Reals
  import opened Grouping
  import opened Counting

  const REPORT_BINS := 10

  datatype Outcome = Outcome(
    predicted: real, closing: real, graded: bool, homeWin: Option<bool>, over: Option<bool>)

  datatype Report = Report(samples: nat, mae: real, brier: real, ece: real)

  datatype BinStats = BinStats(count: nat, sumP: real, sumT: real)

  function Clamp(v: real, lo: real, hi: real): real {
    if v < lo then lo else if v > hi then hi else v
  }

  /** The bin of a prediction; 1 shares the last bin. */
  function BinOf(p: real, bins: nat): int {
    var index := (Clamp(p, 0.0, 1.0) * bins as real).Floor;
    if index >= bins then bins - 1 else index
  }

  ghost function BinsOf(predictions: seq<real>, bins: nat): (groups: seq<int>)
    ensures |groups| == |predictions|
  {
    seq(|predictions|, i requires 0 <= i < |predictions| => BinOf(predictions[i], bins))
  }

  ghost function Deltas(predictions: seq<real>, targets: seq<real>): (ds: seq<real>)
    requires |predictions| == |targets|
    ensures |ds| == |predictions|
  {
    seq(|predictions|, i requires 0 <= i < |predictions| => predictions[i] - targets[i])
  }

  ghost function ClampedDeltas(predictions: seq<real>, targets: seq<real>): (ds: seq<real>)
    requires |predictions| == |targets|
    ensures |ds| == |predictions|
  {
    seq(|predictions|, i requires 0 <= i < |predictions| => Clamp(predictions[i], 0.0, 1.0) - Clamp(targets[i], 0.0, 1.0))
  }

  /** The mean over all samples of the absolute bin totals of (prediction - target). */
  ghost function BinnedError(predictions: seq<real>, targets: seq<real>, bins: nat): real
    requires |predictions| == |targets| > 0
  {
    SumAbs(GroupSums(ClampedDeltas(predictions, targets), BinsOf(predictions, bins), bins)) / |predictions| as real
  }

  ghost function MetricsOf(predictions: seq<real>, targets: seq<real>): Report
    requires |predictions| == |targets|
  {
    var n := |predictions|;
    if n == 0 then Report(0, 0.0, 0.0, 0.0)
    else
      var ds := Deltas(predictions, targets);
      Report(n, SumAbs(ds) / n as real, SumSquares(ds) / n as real, BinnedError(predictions, targets, REPORT_BINS))
  }

  /** Each prediction falls in one of the bins, and its clamped value in that bin's range; 1 falls in the last. */
  lemma BinRange(p: real, bins: nat)
    requires bins > 0
    ensures var b, q := BinOf(p, bins), Clamp(p, 0.0, 1.0) * bins as real;
            0 <= b < bins && b as real <= q && (q < (b + 1) as real || b == bins - 1)
  {
    var q := Clamp(p, 0.0, 1.0);
    ProductNonNegative(q, bins as real);
    ProductMonotone(bins as real, q, 1.0);
  }

  lemma BinsBelow(predictions: seq<real>, bins: nat)
    requires bins > 0
    ensures GroupsBelow(BinsOf(predictions, bins), bins)
  {
    forall i | 0 <= i < |predictions|
      ensures 0 <= BinsOf(predictions, bins)[i] < bins
    {
      BinRange(predictions[i], bins);
    }
  }

  /** What the accumulated statistics of bin `b` stand for. */
  ghost predicate Holds(stats: BinStats, predictions: seq<real>, targets: seq<real>, bins: nat, b: int)
    requires |predictions| == |targets|
  {
    && stats.sumP - stats.sumT == GroupSum(ClampedDeltas(predictions, targets), BinsOf(predictions, bins), b)
    && (stats.count == 0 ==> stats.sumP == 0.0 && stats.sumT == 0.0)
  }

  lemma HoldsStep(stats: BinStats, predictions: seq<real>, targets: seq<real>, bins: nat, i: nat, b: int)
    requires |predictions| == |targets| && i < |predictions|
    requires Holds(stats, predictions[..i], targets[..i], bins, b)
    ensures var p, t := Clamp(predictions[i], 0.0, 1.0), Clamp(targets[i], 0.0, 1.0);
            Holds(if BinOf(predictions[i], bins) == b then BinStats(stats.count + 1, stats.sumP + p, stats.sumT + t) else stats,
                  predictions[..i + 1], targets[..i + 1], bins, b)
  {
    var ps, ts := predictions[..i + 1], targets[..i + 1];
    assert ClampedDeltas(ps, ts)[..i] == ClampedDeltas(predictions[..i], targets[..i]);
    assert BinsOf(ps, bins)[..i] == BinsOf(predictions[..i], bins);
  }

  method CollectBins(predictions: seq<real>, targets: seq<real>, bins: nat) returns (stats: seq<BinStats>)
    requires |predictions| == |targets| && bins > 0
    ensures |stats| == bins
    ensures forall b :: 0 <= b < bins ==> Holds(stats[b], predictions, targets, bins, b)
  {
    var acc := new BinStats[bins](_ => BinStats(0, 0.0, 0.0));
    for i := 0 to |predictions|
      invariant forall b :: 0 <= b < bins ==> Holds(acc[b], predictions[..i], targets[..i], bins, b)
    {
      var p, t := Clamp(predictions[i], 0.0, 1.0), Clamp(targets[i], 0.0, 1.0);
      var index := BinOf(predictions[i], bins);
      BinRange(predictions[i], bins);
      var grown := BinStats(acc[index].count + 1, acc[index].sumP + p, acc[index].sumT + t);
      forall b | 0 <= b < bins
        ensures Holds(if b == index then grown else acc[b], predictions[..i + 1], targets[..i + 1], bins, b)
      {
        HoldsStep(acc[b], predictions, targets, bins, i, b);
      }
      acc[index] := grown;
    }
    assert predictions[..|predictions|] == predictions && targets[..|predictions|] == targets;
    stats := acc[..];
  }

  method WeightBins(stats: seq<BinStats>, total: real, ghost sums: seq<real>) returns (ece: real)
    requires total > 0.0 && |sums| == |stats|
    requires forall b :: 0 <= b < |stats| ==> stats[b].sumP - stats[b].sumT == sums[b]
    requires forall b :: 0 <= b < |stats| && stats[b].count == 0 ==> sums[b] == 0.0
    ensures ece == SumAbs(sums) / total
  {
    ece := 0.0;
    for b := 0 to |stats|
      invariant ece == SumAbs(sums[..b]) / total
    {
      var bin := stats[b];
      assert sums[..b + 1] == sums[..b] + [sums[b]];
      SumAppend(sums[..b], sums[b]);
      QuotientsAdd(SumAbs(sums[..b]), Abs(sums[b]), total);
      if bin.count != 0 {
        var n := bin.count as real;
        WeightCancels(bin.sumP, bin.sumT, n, total);
        var avgP, avgT := bin.sumP / n, bin.sumT / n;
        ece := ece + Abs(avgP - avgT) * (n / total);
      }
    }
    assert sums[..|stats|] == sums;
  }

  /** The error is the mean absolute bin total; unusable inputs report 0. */
  method ExpectedCalibrationErrorContinuous(predictions: seq<real>, targets: seq<real>, bins: int) returns (ece: real)
    ensures |predictions| == 0 || |predictions| != |targets| || bins <= 0 ==> ece == 0.0
    ensures |predictions| == |targets| > 0 && bins > 0 ==> ece == BinnedError(predictions, targets, bins)
  {
    if |predictions| == 0 || |predictions| != |targets| || bins <= 0 {
      return 0.0;
    }
    var stats := CollectBins(predictions, targets, bins);
    ghost var sums := GroupSums(ClampedDeltas(predictions, targets), BinsOf(predictions, bins), bins);
    assert forall b :: 0 <= b < bins ==> Holds(stats[b], predictions, targets, bins, b);
    ece := WeightBins(stats, |predictions| as real, sums);
  }

  // ---- what a report says about its outcomes ----

  /** The values `f` takes on the outcomes that satisfy `p`. */
  function Pick(outcomes: seq<Outcome>, p: Outcome -> bool, f: Outcome -> real): (xs: seq<real>)
    ensures |xs| == CountIf(outcomes, p)
  {
    if outcomes == [] then []
    else
      var last := outcomes[|outcomes| - 1];
      Pick(outcomes[..|outcomes| - 1], p, f) + (if p(last) then [f(last)] else [])
  }

  predicate Every(o: Outcome) {
    true
  }

  predicate IsGraded(o: Outcome) {
    o.graded
  }

  function PredictedOf(o: Outcome): real {
    o.predicted
  }

  function ClosingOf(o: Outcome): real {
    o.closing
  }

  /** 1 when the home team won or the total went over. */
  function ResultOf(o: Outcome): real {
    if o.homeWin == Some(true) || o.over == Some(true) then 1.0 else 0.0
  }

  function AbsMiss(target: Outcome -> real): Outcome -> real {
    (o: Outcome) => Abs(o.predicted - target(o))
  }

  function SquaredMiss(target: Outcome -> real): Outcome -> real {
    (o: Outcome) => (o.predicted - target(o)) * (o.predicted - target(o))
  }

  function ClampedMiss(target: Outcome -> real): Outcome -> real {
    (o: Outcome) => Clamp(o.predicted, 0.0, 1.0) - Clamp(target(o), 0.0, 1.0)
  }

  /** The outcomes whose prediction, clamped, is in the `b`-th tenth. */
  function InBin(p: Outcome -> bool, b: int): Outcome -> bool {
    (o: Outcome) => p(o) && BinOf(o.predicted, 10) == b
  }

  function BinMisses(outcomes: seq<Outcome>, p: Outcome -> bool, target: Outcome -> real): (xs: seq<real>)
    ensures |xs| == 10
  {
    seq(10, b requires 0 <= b < 10 => SumIf(outcomes, InBin(p, b), ClampedMiss(target)))
  }

  /** Mean absolute and mean squared miss against the target, and the mean over all samples of the ten absolute bin totals. */
  ghost predicate Measures(report: Report, outcomes: seq<Outcome>, p: Outcome -> bool, target: Outcome -> real) {
    && report.samples == CountIf(outcomes, p)
    && report.mae == Mean(SumIf(outcomes, p, AbsMiss(target)), CountIf(outcomes, p))
    && report.brier == Mean(SumIf(outcomes, p, SquaredMiss(target)), CountIf(outcomes, p))
    && report.ece == Mean(SumAbs(BinMisses(outcomes, p, target)), CountIf(outcomes, p))
  }

  lemma SamePick(outcomes: seq<Outcome>, p: Outcome -> bool, f: Outcome -> real)
    requires outcomes != [] && !p(outcomes[|outcomes| - 1])
    ensures Pick(outcomes, p, f) == Pick(outcomes[..|outcomes| - 1], p, f)
  {
    assert Pick(outcomes[..|outcomes| - 1], p, f) + [] == Pick(outcomes[..|outcomes| - 1], p, f);
  }

  lemma {:induction false} PickedMisses(outcomes: seq<Outcome>, p: Outcome -> bool, target: Outcome -> real)
    ensures var ds := Deltas(Pick(outcomes, p, PredictedOf), Pick(outcomes, p, target));
            SumAbs(ds) == SumIf(outcomes, p, AbsMiss(target)) && SumSquares(ds) == SumIf(outcomes, p, SquaredMiss(target))
  {
    if outcomes != [] {
      var n := |outcomes| - 1;
      PickedMisses(outcomes[..n], p, target);
      if p(outcomes[n]) {
        var ds := Deltas(Pick(outcomes[..n], p, PredictedOf), Pick(outcomes[..n], p, target));
        var d := outcomes[n].predicted - target(outcomes[n]);
        SumAppend(ds, d);
        assert Deltas(Pick(outcomes, p, PredictedOf), Pick(outcomes, p, target)) == ds + [d];
      } else {
        SamePick(outcomes, p, PredictedOf);
        SamePick(outcomes, p, target);
      }
    }
  }

  lemma {:induction false} PickedBin(outcomes: seq<Outcome>, p: Outcome -> bool, target: Outcome -> real, b: int)
    ensures var ps, ts := Pick(outcomes, p, PredictedOf), Pick(outcomes, p, target);
            GroupSum(ClampedDeltas(ps, ts), BinsOf(ps, 10), b) == SumIf(outcomes, InBin(p, b), ClampedMiss(target))
  {
    if outcomes != [] {
      var n := |outcomes| - 1;
      PickedBin(outcomes[..n], p, target, b);
      if p(outcomes[n]) {
        var ps, ts := Pick(outcomes[..n], p, PredictedOf), Pick(outcomes[..n], p, target);
        var ps', ts' := Pick(outcomes, p, PredictedOf), Pick(outcomes, p, target);
        assert ClampedDeltas(ps', ts')[..|ps|] == ClampedDeltas(ps, ts);
        assert BinsOf(ps', 10)[..|ps|] == BinsOf(ps, 10);
      } else {
        SamePick(outcomes, p, PredictedOf);
        SamePick(outcomes, p, target);
      }
    }
  }

  lemma PickedMeasures(outcomes: seq<Outcome>, p: Outcome -> bool, target: Outcome -> real, ps: seq<real>, ts: seq<real>)
    requires ps == Pick(outcomes, p, PredictedOf) && ts == Pick(outcomes, p, target)
    ensures Measures(MetricsOf(ps, ts), outcomes, p, target)
  {
    PickedMisses(outcomes, p, target);
    forall b | 0 <= b < 10
      ensures GroupSum(ClampedDeltas(ps, ts), BinsOf(ps, 10), b) == SumIf(outcomes, InBin(p, b), ClampedMiss(target))
    {
      PickedBin(outcomes, p, target, b);
    }
    assert GroupSums(ClampedDeltas(ps, ts), BinsOf(ps, 10), 10) == BinMisses(outcomes, p, target);
  }

  lemma {:induction false} PickEvery(outcomes: seq<Outcome>, xs: seq<real>, f: Outcome -> real)
    requires |xs| == |outcomes| && forall i :: 0 <= i < |xs| ==> xs[i] == f(outcomes[i])
    ensures xs == Pick(outcomes, Every, f) && CountIf(outcomes, Every) == |outcomes|
  {
    if outcomes != [] {
      PickEvery(outcomes[..|outcomes| - 1], xs[..|xs| - 1], f);
    }
  }

  lemma {:induction false} PickGraded(outcomes: seq<Outcome>)
    ensures Pick(outcomes, IsGraded, PredictedOf) == GradedPredictions(outcomes)
    ensures Pick(outcomes, IsGraded, ResultOf) == GradedResults(outcomes)
  {
    if outcomes != [] {
      PickGraded(outcomes[..|outcomes| - 1]);
    }
  }

  lemma AllMeasured(outcomes: seq<Outcome>, ps: seq<real>, ts: seq<real>)
    requires |ps| == |ts| == |outcomes|
    requires forall i :: 0 <= i < |outcomes| ==> ps[i] == outcomes[i].predicted && ts[i] == outcomes[i].closing
    ensures Measures(MetricsOf(ps, ts), outcomes, Every, ClosingOf) && CountIf(outcomes, Every) == |outcomes|
  {
    PickEvery(outcomes, ps, PredictedOf);
    PickEvery(outcomes, ts, ClosingOf);
    PickedMeasures(outcomes, Every, ClosingOf, ps, ts);
  }

  /** Every outcome against its closing price. */
  method ComputeCalibrationReport(outcomes: seq<Outcome>) returns (report: Report)
    ensures Measures(report, outcomes, Every, ClosingOf) && report.samples == |outcomes|
  {
    var predictions := seq(|outcomes|, i requires 0 <= i < |outcomes| => outcomes[i].predicted);
    var targets := seq(|outcomes|, i requires 0 <= i < |outcomes| => outcomes[i].closing);
    AllMeasured(outcomes, predictions, targets);
    if |outcomes| == 0 {
      return Report(0, 0.0, 0.0, 0.0);
    }
    report := Measure(predictions, targets);
  }

  /** Graded outcomes only, each against its binary result. */
  method ComputeOutcomeCalibrationReport(outcomes: seq<Outcome>) returns (report: Report)
    ensures Measures(report, outcomes, IsGraded, ResultOf)
    ensures report == MetricsOf(GradedPredictions(outcomes), GradedResults(outcomes))
  {
    PickGraded(outcomes);
    PickedMeasures(outcomes, IsGraded, ResultOf, GradedPredictions(outcomes), GradedResults(outcomes));
    var predictions: seq<real>, targets: seq<real> := [], [];
    for i := 0 to |outcomes|
      invariant predictions == GradedPredictions(outcomes[..i]) && targets == GradedResults(outcomes[..i])
    {
      assert outcomes[..i + 1][..i] == outcomes[..i];
      if outcomes[i].graded {
        var actual := 0.0;
        if outcomes[i].homeWin == Some(true) {
          actual := 1.0;
        } else if outcomes[i].over == Some(true) {
          actual := 1.0;
        }
        predictions := predictions + [outcomes[i].predicted];
        targets := targets + [actual];
      }
    }
    assert outcomes[..|outcomes|] == outcomes;
    if |predictions| == 0 {
      return Report(0, 0.0, 0.0, 0.0);
    }
    report := Measure(predictions, targets);
  }

  function GradedPredictions(outcomes: seq<Outcome>): seq<real> {
    if outcomes == [] then []
    else
      var last := outcomes[|outcomes| - 1];
      GradedPredictions(outcomes[..|outcomes| - 1]) + (if last.graded then [last.predicted] else [])
  }

  function GradedResults(outcomes: seq<Outcome>): (targets: seq<real>)
    ensures |targets| == |GradedPredictions(outcomes)|
  {
    if outcomes == [] then []
    else
      var last := outcomes[|outcomes| - 1];
      GradedResults(outcomes[..|outcomes| - 1])
      + (if last.graded then [if last.homeWin == Some(true) || last.over == Some(true) then 1.0 else 0.0] else [])
  }

  method Measure(predictions: seq<real>, targets: seq<real>) returns (report: Report)
    requires |predictions| == |targets| > 0
    ensures report == MetricsOf(predictions, targets)
  {
    var absErr, brier := 0.0, 0.0;
    ghost var ds := Deltas(predictions, targets);
    for i := 0 to |predictions|
      invariant absErr == SumAbs(ds[..i]) && brier == SumSquares(ds[..i])
    {
      assert ds[..i + 1] == ds[..i] + [ds[i]];
      SumAppend(ds[..i], ds[i]);
      var delta := predictions[i] - targets[i];
      absErr := absErr + Abs(delta);
      brier := brier + delta * delta;
    }
    assert ds[..|predictions|] == ds;
    var ece := ExpectedCalibrationErrorContinuous(predictions, targets, REPORT_BINS);
    var n := |predictions| as real;
    report := Report(|predictions|, absErr / n, brier / n, ece);
  }

  // ---- main results ----

  lemma {:induction false} SumIsZeroIff<T>(s: seq<T>, p: T -> bool, f: T -> real)
    requires forall x :: x in s ==> f(x) >= 0.0
    ensures SumIf(s, p, f) >= 0.0
    ensures SumIf(s, p, f) == 0.0 <==> forall x :: x in s && p(x) ==> f(x) == 0.0
  {
    if s != [] {
      SumIsZeroIff(s[..|s| - 1], p, f);
      assert s == s[..|s| - 1] + [s[|s| - 1]];
    }
  }

  lemma MeanIsZeroIff(sum: real, count: nat)
    requires sum >= 0.0 && (count == 0 ==> sum == 0.0)
    ensures Mean(sum, count) == 0.0 <==> sum == 0.0
  {
    if count > 0 {
      assert Mean(sum, count) * count as real == sum;
    }
  }

  /** A report of no error at all is a report on predictions that all came true exactly. */
  lemma NoErrorIffExact(report: Report, outcomes: seq<Outcome>, p: Outcome -> bool, target: Outcome -> real)
    requires Measures(report, outcomes, p, target)
    ensures report.mae == 0.0 <==> forall o :: o in outcomes && p(o) ==> o.predicted == target(o)
  {
    SumIsZeroIff(outcomes, p, AbsMiss(target));
    if CountIf(outcomes, p) == 0 {
      NoneToSum(outcomes, p, AbsMiss(target));
    }
    MeanIsZeroIff(SumIf(outcomes, p, AbsMiss(target)), CountIf(outcomes, p));
  }

  lemma {:induction false} NoneToSum(outcomes: seq<Outcome>, p: Outcome -> bool, f: Outcome -> real)
    requires CountIf(outcomes, p) == 0
    ensures SumIf(outcomes, p, f) == 0.0
  {
    if outcomes != [] {
      NoneToSum(outcomes[..|outcomes| - 1], p, f);
    }
  }

  /** Clamping gives the nearest number of the interval. */
  lemma ClampNearest(v: real, lo: real, hi: real, q: real)
    requires lo <= q <= hi
    ensures lo <= Clamp(v, lo, hi) <= hi && Abs(Clamp(v, lo, hi) - v) <= Abs(q - v)
  {
  }

  /** Clamping to [0,1] never moves two numbers further apart. */
  lemma ClampLipschitz(p: real, t: real)
    ensures Abs(Clamp(p, 0.0, 1.0) - Clamp(t, 0.0, 1.0)) <= Abs(p - t)
  {
  }

  lemma {:induction false} SumAbsMonotone(xs: seq<real>, ys: seq<real>)
    requires |xs| == |ys| && forall i :: 0 <= i < |xs| ==> Abs(xs[i]) <= Abs(ys[i])
    ensures SumAbs(xs) <= SumAbs(ys)
  {
    if xs != [] {
      SumAbsMonotone(xs[..|xs| - 1], ys[..|ys| - 1]);
    }
  }

  lemma {:induction false} SquaresBelowAbs(xs: seq<real>)
    requires forall i :: 0 <= i < |xs| ==> Abs(xs[i]) <= 1.0
    ensures SumSquares(xs) <= SumAbs(xs)
  {
    if xs != [] {
      SquaresBelowAbs(xs[..|xs| - 1]);
      SquareBelowAbs(xs[|xs| - 1]);
    }
  }

  lemma SquareBelowAbs(x: real)
    requires Abs(x) <= 1.0
    ensures x * x <= Abs(x)
  {
    if x >= 0.0 {
      ProductNonNegative(x, 1.0 - x);
      assert x * (1.0 - x) == x - x * x;
    } else {
      ProductNonNegative(-x, 1.0 + x);
      assert (-x) * (1.0 + x) == -x - x * x;
    }
  }

  lemma {:induction false} AllTrue(n: nat)
    ensures CountTrue(seq(n, _ => true)) == n
  {
    if n > 0 {
      assert seq(n, _ => true)[..n - 1] == seq(n - 1, _ => true);
      AllTrue(n - 1);
    }
  }

  /** For every input and bin count the binned error is at most the mean absolute error, and at least the
      error of the clamped means. */
  lemma BinnedErrorBounds(predictions: seq<real>, targets: seq<real>, bins: nat)
    requires |predictions| == |targets| > 0 && bins > 0
    ensures var n := |predictions| as real;
            Abs(Sum(ClampedDeltas(predictions, targets))) / n <= BinnedError(predictions, targets, bins)
            <= SumAbs(Deltas(predictions, targets)) / n
  {
    var n := |predictions| as real;
    var clamped, groups := ClampedDeltas(predictions, targets), BinsOf(predictions, bins);
    var sums := GroupSums(clamped, groups, bins);
    BinsBelow(predictions, bins);
    GroupSumsPreserveTotal(clamped, groups, bins);
    TotalBelowSumAbs(sums);
    GroupingShrinks(clamped, groups, bins);
    forall i | 0 <= i < |predictions|
      ensures Abs(clamped[i]) <= Abs(Deltas(predictions, targets)[i])
    {
      ClampLipschitz(predictions[i], targets[i]);
    }
    SumAbsMonotone(clamped, Deltas(predictions, targets));
    QuotientMonotone(Abs(Sum(clamped)), SumAbs(sums), n);
    QuotientMonotone(SumAbs(sums), SumAbs(Deltas(predictions, targets)), n);
  }

  /** ECE <= MAE and MAE^2 <= Brier for all inputs; Brier <= MAE once predictions and targets are probabilities. */
  lemma MetricsOrdered(predictions: seq<real>, targets: seq<real>)
    requires |predictions| == |targets|
    ensures var r := MetricsOf(predictions, targets);
            && r.ece <= r.mae
            && SquareAtMost(r.mae, r.brier)
            && ((forall i :: 0 <= i < |predictions| ==> 0.0 <= predictions[i] <= 1.0 && 0.0 <= targets[i] <= 1.0)
                ==> r.brier <= r.mae)
  {
    if predictions != [] {
      var ds := Deltas(predictions, targets);
      var n := |predictions| as real;
      BinnedErrorBounds(predictions, targets, REPORT_BINS);
      AllTrue(|predictions|);
      CauchySchwarz(ds, seq(|predictions|, _ => true));
      SquaredMeanBelow(SumAbs(ds), SumSquares(ds), n);
      if forall i :: 0 <= i < |predictions| ==> 0.0 <= predictions[i] <= 1.0 && 0.0 <= targets[i] <= 1.0 {
        SquaresBelowAbs(ds);
        QuotientMonotone(SumSquares(ds), SumAbs(ds), n);
      }
    }
  }
}
