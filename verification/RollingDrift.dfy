/** Calibration drift alerts over rolling windows: internal/decision/calibration_alerts.go, calibration_alerts_rolling.go
    and the sort and pairing of internal/server/recommendations_calibration_alerts_rolling.go. */
module RollingDrift {
  import opened Wrappers
  import opened Reals
  import opened Sorting
  import opened Counting
  import opened Calibration
  import opened CalibrationReport

  const DAY := 86400
  const MAX_WINDOW_DAYS := 365
  const MAX_STEPS := 90

  /** Inclusive day ranges, each bound a UTC time. */
  datatype Window = Window(currentFrom: int, currentTo: int, baselineFrom: int, baselineTo: int)

  datatype Thresholds = Thresholds(warnEce: real, criticalEce: real, warnBrier: real, criticalBrier: real)

  datatype Guardrails = Guardrails(minOverall: int, minPerBucket: int)

  datatype Level = LevelOk | LevelWarn | LevelCritical | InsufficientSample

  datatype Reason =
    | CurrentBelowOverall | BaselineBelowOverall | CurrentBucketsBelow(count: nat) | BaselineBucketsBelow(count: nat)
    | EceCritical | BrierCritical | EceWarn | BrierWarn | WithinThresholds

  datatype BucketDrift = BucketDrift(index: nat, gapDelta: real, brierDelta: real, insufficient: bool)

  datatype Samples = Samples(shortWindows: nat, currentShort: nat, baselineShort: nat)

  datatype Drift = Drift(
    level: Level, reasons: seq<Reason>, eceDelta: real, brierDelta: real, samples: Samples, buckets: seq<BucketDrift>)

  // ---- windows ----

  /** Midnight of the day of a time. */
  function DayStart(time: int): int {
    time / DAY * DAY
  }

  function WindowAt(anchor: int, windowDays: int, steps: int, i: int): Window {
    var currentTo := DayStart(anchor) - (steps - 1 - i) * DAY;
    var currentFrom := currentTo - (windowDays - 1) * DAY;
    var baselineTo := currentFrom - DAY;
    Window(currentFrom, currentTo, baselineTo - (windowDays - 1) * DAY, baselineTo)
  }

  predicate ValidRolling(anchor: Option<int>, windowDays: int, steps: int) {
    anchor.Some? && 1 <= windowDays <= MAX_WINDOW_DAYS && 1 <= steps <= MAX_STEPS
  }

  method BuildRollingWindows(anchor: Option<int>, windowDays: int, steps: int) returns (res: Result<seq<Window>>)
    ensures res.Ok? <==> ValidRolling(anchor, windowDays, steps)
    ensures res.Ok? ==> |res.value| == steps
    ensures res.Ok? ==> forall i :: 0 <= i < steps ==> res.value[i] == WindowAt(anchor.value, windowDays, steps, i)
  {
    if anchor.None? {
      return Err("anchor date must be set");
    }
    if windowDays < 1 || windowDays > MAX_WINDOW_DAYS {
      return Err("invalid rolling window_days");
    }
    if steps < 1 || steps > MAX_STEPS {
      return Err("invalid rolling steps");
    }
    var anchorDay := DayStart(anchor.value);
    var windows: seq<Window> := [];
    for i := 0 to steps
      invariant |windows| == i
      invariant forall j :: 0 <= j < i ==> windows[j] == WindowAt(anchor.value, windowDays, steps, j)
    {
      var offset := steps - 1 - i;
      var currentTo := anchorDay - offset * DAY;
      var currentFrom := currentTo - (windowDays - 1) * DAY;
      var baselineTo := currentFrom - DAY;
      var baselineFrom := baselineTo - (windowDays - 1) * DAY;
      windows := windows + [Window(currentFrom, currentTo, baselineFrom, baselineTo)];
    }
    return Ok(windows);
  }

  // ---- drift between two reports ----

  function OrDefault(value: real, default: real): real {
    if value == 0.0 then default else value
  }

  /** Zero means the default; it resolves exactly when then 0 < warn <= critical <= 1 for both measures. */
  function ResolveThresholds(t: Thresholds): (res: Result<Thresholds>)
    ensures res.Ok? <==> 0.0 < OrDefault(t.warnEce, 0.02) <= OrDefault(t.criticalEce, 0.05) <= 1.0
                         && 0.0 < OrDefault(t.warnBrier, 0.01) <= OrDefault(t.criticalBrier, 0.02) <= 1.0
    ensures res.Ok? ==> res.value == Thresholds(OrDefault(t.warnEce, 0.02), OrDefault(t.criticalEce, 0.05),
                                                OrDefault(t.warnBrier, 0.01), OrDefault(t.criticalBrier, 0.02))
  {
    var r := Thresholds(
      if t.warnEce == 0.0 then 0.02 else t.warnEce, if t.criticalEce == 0.0 then 0.05 else t.criticalEce,
      if t.warnBrier == 0.0 then 0.01 else t.warnBrier, if t.criticalBrier == 0.0 then 0.02 else t.criticalBrier);
    if !(0.0 <= r.warnEce <= 1.0 && 0.0 <= r.criticalEce <= 1.0 && 0.0 <= r.warnBrier <= 1.0 && 0.0 <= r.criticalBrier <= 1.0) then
      Err("expected finite value in [0,1]")
    else if r.warnEce > r.criticalEce || r.warnBrier > r.criticalBrier then Err("warn delta exceeds critical delta")
    else Ok(r)
  }

  function ResolveGuardrails(g: Guardrails): (res: Result<Guardrails>)
    ensures res.Ok? ==> res.value.minOverall >= 1 && res.value.minPerBucket >= 1
    ensures res.Ok? ==> res.value.minOverall == if g.minOverall == 0 then 100 else g.minOverall
    ensures res.Ok? ==> res.value.minPerBucket == if g.minPerBucket == 0 then 20 else g.minPerBucket
    ensures res.Ok? <==> g.minOverall >= 0 && g.minPerBucket >= 0
  {
    var r := Guardrails(if g.minOverall == 0 then 100 else g.minOverall, if g.minPerBucket == 0 then 20 else g.minPerBucket);
    if r.minOverall < 1 || r.minPerBucket < 1 then Err("expected integer >= 1") else Ok(r)
  }

  predicate Resolvable(t: Thresholds, g: Guardrails) {
    ResolveThresholds(t).Ok? && ResolveGuardrails(g).Ok?
  }

  /** The reports have the same buckets in index order. */
  predicate Comparable(current: Report, baseline: Report) {
    && current.bucketCount == baseline.bucketCount && |current.buckets| == |baseline.buckets|
    && forall i :: 0 <= i < |current.buckets| ==> current.buckets[i].index == i && baseline.buckets[i].index == i
  }

  function ShortBuckets(buckets: seq<Bucket>, least: int): nat {
    if buckets == [] then 0
    else ShortBuckets(buckets[..|buckets| - 1], least) + (if buckets[|buckets| - 1].settled < least then 1 else 0)
  }

  function BucketDrifts(current: seq<Bucket>, baseline: seq<Bucket>, least: int): seq<BucketDrift>
    requires |current| == |baseline|
  {
    seq(|current|, i requires 0 <= i < |current| => BucketDriftOf(i, current[i], baseline[i], least))
  }

  function BucketDriftOf(i: nat, c: Bucket, b: Bucket, least: int): BucketDrift {
    BucketDrift(i, c.gap - b.gap, c.brier - b.brier, c.settled < least || b.settled < least)
  }

  /** Too few settled rows overall or in some bucket of either report. */
  predicate Insufficient(current: Report, baseline: Report, g: Guardrails) {
    || current.summary.settledRows < g.minOverall || baseline.summary.settledRows < g.minOverall
    || (exists i :: 0 <= i < |current.buckets| && current.buckets[i].settled < g.minPerBucket)
    || (exists i :: 0 <= i < |baseline.buckets| && baseline.buckets[i].settled < g.minPerBucket)
  }

  /** The alert level: sample size first, then the larger breach of either measure. */
  function LevelOf(current: Report, baseline: Report, t: Thresholds, g: Guardrails): Level {
    var ece := Abs(current.summary.ece - baseline.summary.ece);
    var brier := Abs(current.summary.brier - baseline.summary.brier);
    if Insufficient(current, baseline, g) then InsufficientSample
    else if ece >= t.criticalEce || brier >= t.criticalBrier then LevelCritical
    else if ece >= t.warnEce || brier >= t.warnBrier then LevelWarn
    else LevelOk
  }

  /** A reason, if it applies. */
  function Said(applies: bool, reason: Reason): seq<Reason> {
    if applies then [reason] else []
  }

  /** The reasons listed under a level: what is short, or which measure breached, or that nothing did. */
  function ReasonsOf(current: Report, baseline: Report, t: Thresholds, g: Guardrails): seq<Reason> {
    var ece := Abs(current.summary.ece - baseline.summary.ece);
    var brier := Abs(current.summary.brier - baseline.summary.brier);
    var currentShort, baselineShort := ShortBuckets(current.buckets, g.minPerBucket), ShortBuckets(baseline.buckets, g.minPerBucket);
    match LevelOf(current, baseline, t, g)
    case InsufficientSample =>
      Said(current.summary.settledRows < g.minOverall, CurrentBelowOverall) + Said(baseline.summary.settledRows < g.minOverall, BaselineBelowOverall)
      + Said(currentShort > 0, CurrentBucketsBelow(currentShort)) + Said(baselineShort > 0, BaselineBucketsBelow(baselineShort))
    case LevelCritical => Said(ece >= t.criticalEce, EceCritical) + Said(brier >= t.criticalBrier, BrierCritical)
    case LevelWarn => Said(ece >= t.warnEce, EceWarn) + Said(brier >= t.warnBrier, BrierWarn)
    case LevelOk => [WithinThresholds]
  }

  function SamplesOf(current: Report, baseline: Report, g: Guardrails): Samples {
    Samples((if current.summary.settledRows < g.minOverall then 1 else 0) + (if baseline.summary.settledRows < g.minOverall then 1 else 0),
            ShortBuckets(current.buckets, g.minPerBucket), ShortBuckets(baseline.buckets, g.minPerBucket))
  }

  /** The drift between two comparable reports under resolvable settings. */
  function DriftOf(current: Report, baseline: Report, thresholds: Thresholds, guardrails: Guardrails): Result<Drift> {
    if !Resolvable(thresholds, guardrails) || !Comparable(current, baseline) then Err("drift")
    else
      var t, g := ResolveThresholds(thresholds).value, ResolveGuardrails(guardrails).value;
      Ok(Drift(
        LevelOf(current, baseline, t, g), ReasonsOf(current, baseline, t, g),
        current.summary.ece - baseline.summary.ece, current.summary.brier - baseline.summary.brier,
        SamplesOf(current, baseline, g), BucketDrifts(current.buckets, baseline.buckets, g.minPerBucket)))
  }

  lemma {:induction false} ShortBucketsSome(buckets: seq<Bucket>, least: int)
    ensures ShortBuckets(buckets, least) > 0 <==> exists i :: 0 <= i < |buckets| && buckets[i].settled < least
  {
    if buckets != [] {
      var n := |buckets| - 1;
      ShortBucketsSome(buckets[..n], least);
      assert forall i :: 0 <= i < n ==> buckets[..n][i] == buckets[i];
    }
  }

  /** The bucket loop of the evaluation. */
  method CompareBuckets(current: seq<Bucket>, baseline: seq<Bucket>, least: int)
    returns (res: Result<seq<BucketDrift>>, currentShort: nat, baselineShort: nat)
    requires |current| == |baseline|
    ensures res.Ok? <==> forall i :: 0 <= i < |current| ==> current[i].index == i && baseline[i].index == i
    ensures res.Ok? ==> res.value == BucketDrifts(current, baseline, least)
    ensures res.Ok? ==> currentShort == ShortBuckets(current, least) && baselineShort == ShortBuckets(baseline, least)
  {
    var buckets: seq<BucketDrift> := [];
    currentShort, baselineShort := 0, 0;
    for i := 0 to |current|
      invariant forall j :: 0 <= j < i ==> current[j].index == j && baseline[j].index == j
      invariant buckets == BucketDrifts(current[..i], baseline[..i], least)
      invariant currentShort == ShortBuckets(current[..i], least) && baselineShort == ShortBuckets(baseline[..i], least)
    {
      assert current[..i + 1][..i] == current[..i] && baseline[..i + 1][..i] == baseline[..i];
      var c, b := current[i], baseline[i];
      if c.index != i || b.index != i {
        return Err("bucket ordering must be deterministic by index"), currentShort, baselineShort;
      }
      if c.settled < least {
        currentShort := currentShort + 1;
      }
      if b.settled < least {
        baselineShort := baselineShort + 1;
      }
      buckets := buckets + [BucketDrift(i, c.gap - b.gap, c.brier - b.brier, c.settled < least || b.settled < least)];
      assert buckets == BucketDrifts(current[..i + 1], baseline[..i + 1], least);
    }
    assert current[..|current|] == current && baseline[..|baseline|] == baseline;
    return Ok(buckets), currentShort, baselineShort;
  }

  // ---- what a drift says about its two reports ----

  /** Settled rows below a minimum. */
  function Below(least: int): Bucket -> bool {
    (b: Bucket) => b.settled < least
  }

  lemma {:induction false} ShortBucketsCount(buckets: seq<Bucket>, least: int)
    ensures ShortBuckets(buckets, least) == CountIf(buckets, Below(least))
  {
    if buckets != [] {
      ShortBucketsCount(buckets[..|buckets| - 1], least);
    }
  }

  /** Too few samples anywhere is a level of its own; otherwise either measure alone raises the level. */
  ghost predicate LevelMeans(current: Report, baseline: Report, t: Thresholds, g: Guardrails, level: Level) {
    var ece, brier := Abs(current.summary.ece - baseline.summary.ece), Abs(current.summary.brier - baseline.summary.brier);
    && (level == InsufficientSample <==>
          || current.summary.settledRows < g.minOverall || baseline.summary.settledRows < g.minOverall
          || CountIf(current.buckets, Below(g.minPerBucket)) + CountIf(baseline.buckets, Below(g.minPerBucket)) > 0)
    && (level != InsufficientSample ==>
          && (level == LevelOk <==> ece < t.warnEce && brier < t.warnBrier)
          && (level == LevelCritical <==> ece >= t.criticalEce || brier >= t.criticalBrier))
  }

  /** Deltas are current less baseline, bucket by bucket and overall. */
  ghost predicate DeltasMean(current: Report, baseline: Report, g: Guardrails, d: Drift) {
    && d.eceDelta == current.summary.ece - baseline.summary.ece
    && d.brierDelta == current.summary.brier - baseline.summary.brier
    && d.samples.shortWindows == CountIf([current, baseline], (r: Report) => r.summary.settledRows < g.minOverall)
    && d.samples.currentShort == CountIf(current.buckets, Below(g.minPerBucket))
    && d.samples.baselineShort == CountIf(baseline.buckets, Below(g.minPerBucket))
    && |d.buckets| == |current.buckets| == |baseline.buckets|
    && forall i :: 0 <= i < |d.buckets| ==>
         && d.buckets[i].index == current.buckets[i].index == baseline.buckets[i].index == i
         && d.buckets[i].gapDelta == current.buckets[i].gap - baseline.buckets[i].gap
         && d.buckets[i].brierDelta == current.buckets[i].brier - baseline.buckets[i].brier
         && (d.buckets[i].insufficient <==> current.buckets[i].settled < g.minPerBucket || baseline.buckets[i].settled < g.minPerBucket)
  }

  ghost predicate Alerts(current: Report, baseline: Report, thresholds: Thresholds, guardrails: Guardrails, d: Drift) {
    && Resolvable(thresholds, guardrails)
    && var t, g := ResolveThresholds(thresholds).value, ResolveGuardrails(guardrails).value;
       && LevelMeans(current, baseline, t, g, d.level)
       && (forall reason :: reason in d.reasons <==> Applies(current, baseline, t, g, d.level, reason))
       && DeltasMean(current, baseline, g, d)
  }

  lemma LevelOfMeans(current: Report, baseline: Report, t: Thresholds, g: Guardrails)
    requires t.warnEce <= t.criticalEce && t.warnBrier <= t.criticalBrier
    ensures LevelMeans(current, baseline, t, g, LevelOf(current, baseline, t, g))
  {
    ShortBucketsSome(current.buckets, g.minPerBucket);
    ShortBucketsSome(baseline.buckets, g.minPerBucket);
    ShortBucketsCount(current.buckets, g.minPerBucket);
    ShortBucketsCount(baseline.buckets, g.minPerBucket);
  }

  lemma SaidTwo(a: bool, x: Reason, b: bool, y: Reason, reason: Reason)
    ensures reason in Said(a, x) + Said(b, y) <==> (a && reason == x) || (b && reason == y)
  {
  }

  lemma SaidFour(a: bool, x: Reason, b: bool, y: Reason, c: bool, z: Reason, d: bool, w: Reason, reason: Reason)
    ensures reason in Said(a, x) + Said(b, y) + Said(c, z) + Said(d, w)
       <==> (a && reason == x) || (b && reason == y) || (c && reason == z) || (d && reason == w)
  {
    SaidTwo(a, x, b, y, reason);
    SaidTwo(c, z, d, w, reason);
    assert Said(a, x) + Said(b, y) + Said(c, z) + Said(d, w) == (Said(a, x) + Said(b, y)) + (Said(c, z) + Said(d, w));
  }

  /** Whether a reason applies at a level. */
  predicate Applies(current: Report, baseline: Report, t: Thresholds, g: Guardrails, level: Level, reason: Reason) {
    var ece, brier := Abs(current.summary.ece - baseline.summary.ece), Abs(current.summary.brier - baseline.summary.brier);
    match reason
    case CurrentBelowOverall => current.summary.settledRows < g.minOverall
    case BaselineBelowOverall => baseline.summary.settledRows < g.minOverall
    case CurrentBucketsBelow(n) => n == CountIf(current.buckets, Below(g.minPerBucket)) > 0
    case BaselineBucketsBelow(n) => n == CountIf(baseline.buckets, Below(g.minPerBucket)) > 0
    case EceCritical => level == LevelCritical && ece >= t.criticalEce
    case BrierCritical => level == LevelCritical && brier >= t.criticalBrier
    case EceWarn => level == LevelWarn && ece >= t.warnEce
    case BrierWarn => level == LevelWarn && brier >= t.warnBrier
    case WithinThresholds => level == LevelOk
  }

  lemma ReasonsOfMean(current: Report, baseline: Report, t: Thresholds, g: Guardrails, reason: Reason)
    ensures reason in ReasonsOf(current, baseline, t, g) <==> Applies(current, baseline, t, g, LevelOf(current, baseline, t, g), reason)
  {
    var ece, brier := Abs(current.summary.ece - baseline.summary.ece), Abs(current.summary.brier - baseline.summary.brier);
    var n, m := ShortBuckets(current.buckets, g.minPerBucket), ShortBuckets(baseline.buckets, g.minPerBucket);
    ShortBucketsSome(current.buckets, g.minPerBucket);
    ShortBucketsSome(baseline.buckets, g.minPerBucket);
    ShortBucketsCount(current.buckets, g.minPerBucket);
    ShortBucketsCount(baseline.buckets, g.minPerBucket);
    match LevelOf(current, baseline, t, g) {
      case InsufficientSample =>
        SaidFour(current.summary.settledRows < g.minOverall, CurrentBelowOverall, baseline.summary.settledRows < g.minOverall, BaselineBelowOverall,
                 n > 0, CurrentBucketsBelow(n), m > 0, BaselineBucketsBelow(m), reason);
      case LevelCritical => SaidTwo(ece >= t.criticalEce, EceCritical, brier >= t.criticalBrier, BrierCritical, reason);
      case LevelWarn => SaidTwo(ece >= t.warnEce, EceWarn, brier >= t.warnBrier, BrierWarn, reason);
      case LevelOk =>
    }
  }

  lemma DeltasOfMean(current: Report, baseline: Report, g: Guardrails, d: Drift)
    requires Comparable(current, baseline) && d.buckets == BucketDrifts(current.buckets, baseline.buckets, g.minPerBucket)
    requires d.eceDelta == current.summary.ece - baseline.summary.ece && d.brierDelta == current.summary.brier - baseline.summary.brier
    requires d.samples == SamplesOf(current, baseline, g)
    ensures DeltasMean(current, baseline, g, d)
  {
    ShortBucketsCount(current.buckets, g.minPerBucket);
    ShortBucketsCount(baseline.buckets, g.minPerBucket);
    var p := (r: Report) => r.summary.settledRows < g.minOverall;
    assert [current, baseline][..1] == [current] && [current][..0] == [];
  }

  lemma DriftMeans(current: Report, baseline: Report, thresholds: Thresholds, guardrails: Guardrails)
    requires DriftOf(current, baseline, thresholds, guardrails).Ok?
    ensures Alerts(current, baseline, thresholds, guardrails, DriftOf(current, baseline, thresholds, guardrails).value)
  {
    var t, g := ResolveThresholds(thresholds).value, ResolveGuardrails(guardrails).value;
    LevelOfMeans(current, baseline, t, g);
    forall reason ensures reason in ReasonsOf(current, baseline, t, g) <==> Applies(current, baseline, t, g, LevelOf(current, baseline, t, g), reason) {
      ReasonsOfMean(current, baseline, t, g, reason);
    }
    DeltasOfMean(current, baseline, g, DriftOf(current, baseline, thresholds, guardrails).value);
  }

  method CompareReports(current: Report, baseline: Report, thresholds: Thresholds, guardrails: Guardrails)
    returns (res: Result<Drift>)
    ensures res.Ok? <==> DriftOf(current, baseline, thresholds, guardrails).Ok?
    ensures res.Ok? ==> res == DriftOf(current, baseline, thresholds, guardrails)
  {
    var resolvedG := ResolveGuardrails(guardrails);
    if resolvedG.Err? {
      return Err(resolvedG.message);
    }
    var resolvedT := ResolveThresholds(thresholds);
    if resolvedT.Err? {
      return Err(resolvedT.message);
    }
    var g, t := resolvedG.value, resolvedT.value;
    if current.bucketCount != baseline.bucketCount {
      return Err("bucket count mismatch");
    }
    if |current.buckets| != |baseline.buckets| {
      return Err("bucket rows mismatch");
    }
    var compared, currentShort, baselineShort := CompareBuckets(current.buckets, baseline.buckets, g.minPerBucket);
    if compared.Err? {
      return Err(compared.message);
    }
    ShortBucketsSome(current.buckets, g.minPerBucket);
    ShortBucketsSome(baseline.buckets, g.minPerBucket);

    var shortWindows: nat := 0;
    if current.summary.settledRows < g.minOverall {
      shortWindows := shortWindows + 1;
    }
    if baseline.summary.settledRows < g.minOverall {
      shortWindows := shortWindows + 1;
    }
    var eceDelta := current.summary.ece - baseline.summary.ece;
    var brierDelta := current.summary.brier - baseline.summary.brier;
    var level, reasons: seq<Reason> := LevelOk, [];
    if shortWindows > 0 || currentShort > 0 || baselineShort > 0 {
      level := InsufficientSample;
      reasons := (if current.summary.settledRows < g.minOverall then [CurrentBelowOverall] else [])
               + (if baseline.summary.settledRows < g.minOverall then [BaselineBelowOverall] else [])
               + (if currentShort > 0 then [CurrentBucketsBelow(currentShort)] else [])
               + (if baselineShort > 0 then [BaselineBucketsBelow(baselineShort)] else []);
    } else if Abs(eceDelta) >= t.criticalEce || Abs(brierDelta) >= t.criticalBrier {
      level := LevelCritical;
      reasons := (if Abs(eceDelta) >= t.criticalEce then [EceCritical] else [])
               + (if Abs(brierDelta) >= t.criticalBrier then [BrierCritical] else []);
    } else if Abs(eceDelta) >= t.warnEce || Abs(brierDelta) >= t.warnBrier {
      level := LevelWarn;
      reasons := (if Abs(eceDelta) >= t.warnEce then [EceWarn] else [])
               + (if Abs(brierDelta) >= t.warnBrier then [BrierWarn] else []);
    } else {
      reasons := [WithinThresholds];
    }
    return Ok(Drift(level, reasons, eceDelta, brierDelta, Samples(shortWindows, currentShort, baselineShort), compared.value));
  }

  /** The drift between two reports: deltas, level and reasons, each said from the reports and the settings. */
  method EvaluateCalibrationDrift(current: Report, baseline: Report, thresholds: Thresholds, guardrails: Guardrails)
    returns (res: Result<Drift>)
    ensures res.Ok? <==>
      && Resolvable(thresholds, guardrails)
      && current.bucketCount == baseline.bucketCount && |current.buckets| == |baseline.buckets|
      && forall i :: 0 <= i < |current.buckets| ==> current.buckets[i].index == i && baseline.buckets[i].index == i
    ensures res.Ok? ==> res == DriftOf(current, baseline, thresholds, guardrails)
    ensures res.Ok? ==> Alerts(current, baseline, thresholds, guardrails, res.value)
  {
    res := CompareReports(current, baseline, thresholds, guardrails);
    if res.Ok? {
      DriftMeans(current, baseline, thresholds, guardrails);
    }
  }

  // ---- rolling evaluation ----

  datatype Step = Step(window: Window, current: Report, baseline: Report)

  datatype StepResult = StepResult(index: nat, window: Window, drift: Drift)

  /** By end of the current block, then its start, then the baseline's end and start. */
  predicate StepBefore(a: Step, b: Step) {
    var l, r := a.window, b.window;
    if l.currentTo != r.currentTo then l.currentTo < r.currentTo
    else if l.currentFrom != r.currentFrom then l.currentFrom < r.currentFrom
    else if l.baselineTo != r.baselineTo then l.baselineTo < r.baselineTo
    else l.baselineFrom < r.baselineFrom
  }

  function Normalized(w: Window): Window {
    Window(DayStart(w.currentFrom), DayStart(w.currentTo), DayStart(w.baselineFrom), DayStart(w.baselineTo))
  }

  function ResultFor(index: nat, s: Step, drift: Drift): StepResult {
    StepResult(index, Normalized(s.window), drift)
  }

  predicate Evaluates(s: Step, thresholds: Thresholds, guardrails: Guardrails) {
    DriftOf(s.current, s.baseline, thresholds, guardrails).Ok?
  }

  function DriftFor(s: Step, thresholds: Thresholds, guardrails: Guardrails): Drift
    requires Evaluates(s, thresholds, guardrails)
  {
    DriftOf(s.current, s.baseline, thresholds, guardrails).value
  }

  method EvaluateStep(s: Step, thresholds: Thresholds, guardrails: Guardrails) returns (res: Result<Drift>)
    ensures res.Ok? <==> Evaluates(s, thresholds, guardrails)
    ensures res.Ok? ==> res.value == DriftFor(s, thresholds, guardrails)
  {
    res := EvaluateCalibrationDrift(s.current, s.baseline, thresholds, guardrails);
  }

  method EvaluateRollingDrift(steps: seq<Step>, thresholds: Thresholds, guardrails: Guardrails) returns (res: Result<seq<StepResult>>)
    ensures res.Ok? <==> steps != [] && forall s :: s in steps ==> Evaluates(s, thresholds, guardrails)
    ensures res.Ok? ==> |res.value| == |steps| == |StableSort(StepBefore, steps)|
    ensures res.Ok? ==> forall i :: 0 <= i < |steps| ==>
      var s := StableSort(StepBefore, steps)[i];
      Evaluates(s, thresholds, guardrails) && res.value[i] == ResultFor(i, s, DriftFor(s, thresholds, guardrails))
  {
    if |steps| == 0 {
      return Err("rolling drift requires at least one step");
    }
    var ordered := StableSort(StepBefore, steps);
    SortKeepsMembers(steps);
    var results: seq<StepResult> := [];
    for i := 0 to |ordered|
      invariant |results| == i
      invariant forall j :: 0 <= j < i ==>
        Evaluates(ordered[j], thresholds, guardrails)
        && results[j] == ResultFor(j, ordered[j], DriftFor(ordered[j], thresholds, guardrails))
    {
      var drift := EvaluateStep(ordered[i], thresholds, guardrails);
      if drift.Err? {
        assert ordered[i] in steps;
        return Err(drift.message);
      }
      results := results + [ResultFor(i, ordered[i], drift.value)];
    }
    return Ok(results);
  }

  lemma SortKeepsMembers(steps: seq<Step>)
    ensures var ordered := StableSort(StepBefore, steps);
            |ordered| == |steps| && forall s :: s in ordered <==> s in steps
  {
    SortPermutes(StepBefore, steps);
    var ordered := StableSort(StepBefore, steps);
    assert forall s :: s in ordered <==> s in multiset(ordered);
    assert forall s :: s in steps <==> s in multiset(steps);
  }

  datatype AlertRun = AlertRun(index: nat, window: Window, current: Report, baseline: Report, drift: Drift)

  /** The rows a request loads for a range of days. */
  type Loader = (int, int) -> seq<Row>

  function ReportFor(load: Loader, from: int, to: int, bucketCount: nat): Report {
    ReportOf(Ranked(load(from, to)), bucketCount)
  }

  function StepFor(load: Loader, w: Window, bucketCount: nat): Step {
    Step(w, ReportFor(load, w.currentFrom, w.currentTo, bucketCount), ReportFor(load, w.baselineFrom, w.baselineTo, bucketCount))
  }

  method BuildStep(load: Loader, w: Window, requested: int) returns (res: Result<Step>)
    ensures res.Ok? <==> ResolveBucketCount(requested).Ok?
    ensures res.Ok? ==> res.value == StepFor(load, w, ResolveBucketCount(requested).value)
  {
    var current := ComputeReport(load(w.currentFrom, w.currentTo), requested);
    if current.Err? {
      return Err(current.message);
    }
    var baseline := ComputeReport(load(w.baselineFrom, w.baselineTo), requested);
    if baseline.Err? {
      assert false;
      return Err("compute baseline calibration report");
    }
    return Ok(Step(w, current.value, baseline.value));
  }

  method BuildSteps(load: Loader, windows: seq<Window>, requested: int) returns (res: Result<seq<Step>>)
    requires windows != []
    ensures res.Ok? <==> ResolveBucketCount(requested).Ok?
    ensures res.Ok? ==> |res.value| == |windows|
    ensures res.Ok? ==> forall i :: 0 <= i < |windows| ==>
      res.value[i] == StepFor(load, windows[i], ResolveBucketCount(requested).value)
  {
    var steps: seq<Step> := [];
    ghost var resolved := ResolveBucketCount(requested);
    ghost var k := if resolved.Ok? then resolved.value else 0;
    for i := 0 to |windows|
      invariant |steps| == i && (i > 0 ==> resolved.Ok?)
      invariant forall j :: 0 <= j < i ==> steps[j] == StepFor(load, windows[j], k)
    {
      var step := BuildStep(load, windows[i], requested);
      if step.Err? {
        return Err(step.message);
      }
      steps := steps + [step.value];
    }
    return Ok(steps);
  }

  function RunFor(index: nat, s: Step, drift: Drift): AlertRun {
    AlertRun(index, s.window, s.current, s.baseline, drift)
  }

  method PersistRuns(steps: seq<Step>, results: seq<StepResult>) returns (runs: seq<AlertRun>)
    requires |steps| == |results|
    ensures |runs| == |steps|
    ensures forall i :: 0 <= i < |steps| ==> runs[i] == RunFor(i, steps[i], results[i].drift)
  {
    runs := [];
    for i := 0 to |results|
      invariant |runs| == i
      invariant forall j :: 0 <= j < i ==> runs[j] == RunFor(j, steps[j], results[j].drift)
    {
      runs := runs + [RunFor(i, steps[i], results[i].drift)];
    }
  }

  /** The request sorts its steps, has them evaluated (which sorts a copy again), and pairs steps with results by index:
      for any steps, run i is the sorted step i with its own drift. */
  method PairRuns(built: seq<Step>, thresholds: Thresholds, guardrails: Guardrails) returns (res: Result<seq<AlertRun>>)
    ensures res.Ok? <==> built != [] && forall s :: s in built ==> Evaluates(s, thresholds, guardrails)
    ensures res.Ok? ==> |res.value| == |built| == |StableSort(StepBefore, built)|
    ensures res.Ok? ==> forall i :: 0 <= i < |built| ==>
      var s := StableSort(StepBefore, built)[i];
      Evaluates(s, thresholds, guardrails) && res.value[i] == RunFor(i, s, DriftFor(s, thresholds, guardrails))
  {
    var steps := StableSort(StepBefore, built);
    SecondSortIsIdentity(built);
    SortKeepsMembers(built);
    var evaluated := EvaluateRollingDrift(steps, thresholds, guardrails);
    if evaluated.Err? {
      return Err(evaluated.message);
    }
    var runs := PersistRuns(steps, evaluated.value);
    return Ok(runs);
  }

  method RunAlerts(load: Loader, anchor: Option<int>, windowDays: int, stepCount: int, requested: int,
                   thresholds: Thresholds, guardrails: Guardrails) returns (res: Result<seq<AlertRun>>)
    ensures res.Ok? <==> ValidRolling(anchor, windowDays, stepCount) && ResolveBucketCount(requested).Ok? && Resolvable(thresholds, guardrails)
    ensures res.Ok? ==> |res.value| == stepCount
    ensures res.Ok? ==> forall i :: 0 <= i < stepCount ==>
      var step := StepFor(load, WindowAt(anchor.value, windowDays, stepCount, i), ResolveBucketCount(requested).value);
      Evaluates(step, thresholds, guardrails) && res.value[i] == RunFor(i, step, DriftFor(step, thresholds, guardrails))
  {
    var windows := BuildRollingWindows(anchor, windowDays, stepCount);
    if windows.Err? {
      return Err(windows.message);
    }
    var built := BuildSteps(load, windows.value, requested);
    if built.Err? {
      return Err(built.message);
    }
    BuiltStepsAscend(built.value, anchor.value, windowDays, stepCount);
    SortedIsFixed(StepBefore, built.value);
    forall i | 0 <= i < stepCount
      ensures Evaluates(built.value[i], thresholds, guardrails) <==> Resolvable(thresholds, guardrails)
    {
      BuiltStepEvaluates(load, windows.value[i], ResolveBucketCount(requested).value, thresholds, guardrails);
    }
    assert built.value[0] in built.value;
    res := PairRuns(built.value, thresholds, guardrails);
  }

  /** The window's current block is the `windowDays` whole days that end `back` days before the anchor's day, and its
      baseline the `windowDays` days before those. */
  predicate CoversBlocks(w: Window, anchor: int, windowDays: int, back: int) {
    && w.currentTo % 86400 == 0 && w.currentTo <= anchor - back * 86400 < w.currentTo + 86400
    && w.currentFrom == w.currentTo - (windowDays - 1) * 86400
    && w.baselineTo == w.currentFrom - 86400
    && w.baselineFrom == w.baselineTo - (windowDays - 1) * 86400
  }

  /** The run reports the rows of its own two blocks, and the drift from the one to the other. */
  ghost predicate RunReports(run: AlertRun, load: Loader, bucketCount: nat, thresholds: Thresholds, guardrails: Guardrails) {
    && Reports(run.current, load(run.window.currentFrom, run.window.currentTo), bucketCount)
    && Reports(run.baseline, load(run.window.baselineFrom, run.window.baselineTo), bucketCount)
    && Alerts(run.current, run.baseline, thresholds, guardrails, run.drift)
  }

  lemma WindowCovers(anchor: int, windowDays: int, steps: int, i: int)
    ensures CoversBlocks(WindowAt(anchor, windowDays, steps, i), anchor, windowDays, steps - 1 - i)
  {
    WholeDay(anchor / DAY - (steps - 1 - i));
  }

  lemma StepReports(load: Loader, w: Window, bucketCount: nat, thresholds: Thresholds, guardrails: Guardrails, i: nat)
    requires bucketCount > 0 && Evaluates(StepFor(load, w, bucketCount), thresholds, guardrails)
    ensures var s := StepFor(load, w, bucketCount);
            RunReports(RunFor(i, s, DriftFor(s, thresholds, guardrails)), load, bucketCount, thresholds, guardrails)
  {
    ReportMeans(load(w.currentFrom, w.currentTo), bucketCount);
    ReportMeans(load(w.baselineFrom, w.baselineTo), bucketCount);
    var s := StepFor(load, w, bucketCount);
    DriftMeans(s.current, s.baseline, thresholds, guardrails);
  }

  /** Every persisted run holds its own window, the reports of its own two blocks of rows, and the drift between exactly
      those; past input validation the request cannot fail. */
  method HandleRollingAlerts(load: Loader, anchor: Option<int>, windowDays: int, stepCount: int, requested: int,
                             thresholds: Thresholds, guardrails: Guardrails) returns (res: Result<seq<AlertRun>>)
    ensures res.Ok? <==>
      && anchor.Some? && 1 <= windowDays <= 365 && 1 <= stepCount <= 90 && 0 <= requested <= 20
      && Resolvable(thresholds, guardrails)
    ensures res.Ok? ==> |res.value| == stepCount
    ensures res.Ok? ==> forall i :: 0 <= i < stepCount ==>
      && res.value[i].index == i && CoversBlocks(res.value[i].window, anchor.value, windowDays, stepCount - 1 - i)
      && RunReports(res.value[i], load, if requested == 0 then 10 else requested, thresholds, guardrails)
  {
    res := RunAlerts(load, anchor, windowDays, stepCount, requested, thresholds, guardrails);
    if res.Ok? {
      ghost var runs, count := res.value, ResolveBucketCount(requested).value;
      forall i | 0 <= i < stepCount
        ensures runs[i].index == i && CoversBlocks(runs[i].window, anchor.value, windowDays, stepCount - 1 - i)
        ensures RunReports(runs[i], load, count, thresholds, guardrails)
      {
        WindowCovers(anchor.value, windowDays, stepCount, i);
        StepReports(load, WindowAt(anchor.value, windowDays, stepCount, i), count, thresholds, guardrails, i);
      }
    }
  }

  /** Two reports of one request always have the same buckets. */
  lemma BuiltStepEvaluates(load: Loader, w: Window, bucketCount: nat, thresholds: Thresholds, guardrails: Guardrails)
    ensures Evaluates(StepFor(load, w, bucketCount), thresholds, guardrails) <==> Resolvable(thresholds, guardrails)
  {
  }

  // ---- main results ----

  /** Reasons are never empty and say "within thresholds" exactly at level OK. */
  lemma ReasonsMatchLevel(current: Report, baseline: Report, t: Thresholds, g: Guardrails)
    ensures ReasonsOf(current, baseline, t, g) != []
    ensures LevelOf(current, baseline, t, g).LevelOk? <==> ReasonsOf(current, baseline, t, g) == [WithinThresholds]
  {
    ShortBucketsSome(current.buckets, g.minPerBucket);
    ShortBucketsSome(baseline.buckets, g.minPerBucket);
    var reasons := ReasonsOf(current, baseline, t, g);
    assert reasons[0] == WithinThresholds <==> LevelOf(current, baseline, t, g).LevelOk?;
  }

  lemma StepOrderIsStrictWeak()
    ensures StrictWeakOrder(StepBefore)
  {
  }

  /** A result's window has each bound moved back to its own midnight. */
  lemma NormalizedMeans(w: Window)
    ensures var n := Normalized(w);
            && n.currentFrom % 86400 == 0 && n.currentFrom <= w.currentFrom < n.currentFrom + 86400
            && n.currentTo % 86400 == 0 && n.currentTo <= w.currentTo < n.currentTo + 86400
            && n.baselineFrom % 86400 == 0 && n.baselineFrom <= w.baselineFrom < n.baselineFrom + 86400
            && n.baselineTo % 86400 == 0 && n.baselineTo <= w.baselineTo < n.baselineTo + 86400
  {
  }

  /** The sorted steps ascend by the end of the current block, then its start, then the baseline's end, then its start. */
  lemma SortedStepsAscend(steps: seq<Step>, i: nat, j: nat)
    requires i < j < |steps|
    ensures |StableSort(StepBefore, steps)| == |steps|
    ensures var a, b := StableSort(StepBefore, steps)[i].window, StableSort(StepBefore, steps)[j].window;
            && a.currentTo <= b.currentTo
            && (a.currentTo == b.currentTo ==> a.currentFrom <= b.currentFrom)
            && (a.currentTo == b.currentTo && a.currentFrom == b.currentFrom ==> a.baselineTo <= b.baselineTo)
            && (a.currentTo == b.currentTo && a.currentFrom == b.currentFrom && a.baselineTo == b.baselineTo ==> a.baselineFrom <= b.baselineFrom)
  {
    StepOrderIsStrictWeak();
    SortPermutes(StepBefore, steps);
    SortSorts(StepBefore, steps);
    var sorted := StableSort(StepBefore, steps);
    assert !StepBefore(sorted[j], sorted[i]);
  }

  /** Whatever steps the request holds, sorting them a second time moves nothing: result i is the drift of sorted step i. */
  lemma SecondSortIsIdentity(steps: seq<Step>)
    ensures StableSort(StepBefore, StableSort(StepBefore, steps)) == StableSort(StepBefore, steps)
  {
    StepOrderIsStrictWeak();
    SortSorts(StepBefore, steps);
    SortedIsFixed(StepBefore, StableSort(StepBefore, steps));
  }

  /** Baseline and current are adjacent disjoint blocks of `windowDays` whole days, the last current block ends on the
      anchor's day, and each window is the previous one moved by exactly one day. */
  lemma WindowsAreAdjacentBlocks(anchor: int, windowDays: int, steps: int, i: int)
    requires 1 <= windowDays && 0 <= i < steps
    ensures var w := WindowAt(anchor, windowDays, steps, i);
            && w.baselineFrom <= w.baselineTo < w.currentFrom <= w.currentTo
            && w.baselineTo + DAY == w.currentFrom
            && w.currentTo + DAY - w.currentFrom == w.baselineTo + DAY - w.baselineFrom == windowDays * DAY
            && Normalized(w) == w
            && (i == steps - 1 ==> w.currentTo <= anchor < w.currentTo + DAY)
            && (i + 1 < steps ==>
                  WindowAt(anchor, windowDays, steps, i + 1)
                  == Window(w.currentFrom + DAY, w.currentTo + DAY, w.baselineFrom + DAY, w.baselineTo + DAY))
  {
    var w := WindowAt(anchor, windowDays, steps, i);
    var day := anchor / DAY;
    WholeDay(day - (steps - 1 - i));
    WholeDay(day - (steps - 1 - i) - (windowDays - 1));
    WholeDay(day - (steps - 1 - i) - windowDays);
    WholeDay(day - (steps - 1 - i) - windowDays - (windowDays - 1));
  }

  lemma WholeDay(day: int)
    ensures DayStart(day * DAY) == day * DAY
  {
  }

  lemma BuiltStepsAscend(steps: seq<Step>, anchor: int, windowDays: int, stepCount: int)
    requires |steps| == stepCount
    requires forall i :: 0 <= i < stepCount ==> steps[i].window == WindowAt(anchor, windowDays, stepCount, i)
    ensures Sorted(StepBefore, steps)
  {
    forall i, j | 0 <= i < j < stepCount ensures !StepBefore(steps[j], steps[i]) {
      assert steps[i].window == WindowAt(anchor, windowDays, stepCount, i);
      assert steps[j].window == WindowAt(anchor, windowDays, stepCount, j);
    }
  }

  /** Exchanging current and baseline never changes the alert level: an improvement alarms exactly like a decline. */
  lemma SwapKeepsLevel(current: Report, baseline: Report, t: Thresholds, g: Guardrails)
    ensures LevelOf(current, baseline, t, g) == LevelOf(baseline, current, t, g)
  {
  }

  function Severity(level: Level): int {
    match level
    case LevelOk => 0
    case LevelWarn => 1
    case LevelCritical => 2
    case InsufficientSample => -1
  }

  /** With enough samples the level is OK for equal reports, and moving either measure further never lowers it. */
  lemma LevelFollowsDistance(current: Report, other: Report, baseline: Report, thresholds: Thresholds, g: Guardrails)
    requires ResolveThresholds(thresholds).Ok?
    requires !Insufficient(current, baseline, g) && !Insufficient(other, baseline, g)
    requires Abs(current.summary.ece - baseline.summary.ece) <= Abs(other.summary.ece - baseline.summary.ece)
    requires Abs(current.summary.brier - baseline.summary.brier) <= Abs(other.summary.brier - baseline.summary.brier)
    ensures var t := ResolveThresholds(thresholds).value;
            && Severity(LevelOf(current, baseline, t, g)) <= Severity(LevelOf(other, baseline, t, g))
            && LevelOf(baseline, baseline, t, g).LevelOk?
  {
    assert !Insufficient(baseline, baseline, g);
  }
}
