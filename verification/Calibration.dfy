/** The rank-bucket calibration report of internal/decision/calibration.go. */
module Calibration {
  import opened Wrappers
  import opened Reals
  import opened Grouping
  import opened Sorting
  import Text

  const DEFAULT_BUCKET_COUNT := 10
  const MAX_BUCKET_COUNT := 20

  datatype Row = Row(id: int, rank: real, expected: real, outcome: string, clv: Option<real>)

  datatype Bucket = Bucket(
    index: nat, rankMin: Option<real>, rankMax: Option<real>, count: nat, settled: nat,
    observedRate: real, expectedRate: real, gap: real, brier: real, averageClv: real)

  datatype Summary = Summary(
    totalRows: nat, settledRows: nat, excludedRows: int,
    observedRate: real, expectedRate: real, brier: real, ece: real, averageClv: real)

  datatype Report = Report(bucketCount: nat, summary: Summary, buckets: seq<Bucket>)

  /** What one bucket (or the whole table) has accumulated. */
  datatype Tally = Tally(
    rankMin: Option<real>, rankMax: Option<real>, count: nat, settled: nat,
    observed: real, expected: real, brier: real, clvSum: real, clvCount: nat)

  const EMPTY_TALLY := Tally(None, None, 0, 0, 0.0, 0.0, 0.0, 0.0, 0)

  function ResolveBucketCount(requested: int): Result<nat> {
    if requested == 0 then Ok(DEFAULT_BUCKET_COUNT)
    else if requested < 1 || requested > MAX_BUCKET_COUNT then Err("invalid bucket_count")
    else Ok(requested)
  }

  /** 1 for a win, 0 for a loss; pushes, voids and unknowns are not settled outcomes. */
  function OutcomeValue(outcome: string): Option<real> {
    if Text.Normalize(outcome) == "win" then Some(1.0)
    else if Text.Normalize(outcome) == "loss" then Some(0.0)
    else None
  }

  /** A row enters the rates only with a win/loss outcome and a probability in [0,1]. */
  predicate Settles(row: Row) {
    OutcomeValue(row.outcome).Some? && 0.0 <= row.expected <= 1.0
  }

  function Observed(row: Row): real {
    if Settles(row) then OutcomeValue(row.outcome).value else 0.0
  }

  function Expected(row: Row): real {
    if Settles(row) then row.expected else 0.0
  }

  function Error(row: Row): real {
    Observed(row) - Expected(row)
  }

  // ---- the ordering ----

  datatype Placed = Placed(row: Row, original: nat)

  predicate RanksBefore(a: Placed, b: Placed) {
    if a.row.rank != b.row.rank then a.row.rank > b.row.rank
    else if a.row.id != b.row.id then a.row.id < b.row.id
    else a.original < b.original
  }

  function Indexed(rows: seq<Row>): (placed: seq<Placed>)
    ensures |placed| == |rows|
  {
    seq(|rows|, i requires 0 <= i < |rows| => Placed(rows[i], i))
  }

  function RowsOf(placed: seq<Placed>): (rows: seq<Row>)
    ensures |rows| == |placed|
  {
    seq(|placed|, i requires 0 <= i < |placed| => placed[i].row)
  }

  /** The rows as the report walks them: best rank first, then by id, then as given. */
  function Ranked(rows: seq<Row>): seq<Row> {
    RowsOf(StableSort(RanksBefore, Indexed(rows)))
  }

  // ---- the accumulation, as a function of the ranked rows ----

  /** Bucket of each of `n` ranked rows when there are `k` buckets. */
  function BucketOf(n: nat, k: nat): (groups: seq<int>)
    ensures |groups| == n
  {
    seq(n, i requires 0 <= i < n => (i * k) / n)
  }

  function AddRow(t: Tally, row: Row): Tally {
    var ranged := t.(
      count := t.count + 1,
      rankMin := if t.rankMin.None? || row.rank < t.rankMin.value then Some(row.rank) else t.rankMin,
      rankMax := if t.rankMax.None? || row.rank > t.rankMax.value then Some(row.rank) else t.rankMax);
    if !Settles(row) then ranged
    else ranged.(
      settled := t.settled + 1,
      observed := t.observed + Observed(row),
      expected := t.expected + Expected(row),
      brier := t.brier + Error(row) * Error(row),
      clvSum := t.clvSum + (if row.clv.Some? then row.clv.value else 0.0),
      clvCount := t.clvCount + (if row.clv.Some? then 1 else 0))
  }

  /** The tally of the rows in bucket `b`. */
  function TallyOf(rows: seq<Row>, groups: seq<int>, b: int): Tally
    requires |rows| == |groups|
  {
    if rows == [] then EMPTY_TALLY
    else
      var n := |rows| - 1;
      var t := TallyOf(rows[..n], groups[..n], b);
      if groups[n] == b then AddRow(t, rows[n]) else t
  }

  /** The tally of every row. */
  function Overall(rows: seq<Row>): Tally {
    TallyOf(rows, seq(|rows|, _ => 0), 0)
  }

  function BucketFrom(index: nat, t: Tally): Bucket {
    var n := t.settled as real;
    var clv := if t.clvCount > 0 then t.clvSum / t.clvCount as real else 0.0;
    if t.settled == 0 then Bucket(index, t.rankMin, t.rankMax, t.count, 0, 0.0, 0.0, 0.0, 0.0, clv)
    else Bucket(index, t.rankMin, t.rankMax, t.count, t.settled,
                t.observed / n, t.expected / n, t.observed / n - t.expected / n, t.brier / n, clv)
  }

  /** The settled-weighted absolute gaps of the first `m` buckets. */
  function WeightedGaps(buckets: seq<Bucket>, total: nat, m: nat): real
    requires m <= |buckets| && total > 0
  {
    if m == 0 then 0.0
    else
      var b := buckets[m - 1];
      WeightedGaps(buckets, total, m - 1)
      + (if b.settled == 0 then 0.0 else Abs(b.gap) * (b.settled as real / total as real))
  }

  function SummaryFrom(total: nat, t: Tally, buckets: seq<Bucket>): Summary {
    var n := t.settled as real;
    var clv := if t.clvCount > 0 then t.clvSum / t.clvCount as real else 0.0;
    if t.settled == 0 then Summary(total, 0, total, 0.0, 0.0, 0.0, 0.0, clv)
    else Summary(total, t.settled, total - t.settled, t.observed / n, t.expected / n, t.brier / n,
                 WeightedGaps(buckets, t.settled, |buckets|), clv)
  }

  function BucketsOf(ranked: seq<Row>, k: nat): (buckets: seq<Bucket>)
    ensures |buckets| == k
  {
    seq(k, b requires 0 <= b < k => BucketFrom(b, TallyOf(ranked, BucketOf(|ranked|, k), b)))
  }

  /** The report over rows already in rank order. */
  function ReportOf(ranked: seq<Row>, k: nat): Report {
    Report(k, SummaryFrom(|ranked|, Overall(ranked), BucketsOf(ranked, k)), BucketsOf(ranked, k))
  }

  // ---- the computation ----

  lemma BucketInRange(i: nat, n: nat, k: nat)
    requires i < n && k > 0
    ensures 0 <= (i * k) / n < k
  {
    var q := (i * k) / n;
    assert i * k < n * k;
    assert n * q <= i * k;
    if q >= k {
      IntProductMonotone(n, k, q);
    }
  }

  lemma GroupsInRange(n: nat, k: nat)
    requires k > 0
    ensures GroupsBelow(BucketOf(n, k), k)
  {
    forall i | 0 <= i < n
      ensures 0 <= BucketOf(n, k)[i] < k
    {
      BucketInRange(i, n, k);
    }
  }

  lemma TallyStep(rows: seq<Row>, groups: seq<int>, i: nat, b: int)
    requires |rows| == |groups| && i < |rows|
    ensures var t := TallyOf(rows[..i], groups[..i], b);
            TallyOf(rows[..i + 1], groups[..i + 1], b) == if groups[i] == b then AddRow(t, rows[i]) else t
  {
    assert rows[..i + 1][..i] == rows[..i] && groups[..i + 1][..i] == groups[..i];
  }

  lemma OverallStep(rows: seq<Row>, i: nat)
    requires i < |rows|
    ensures Overall(rows[..i + 1]) == AddRow(Overall(rows[..i]), rows[i])
  {
    var zeros := seq(|rows|, _ => 0);
    assert zeros[..i + 1] == seq(i + 1, _ => 0) && zeros[..i] == seq(i, _ => 0);
    TallyStep(rows, zeros, i, 0);
  }

  function UpdateRankRange(t: Tally, score: real): Tally {
    var low := if t.rankMin.None? || score < t.rankMin.value then t.(rankMin := Some(score)) else t;
    if low.rankMax.None? || score > low.rankMax.value then low.(rankMax := Some(score)) else low
  }

  method Absorb(tally: Tally, row: Row) returns (t: Tally)
    ensures t == AddRow(tally, row)
  {
    t := UpdateRankRange(tally.(count := tally.count + 1), row.rank);
    var outcome := OutcomeValue(row.outcome);
    if outcome.None? || row.expected < 0.0 || row.expected > 1.0 {
      return;
    }
    var miss := row.expected - outcome.value;
    t := t.(settled := t.settled + 1, observed := t.observed + outcome.value,
            expected := t.expected + row.expected, brier := t.brier + miss * miss);
    if row.clv.Some? {
      t := t.(clvSum := t.clvSum + row.clv.value, clvCount := t.clvCount + 1);
    }
  }

  /** One pass over the ranked rows, updating the row's own bucket and the running total. */
  method Accumulate(ranked: seq<Row>, k: nat) returns (tallies: seq<Tally>, total: Tally)
    requires k > 0
    ensures |tallies| == k
    ensures forall b :: 0 <= b < k ==> tallies[b] == TallyOf(ranked, BucketOf(|ranked|, k), b)
    ensures total == Overall(ranked)
  {
    var n := |ranked|;
    ghost var groups := BucketOf(n, k);
    var acc := new Tally[k](_ => EMPTY_TALLY);
    total := EMPTY_TALLY;
    for i := 0 to n
      invariant forall b :: 0 <= b < k ==> acc[b] == TallyOf(ranked[..i], groups[..i], b)
      invariant total == Overall(ranked[..i])
    {
      BucketInRange(i, n, k);
      var index := (i * k) / n;
      var grown := Absorb(acc[index], ranked[i]);
      total := Absorb(total, ranked[i]);
      OverallStep(ranked, i);
      forall b | 0 <= b < k
        ensures TallyOf(ranked[..i + 1], groups[..i + 1], b) == if b == index then grown else acc[b]
      {
        TallyStep(ranked, groups, i, b);
      }
      acc[index] := grown;
    }
    assert ranked[..n] == ranked && groups[..n] == groups;
    tallies := acc[..];
  }

  method ExpectedCalibrationError(buckets: seq<Bucket>, total: nat) returns (ece: real)
    requires total > 0
    ensures ece == WeightedGaps(buckets, total, |buckets|)
  {
    ece := 0.0;
    for b := 0 to |buckets|
      invariant ece == WeightedGaps(buckets, total, b)
    {
      if buckets[b].settled != 0 {
        var weight := buckets[b].settled as real / total as real;
        ece := ece + Abs(buckets[b].gap) * weight;
      }
    }
  }
}
