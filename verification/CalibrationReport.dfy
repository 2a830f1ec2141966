/** What the calibration report says about its rows, in counts and sums of the rows themselves. */
module CalibrationReport {
  import opened Wrappers
  import opened Reals
  import opened Grouping
  import opened Sorting
  import opened Counting
  import opened Calibration
  import opened CalibrationLaws
  import opened CalibrationPartition
  import Text

  // ---- the rows that count ----

  predicate HasProbability(row: Row) {
    0.0 <= row.expected <= 1.0
  }

  predicate Won(row: Row) {
    Text.Normalize(row.outcome) == "win" && HasProbability(row)
  }

  predicate Lost(row: Row) {
    Text.Normalize(row.outcome) == "loss" && HasProbability(row)
  }

  predicate Graded(row: Row) {
    Won(row) || Lost(row)
  }

  predicate HasClv(row: Row) {
    Graded(row) && row.clv.Some?
  }

  function ExpectedOf(row: Row): real {
    row.expected
  }

  function ClvOf(row: Row): real {
    if row.clv.Some? then row.clv.value else 0.0
  }

  /** The squared miss of a win and of a loss. */
  function WinMiss(row: Row): real {
    (1.0 - row.expected) * (1.0 - row.expected)
  }

  function LossMiss(row: Row): real {
    row.expected * row.expected
  }

  /** The tally counts its wins and losses and sums their probabilities, squared misses and closing-line values. */
  ghost predicate Tallies(t: Tally, rows: seq<Row>) {
    && t.count == |rows|
    && t.settled == CountIf(rows, Won) + CountIf(rows, Lost)
    && t.observed == CountIf(rows, Won) as real
    && t.expected == SumIf(rows, Graded, ExpectedOf)
    && t.brier == SumIf(rows, Won, WinMiss) + SumIf(rows, Lost, LossMiss)
    && t.clvSum == SumIf(rows, HasClv, ClvOf)
    && t.clvCount == CountIf(rows, HasClv)
  }

  lemma SettlesMeans(row: Row)
    ensures Settles(row) <==> Graded(row)
    ensures Won(row) ==> !Lost(row) && Observed(row) == 1.0 && Error(row) * Error(row) == WinMiss(row)
    ensures Lost(row) ==> Observed(row) == 0.0 && Error(row) * Error(row) == LossMiss(row)
    ensures Graded(row) ==> Expected(row) == row.expected
  {
  }

  lemma TalliesStep(t: Tally, rows: seq<Row>, row: Row)
    requires Tallies(t, rows)
    ensures Tallies(AddRow(t, row), rows + [row])
  {
    assert (rows + [row])[..|rows|] == rows;
    SettlesMeans(row);
  }

  lemma {:induction false} OverallTallies(rows: seq<Row>)
    ensures Tallies(Overall(rows), rows)
  {
    if rows != [] {
      var n := |rows| - 1;
      OverallTallies(rows[..n]);
      OverallStep(rows, n);
      TalliesStep(Overall(rows[..n]), rows[..n], rows[n]);
      assert rows == rows[..n] + [rows[n]] && rows[..n + 1] == rows;
    }
  }

  // ---- a bucket is a slice of the ranking ----

  /** The part of bucket `b` among the first `m` ranked rows. */
  function SliceOf(rows: seq<Row>, b: nat, k: nat, m: nat): seq<Row>
    requires b < k && m <= |rows|
  {
    var low, high := FirstOf(b, |rows|, k), FirstOf(b + 1, |rows|, k);
    if m <= low || high < low then [] else rows[low..if m < high then m else high]
  }

  lemma SliceStep(rows: seq<Row>, b: nat, k: nat, m: nat)
    requires b < k && m < |rows|
    ensures SliceOf(rows, b, k, m + 1)
         == SliceOf(rows, b, k, m) + if BucketOf(|rows|, k)[m] == b then [rows[m]] else []
  {
    FirstOfMonotone(b, b + 1, |rows|, k);
    BucketIsInterval(m, b, |rows|, k);
    BucketIsInterval(m, b + 1, |rows|, k);
  }

  lemma OverallOfOneMore(rows: seq<Row>, row: Row)
    ensures Overall(rows + [row]) == AddRow(Overall(rows), row)
  {
    OverallStep(rows + [row], |rows|);
    assert (rows + [row])[..|rows|] == rows && (rows + [row])[..|rows| + 1] == rows + [row];
  }

  lemma {:induction false} BucketPrefixIsSlice(rows: seq<Row>, b: nat, k: nat, m: nat)
    requires b < k && m <= |rows|
    ensures TallyOf(rows[..m], BucketOf(|rows|, k)[..m], b) == Overall(SliceOf(rows, b, k, m))
  {
    if m > 0 {
      BucketPrefixIsSlice(rows, b, k, m - 1);
      TallyStep(rows, BucketOf(|rows|, k), m - 1, b);
      SliceStep(rows, b, k, m - 1);
      OverallOfOneMore(SliceOf(rows, b, k, m - 1), rows[m - 1]);
      assert SliceOf(rows, b, k, m - 1) + [] == SliceOf(rows, b, k, m - 1);
    }
  }

  /** The ranked rows of bucket `b` of `k`: from b*n/k, rounded up, to the next bucket's first. */
  ghost function BucketRows(ranked: seq<Row>, k: nat, b: nat): seq<Row>
    requires b < k
  {
    FirstOfMonotone(b, b + 1, |ranked|, k);
    LastBucketEnds(b, |ranked|, k);
    ranked[(b * |ranked| + k - 1) / k..((b + 1) * |ranked| + k - 1) / k]
  }

  lemma BucketIsSlice(rows: seq<Row>, b: nat, k: nat)
    requires b < k
    ensures TallyOf(rows, BucketOf(|rows|, k), b) == Overall(BucketRows(rows, k, b))
  {
    var n := |rows|;
    FirstOfMonotone(b, b + 1, n, k);
    LastBucketEnds(b, n, k);
    BucketPrefixIsSlice(rows, b, k, n);
    assert rows[..n] == rows && BucketOf(n, k)[..n] == BucketOf(n, k);
    assert SliceOf(rows, b, k, n) == BucketRows(rows, k, b);
  }

  // ---- rates ----

  /** The figures are the means of these rows. */
  ghost predicate RatesOf(rows: seq<Row>, settled: nat, observedRate: real, expectedRate: real, brier: real, averageClv: real) {
    && settled == CountIf(rows, Won) + CountIf(rows, Lost)
    && observedRate == Mean(CountIf(rows, Won) as real, settled)
    && expectedRate == Mean(SumIf(rows, Graded, ExpectedOf), settled)
    && brier == Mean(SumIf(rows, Won, WinMiss) + SumIf(rows, Lost, LossMiss), settled)
    && averageClv == Mean(SumIf(rows, HasClv, ClvOf), CountIf(rows, HasClv))
  }

  lemma RatesOfTally(rows: seq<Row>, index: nat)
    ensures var b := BucketFrom(index, Overall(rows));
            && b.index == index && b.count == |rows| && b.gap == b.observedRate - b.expectedRate
            && RatesOf(rows, b.settled, b.observedRate, b.expectedRate, b.brier, b.averageClv)
  {
    OverallTallies(rows);
  }

  // ---- rank ranges ----

  lemma RangeOfSlice(rows: seq<Row>)
    requires RankedDown(rows)
    ensures Overall(rows).rankMax == (if rows == [] then None else Some(rows[0].rank))
    ensures Overall(rows).rankMin == (if rows == [] then None else Some(rows[|rows| - 1].rank))
  {
    var zeros := seq(|rows|, _ => 0);
    TallyRankRange(rows, zeros, 0);
    if rows != [] {
      assert zeros[0] == 0 && zeros[|rows| - 1] == 0;
      var t := Overall(rows);
      var i :| 0 <= i < |rows| && zeros[i] == 0 && rows[i].rank == t.rankMin.value;
      var j :| 0 <= j < |rows| && zeros[j] == 0 && rows[j].rank == t.rankMax.value;
    }
  }

  // ---- the ranking ----

  lemma {:induction false} RowsOfInsertOrder(x: Placed, s: seq<Placed>)
    requires forall i :: 0 <= i < |s| ==> x.original < s[i].original
    ensures RowsOf(Insert(RanksBefore, x, s)) == Insert(RowBefore, x.row, RowsOf(s))
  {
    if s != [] {
      assert RowsOf(s)[1..] == RowsOf(s[1..]);
      if RanksBefore(s[0], x) {
        RowsOfInsertOrder(x, s[1..]);
        assert RowsOf([s[0]] + Insert(RanksBefore, x, s[1..])) == [s[0].row] + RowsOf(Insert(RanksBefore, x, s[1..]));
      } else {
        assert RowsOf([x] + s) == [x.row] + RowsOf(s);
      }
    }
  }

  lemma {:induction false} RowsOfSortOrder(s: seq<Placed>)
    requires forall i, j :: 0 <= i < j < |s| ==> s[i].original < s[j].original
    ensures RowsOf(StableSort(RanksBefore, s)) == StableSort(RowBefore, RowsOf(s))
  {
    if s != [] {
      RowsOfSortOrder(s[1..]);
      var rest := StableSort(RanksBefore, s[1..]);
      SortPermutes(RanksBefore, s[1..]);
      forall i | 0 <= i < |rest| ensures s[0].original < rest[i].original {
        assert rest[i] in multiset(rest);
        assert rest[i] in s[1..];
      }
      RowsOfInsertOrder(s[0], rest);
      assert RowsOf(s)[1..] == RowsOf(s[1..]);
    }
  }

  /** The ranking is the stable arrangement of the given rows with the best rank first and equal ranks by ascending id. */
  lemma RankedMeans(rows: seq<Row>)
    ensures Ranked(rows) == StableSort(RowBefore, rows) && multiset(Ranked(rows)) == multiset(rows)
    ensures |Ranked(rows)| == |rows|
    ensures forall i, j :: 0 <= i < j < |rows| ==>
      var a, b := Ranked(rows)[i], Ranked(rows)[j]; a.rank > b.rank || (a.rank == b.rank && a.id <= b.id)
  {
    RowsOfSortOrder(Indexed(rows));
    assert RowsOf(Indexed(rows)) == rows;
    RankedPermutes(rows);
    RankedIsDescending(rows);
    RankedSorted(rows);
    var ranked := Ranked(rows);
    forall i, j | 0 <= i < j < |rows|
      ensures ranked[i].rank > ranked[j].rank || (ranked[i].rank == ranked[j].rank && ranked[i].id <= ranked[j].id)
    {
      assert !RowBefore(ranked[j], ranked[i]);
    }
  }

  // ---- the report ----

  /** The bucket describes these rows, which come in rank order. */
  ghost predicate Describes(bucket: Bucket, rows: seq<Row>) {
    && bucket.count == |rows|
    && bucket.gap == bucket.observedRate - bucket.expectedRate
    && RatesOf(rows, bucket.settled, bucket.observedRate, bucket.expectedRate, bucket.brier, bucket.averageClv)
    && bucket.rankMax == (if rows == [] then None else Some(rows[0].rank))
    && bucket.rankMin == (if rows == [] then None else Some(rows[|rows| - 1].rank))
  }

  lemma SliceDescribed(t: Tally, index: nat, rows: seq<Row>)
    requires t == Overall(rows) && RankedDown(rows)
    ensures BucketFrom(index, t).index == index && Describes(BucketFrom(index, t), rows)
  {
    RatesOfTally(rows, index);
    RangeOfSlice(rows);
  }

  lemma SliceRanksDown(ranked: seq<Row>, low: nat, high: nat)
    requires low <= high <= |ranked| && RankedDown(ranked)
    ensures RankedDown(ranked[low..high])
  {
  }

  lemma BucketDescribes(ranked: seq<Row>, k: nat, b: nat)
    requires b < k && RankedDown(ranked)
    ensures ReportOf(ranked, k).buckets[b].index == b
    ensures Describes(ReportOf(ranked, k).buckets[b], BucketRows(ranked, k, b))
  {
    BucketIsSlice(ranked, b, k);
    BucketIsTally(ranked, k, b);
    FirstOfMonotone(b, b + 1, |ranked|, k);
    LastBucketEnds(b, |ranked|, k);
    SliceRanksDown(ranked, FirstOf(b, |ranked|, k), FirstOf(b + 1, |ranked|, k));
    SliceDescribed(TallyOf(ranked, BucketOf(|ranked|, k), b), b, BucketRows(ranked, k, b));
  }

  /** How many more wins there were than the probabilities promised. */
  ghost function Surplus(rows: seq<Row>): real {
    CountIf(rows, Won) as real - SumIf(rows, Graded, ExpectedOf)
  }

  ghost function Surpluses(ranked: seq<Row>, k: nat): (xs: seq<real>)
    ensures |xs| == k
  {
    seq(k, b requires 0 <= b < k => Surplus(BucketRows(ranked, k, b)))
  }

  lemma SurplusIsError(ranked: seq<Row>, k: nat, b: nat)
    requires b < k
    ensures Surplus(BucketRows(ranked, k, b)) == BucketErrors(ranked, k)[b]
  {
    TallyDifference(ranked, BucketOf(|ranked|, k), b);
    BucketIsSlice(ranked, b, k);
    OverallTallies(BucketRows(ranked, k, b));
  }

  /** The summary's figures are those of all the rows, in whatever order, and its ECE adds up how far each bucket misses. */
  ghost predicate SumsUp(s: Summary, rows: seq<Row>, surpluses: seq<real>) {
    && s.totalRows == |rows| && s.excludedRows == |rows| - s.settledRows
    && RatesOf(rows, s.settledRows, s.observedRate, s.expectedRate, s.brier, s.averageClv)
    && s.ece == Mean(SumAbs(surpluses), s.settledRows)
  }

  lemma RatesPermuted(rows: seq<Row>, shuffled: seq<Row>, settled: nat, observedRate: real, expectedRate: real, brier: real, averageClv: real)
    requires multiset(rows) == multiset(shuffled)
    requires RatesOf(rows, settled, observedRate, expectedRate, brier, averageClv)
    ensures RatesOf(shuffled, settled, observedRate, expectedRate, brier, averageClv)
  {
    Permuted(rows, shuffled, Won, WinMiss);
    Permuted(rows, shuffled, Lost, LossMiss);
    Permuted(rows, shuffled, Graded, ExpectedOf);
    Permuted(rows, shuffled, HasClv, ClvOf);
  }

  lemma EceOfSummary(ranked: seq<Row>, k: nat)
    ensures var s := ReportOf(ranked, k).summary; s.ece == Mean(SumAbs(Surpluses(ranked, k)), s.settledRows)
  {
    forall b | 0 <= b < k ensures Surplus(BucketRows(ranked, k, b)) == BucketErrors(ranked, k)[b] {
      SurplusIsError(ranked, k, b);
    }
    assert Surpluses(ranked, k) == BucketErrors(ranked, k);
    if Overall(ranked).settled > 0 {
      EceMeaning(ranked, k);
    }
  }

  lemma SummaryMeans(rows: seq<Row>, k: nat)
    ensures SumsUp(ReportOf(Ranked(rows), k).summary, rows, Surpluses(Ranked(rows), k))
  {
    RankedMeans(rows);
    RatesOfTally(Ranked(rows), 0);
    var s := ReportOf(Ranked(rows), k).summary;
    RatesPermuted(Ranked(rows), rows, s.settledRows, s.observedRate, s.expectedRate, s.brier, s.averageClv);
    EceOfSummary(Ranked(rows), k);
  }

  /** The report in terms of its rows: the summary counts all of them, and each bucket its own slice of the ranking. */
  ghost predicate Reports(r: Report, rows: seq<Row>, k: nat) {
    && r.bucketCount == |r.buckets| == k
    && SumsUp(r.summary, rows, Surpluses(Ranked(rows), k))
    && forall b :: 0 <= b < k ==> r.buckets[b].index == b && Describes(r.buckets[b], BucketRows(Ranked(rows), k, b))
  }

  lemma ReportMeans(rows: seq<Row>, k: nat)
    ensures Reports(ReportOf(Ranked(rows), k), rows, k)
  {
    SummaryMeans(rows, k);
    RankedIsDescending(rows);
    forall b | 0 <= b < k
      ensures ReportOf(Ranked(rows), k).buckets[b].index == b
      ensures Describes(ReportOf(Ranked(rows), k).buckets[b], BucketRows(Ranked(rows), k, b))
    {
      BucketDescribes(Ranked(rows), k, b);
    }
  }

  // ---- a perfect forecast ----

  ghost predicate Perfect(rows: seq<Row>) {
    forall i :: 0 <= i < |rows| ==> (Won(rows[i]) ==> rows[i].expected == 1.0) && (Lost(rows[i]) ==> rows[i].expected == 0.0)
  }

  lemma PerfectMissesNothing(rows: seq<Row>)
    requires Perfect(rows)
    ensures SumIf(rows, Won, WinMiss) + SumIf(rows, Lost, LossMiss) == 0.0
  {
    ZerosSum(rows, Won, WinMiss);
    ZerosSum(rows, Lost, LossMiss);
  }

  /** Certainty about every win and every loss, and about nothing that turned out otherwise, is the forecast that scores 0. */
  lemma PerfectForecast(rows: seq<Row>, k: nat)
    requires k > 0 && Perfect(rows)
    ensures var s := ReportOf(Ranked(rows), k).summary; s.brier == 0.0 && s.ece == 0.0
  {
    SummaryMeans(rows, k);
    PerfectBrier(ReportOf(Ranked(rows), k).summary, rows, Surpluses(Ranked(rows), k));
    NoErrorNoEce(rows, k);
  }

  lemma PerfectBrier(s: Summary, rows: seq<Row>, surpluses: seq<real>)
    requires SumsUp(s, rows, surpluses) && Perfect(rows)
    ensures s.brier == 0.0
  {
    PerfectMissesNothing(rows);
  }

  lemma NoErrorNoEce(rows: seq<Row>, k: nat)
    requires k > 0 && ReportOf(Ranked(rows), k).summary.brier == 0.0
    ensures ReportOf(Ranked(rows), k).summary.ece == 0.0
  {
    var s := ReportOf(Ranked(rows), k).summary;
    if Overall(Ranked(rows)).settled > 0 {
      ReportBounds(Ranked(rows), k);
      NoSquareNoValue(s.ece, s.brier);
    }
  }

  lemma NoSquareNoValue(x: real, bound: real)
    requires SquareAtMost(x, bound) && bound == 0.0 && x >= 0.0
    ensures x == 0.0
  {
    SquareReflects(x, 0.0);
  }

  method ComputeRanked(rows: seq<Row>, k: nat) returns (r: Report)
    requires k > 0
    ensures r == ReportOf(Ranked(rows), k)
  {
    var ranked := RowsOf(StableSort(RanksBefore, Indexed(rows)));
    SortPermutes(RanksBefore, Indexed(rows));
    var tallies, total := Accumulate(ranked, k);
    var buckets := seq(k, b requires 0 <= b < k => BucketFrom(b, tallies[b]));
    assert buckets == BucketsOf(ranked, k);
    var ece := 0.0;
    if total.settled > 0 {
      ece := ExpectedCalibrationError(buckets, total.settled);
    }
    var n := total.settled as real;
    var clv := if total.clvCount > 0 then total.clvSum / total.clvCount as real else 0.0;
    var summary :=
      if total.settled == 0 then Summary(|rows|, 0, |rows|, 0.0, 0.0, 0.0, 0.0, clv)
      else Summary(|rows|, total.settled, |rows| - total.settled,
                   total.observed / n, total.expected / n, total.brier / n, ece, clv);
    r := Report(k, summary, buckets);
  }

  /** The computed report, for every input and every bucket count: what was specified, and what that means for the rows. */
  method ComputeReport(rows: seq<Row>, requested: int) returns (res: Result<Report>)
    ensures res.Ok? <==> 0 <= requested <= 20
    ensures res.Ok? ==> Reports(res.value, rows, if requested == 0 then 10 else requested)
    ensures res.Ok? && Perfect(rows) ==> res.value.summary.brier == 0.0 && res.value.summary.ece == 0.0
    ensures res.Ok? ==> res.value == ReportOf(Ranked(rows), if requested == 0 then DEFAULT_BUCKET_COUNT else requested)
  {
    var resolved := ResolveBucketCount(requested);
    if resolved.Err? {
      return Err(resolved.message);
    }
    ReportMeans(rows, resolved.value);
    if Perfect(rows) {
      PerfectForecast(rows, resolved.value);
    }
    var report := ComputeRanked(rows, resolved.value);
    return Ok(report);
  }
}
