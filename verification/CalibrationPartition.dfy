/** Rank buckets are a contiguous, even partition of the ranked rows, and the report does not depend on input order. */
module CalibrationPartition {
  import opened Calibration
  import opened CalibrationLaws
  import opened Wrappers
  import opened Reals
  import opened Grouping
  import opened Sorting

  // ---- even, contiguous buckets ----

  /** The first ranked position that belongs to bucket `b` or later. */
  function FirstOf(b: nat, n: nat, k: nat): nat
    requires k > 0
  {
    (b * n + k - 1) / k
  }

  /** Bucket `b` holds exactly the positions from `FirstOf(b)` up to `FirstOf(b + 1)`. */
  lemma BucketIsInterval(i: nat, b: nat, n: nat, k: nat)
    requires i < n && k > 0
    ensures (i * k) / n >= b <==> i >= FirstOf(b, n, k)
  {
    var q, f := (i * k) / n, FirstOf(b, n, k);
    assert n * q <= i * k < n * q + n;
    assert k * f <= b * n + k - 1 < k * f + k;
    if q >= b {
      IntProductMonotone(n, b, q);
      if f >= i + 1 {
        IntProductMonotone(k, i + 1, f);
      }
    } else {
      IntProductMonotone(n, q + 1, b);
      if i >= f {
        IntProductMonotone(k, f, i);
      }
    }
  }

  lemma FloorGrowth(x: nat, n: nat, k: nat)
    requires k > 0
    ensures n / k <= (x + n) / k - x / k <= n / k + 1
  {
    var a, b, c := (x + n) / k, x / k, n / k;
    assert k * a <= x + n < k * a + k;
    assert k * b <= x < k * b + k;
    assert k * c <= n < k * c + k;
    if a - b < c {
      IntProductMonotone(k, a - b + 1, c);
    }
    if a - b > c + 1 {
      IntProductMonotone(k, c + 2, a - b);
    }
  }

  lemma {:induction false} CountOfPrefix(rows: seq<Row>, k: nat, b: nat, m: nat)
    requires b < k && m <= |rows|
    ensures var lo, hi := FirstOf(b, |rows|, k), FirstOf(b + 1, |rows|, k);
            TallyOf(rows[..m], BucketOf(|rows|, k)[..m], b).count == if m <= lo then 0 else if m <= hi then m - lo else hi - lo
    decreases m
  {
    FirstOfMonotone(b, b + 1, |rows|, k);
    if m > 0 {
      CountOfPrefix(rows, k, b, m - 1);
      TallyStep(rows, BucketOf(|rows|, k), m - 1, b);
      BucketIsInterval(m - 1, b, |rows|, k);
      BucketIsInterval(m - 1, b + 1, |rows|, k);
    }
  }

  lemma FirstOfMonotone(b: nat, c: nat, n: nat, k: nat)
    requires k > 0 && b <= c
    ensures FirstOf(b, n, k) <= FirstOf(c, n, k)
  {
    var d := (c - b) * n;
    IntProductMonotone(n, 0, c - b);
    assert c * n + k - 1 == (b * n + k - 1) + d;
    FloorGrowth(b * n + k - 1, d, k);
  }

  lemma BucketIsTally(rows: seq<Row>, k: nat, b: nat)
    requires b < k
    ensures ReportOf(rows, k).buckets[b] == BucketFrom(b, TallyOf(rows, BucketOf(|rows|, k), b))
  {
  }

  lemma IntervalSize(b: nat, n: nat, k: nat)
    requires b < k
    ensures n / k <= FirstOf(b + 1, n, k) - FirstOf(b, n, k) <= n / k + 1
  {
    assert (b + 1) * n + k - 1 == (b * n + k - 1) + n;
    FloorGrowth(b * n + k - 1, n, k);
  }

  /** Bucket sizes are the two integers around n/k: any two differ by at most one. */
  lemma BucketSizesEven(rows: seq<Row>, k: nat, b: nat)
    requires b < k
    ensures var size := ReportOf(rows, k).buckets[b].count; |rows| / k <= size <= |rows| / k + 1
  {
    var n := |rows|;
    CountOfPrefix(rows, k, b, n);
    assert rows[..n] == rows && BucketOf(n, k)[..n] == BucketOf(n, k);
    IntervalSize(b, n, k);
    LastBucketEnds(b, n, k);
    FirstOfMonotone(b, b + 1, n, k);
    BucketIsTally(rows, k, b);
  }

  lemma LastBucketEnds(b: nat, n: nat, k: nat)
    requires b < k
    ensures FirstOf(b + 1, n, k) <= n
  {
    FirstOfMonotone(b + 1, k, n, k);
    assert k * n + k - 1 == k * n + (k - 1);
    FloorShift(n, k - 1, k);
  }

  // ---- counts add up ----

  ghost function Ones(mask: seq<bool>): (xs: seq<real>)
    ensures |xs| == |mask|
  {
    seq(|mask|, i requires 0 <= i < |mask| => if mask[i] then 1.0 else 0.0)
  }

  lemma {:induction false} SumOfOnes(mask: seq<bool>)
    ensures Sum(Ones(mask)) == CountTrue(mask) as real
  {
    if mask != [] {
      var n := |mask| - 1;
      assert Ones(mask)[..n] == Ones(mask[..n]);
      SumOfOnes(mask[..n]);
    }
  }

  lemma {:induction false} SettledOfTally(rows: seq<Row>, groups: seq<int>, b: int)
    requires |rows| == |groups|
    ensures TallyOf(rows, groups, b).settled as real == GroupSum(Ones(SettledMask(rows)), groups, b)
    ensures TallyOf(rows, groups, b).count as real == GroupSum(seq(|rows|, _ => 1.0), groups, b)
  {
    if rows != [] {
      var n := |rows| - 1;
      assert Ones(SettledMask(rows))[..n] == Ones(SettledMask(rows[..n]));
      assert seq(|rows|, _ => 1.0)[..n] == seq(n, _ => 1.0);
      SettledOfTally(rows[..n], groups[..n], b);
    }
  }

  lemma {:induction false} SumOfConstantOnes(n: nat)
    ensures Sum(seq(n, _ => 1.0)) == n as real
  {
    if n > 0 {
      assert seq(n, _ => 1.0)[..n - 1] == seq(n - 1, _ => 1.0);
      SumOfConstantOnes(n - 1);
    }
  }

  /** Bucket counts add up to the row count, and settled counts to the summary's settled rows. */
  lemma CountsAddUp(rows: seq<Row>, k: nat)
    requires k > 0
    ensures var r := ReportOf(rows, k);
            && Sum(seq(k, b requires 0 <= b < k => r.buckets[b].count as real)) == r.summary.totalRows as real
            && Sum(seq(k, b requires 0 <= b < k => r.buckets[b].settled as real)) == r.summary.settledRows as real
  {
    var r, groups := ReportOf(rows, k), BucketOf(|rows|, k);
    var ones, settled := seq(|rows|, _ => 1.0), Ones(SettledMask(rows));
    GroupsInRange(|rows|, k);
    forall b | 0 <= b < k
      ensures r.buckets[b].settled as real == GroupSum(settled, groups, b)
      ensures r.buckets[b].count as real == GroupSum(ones, groups, b)
    {
      SettledOfTally(rows, groups, b);
    }
    assert seq(k, b requires 0 <= b < k => r.buckets[b].count as real) == GroupSums(ones, groups, k);
    assert seq(k, b requires 0 <= b < k => r.buckets[b].settled as real) == GroupSums(settled, groups, k);
    GroupSumsPreserveTotal(ones, groups, k);
    GroupSumsPreserveTotal(settled, groups, k);
    SumOfConstantOnes(|rows|);
    SumOfOnes(SettledMask(rows));
    OverallMeaning(rows);
  }

  // ---- rank ranges ----

  /** `low` and `high` are the least and greatest rank among the rows of bucket `b`, absent when it is empty. */
  ghost predicate IsRankRange(rows: seq<Row>, groups: seq<int>, b: int, low: Option<real>, high: Option<real>)
    requires |rows| == |groups|
  {
    && (low.Some? <==> high.Some?)
    && (low.Some? <==> exists i :: 0 <= i < |rows| && groups[i] == b)
    && (low.Some? ==> exists i :: 0 <= i < |rows| && groups[i] == b && rows[i].rank == low.value)
    && (low.Some? ==> exists i :: 0 <= i < |rows| && groups[i] == b && rows[i].rank == high.value)
    && (forall i :: 0 <= i < |rows| && groups[i] == b ==> low.Some? && low.value <= rows[i].rank <= high.value)
  }

  lemma {:induction false} TallyRankRange(rows: seq<Row>, groups: seq<int>, b: int)
    requires |rows| == |groups|
    ensures var t := TallyOf(rows, groups, b); IsRankRange(rows, groups, b, t.rankMin, t.rankMax)
  {
    if rows != [] {
      var n := |rows| - 1;
      TallyRankRange(rows[..n], groups[..n], b);
      var was, now := TallyOf(rows[..n], groups[..n], b), TallyOf(rows, groups, b);
      if was.rankMin.Some? {
        var i :| 0 <= i < n && groups[..n][i] == b && rows[..n][i].rank == was.rankMin.value;
        var j :| 0 <= j < n && groups[..n][j] == b && rows[..n][j].rank == was.rankMax.value;
        assert rows[i].rank == was.rankMin.value && rows[j].rank == was.rankMax.value && groups[i] == b && groups[j] == b;
      }
      if groups[n] == b {
        assert rows[n].rank == rows[n].rank;
      }
      forall i | 0 <= i < |rows| && groups[i] == b
        ensures now.rankMin.Some? && now.rankMin.value <= rows[i].rank <= now.rankMax.value
      {
        if i < n {
          assert groups[..n][i] == b && rows[..n][i] == rows[i];
        }
      }
    }
  }

  ghost predicate RankedDown(rows: seq<Row>) {
    forall i, j :: 0 <= i < j < |rows| ==> rows[i].rank >= rows[j].rank
  }

  lemma RankedIsDescending(rows: seq<Row>)
    ensures RankedDown(Ranked(rows)) && |Ranked(rows)| == |rows|
  {
    var placed := StableSort(RanksBefore, Indexed(rows));
    SortPermutes(RanksBefore, Indexed(rows));
    SortSorts(RanksBefore, Indexed(rows));
    forall i, j | 0 <= i < j < |placed|
      ensures RowsOf(placed)[i].rank >= RowsOf(placed)[j].rank
    {
      assert !RanksBefore(placed[j], placed[i]);
    }
  }

  lemma LowAboveHigh(ranked: seq<Row>, k: nat, b: nat, c: nat, low: real, high: real)
    requires b < c < k && RankedDown(ranked)
    requires exists i :: 0 <= i < |ranked| && BucketOf(|ranked|, k)[i] == b && ranked[i].rank == low
    requires exists j :: 0 <= j < |ranked| && BucketOf(|ranked|, k)[j] == c && ranked[j].rank == high
    ensures low >= high
  {
    var groups := BucketOf(|ranked|, k);
    var i :| 0 <= i < |ranked| && groups[i] == b && ranked[i].rank == low;
    var j :| 0 <= j < |ranked| && groups[j] == c && ranked[j].rank == high;
    BucketIsInterval(i, c, |ranked|, k);
    BucketIsInterval(j, c, |ranked|, k);
  }

  lemma TalliesRankDown(ranked: seq<Row>, k: nat, b: nat, c: nat)
    requires b < c < k && RankedDown(ranked)
    ensures var groups := BucketOf(|ranked|, k);
            var earlier, later := TallyOf(ranked, groups, b), TallyOf(ranked, groups, c);
            earlier.count > 0 && later.count > 0 ==>
              earlier.rankMin.Some? && later.rankMax.Some? && earlier.rankMin.value >= later.rankMax.value
  {
    var groups := BucketOf(|ranked|, k);
    var earlier, later := TallyOf(ranked, groups, b), TallyOf(ranked, groups, c);
    TallyRankRange(ranked, groups, b);
    TallyRankRange(ranked, groups, c);
    CountedIffRanged(ranked, groups, b);
    CountedIffRanged(ranked, groups, c);
    if earlier.count > 0 && later.count > 0 {
      LowAboveHigh(ranked, k, b, c, earlier.rankMin.value, later.rankMax.value);
    }
  }

  /** No row of an earlier non-empty bucket ranks below any row of a later one. */
  lemma EarlierBucketsRankHigher(rows: seq<Row>, k: nat, b: nat, c: nat)
    requires b < c < k
    ensures var r := ReportOf(Ranked(rows), k);
            r.buckets[b].count > 0 && r.buckets[c].count > 0 ==>
              r.buckets[b].rankMin.Some? && r.buckets[c].rankMax.Some?
              && r.buckets[b].rankMin.value >= r.buckets[c].rankMax.value
  {
    RankedIsDescending(rows);
    TalliesRankDown(Ranked(rows), k, b, c);
    BucketIsTally(Ranked(rows), k, b);
    BucketIsTally(Ranked(rows), k, c);
  }

  lemma {:induction false} CountedIffRanged(rows: seq<Row>, groups: seq<int>, b: int)
    requires |rows| == |groups|
    ensures var t := TallyOf(rows, groups, b); t.count > 0 <==> t.rankMin.Some?
  {
    if rows != [] {
      CountedIffRanged(rows[..|rows| - 1], groups[..|rows| - 1], b);
    }
  }

  // ---- input order does not matter ----

  predicate RowBefore(a: Row, b: Row) {
    if a.rank != b.rank then a.rank > b.rank else a.id < b.id
  }

  lemma {:induction false} RowsOfInsert(x: Placed, s: seq<Placed>)
    ensures multiset(RowsOf(Insert(RanksBefore, x, s))) == multiset(RowsOf(s)) + multiset{x.row}
  {
    if s != [] && RanksBefore(s[0], x) {
      var rest := Insert(RanksBefore, x, s[1..]);
      RowsOfInsert(x, s[1..]);
      assert RowsOf([s[0]] + rest) == [s[0].row] + RowsOf(rest);
      assert RowsOf(s) == [s[0].row] + RowsOf(s[1..]);
    } else {
      assert RowsOf([x] + s) == [x.row] + RowsOf(s);
    }
  }

  lemma {:induction false} RowsOfSort(s: seq<Placed>)
    ensures multiset(RowsOf(StableSort(RanksBefore, s))) == multiset(RowsOf(s))
  {
    if s != [] {
      RowsOfSort(s[1..]);
      RowsOfInsert(s[0], StableSort(RanksBefore, s[1..]));
      assert RowsOf(s) == [s[0].row] + RowsOf(s[1..]);
    }
  }

  /** Ranking keeps exactly the given rows. */
  lemma RankedPermutes(rows: seq<Row>)
    ensures multiset(Ranked(rows)) == multiset(rows)
  {
    RowsOfSort(Indexed(rows));
    assert RowsOf(Indexed(rows)) == rows;
  }

  lemma RankedSorted(rows: seq<Row>)
    ensures Sorted(RowBefore, Ranked(rows))
  {
    var placed := StableSort(RanksBefore, Indexed(rows));
    SortSorts(RanksBefore, Indexed(rows));
    forall i, j | 0 <= i < j < |placed|
      ensures !RowBefore(RowsOf(placed)[j], RowsOf(placed)[i])
    {
      assert !RanksBefore(placed[j], placed[i]);
    }
  }

  ghost predicate DistinctIds(rows: seq<Row>) {
    forall a, b :: a in rows && b in rows && a != b ==> a.id != b.id
  }

  /** With distinct row ids, any rearrangement of the input gives the same report. */
  lemma ReportIgnoresInputOrder(rows: seq<Row>, shuffled: seq<Row>, k: nat)
    requires DistinctIds(rows) && multiset(rows) == multiset(shuffled)
    ensures ReportOf(Ranked(rows), k) == ReportOf(Ranked(shuffled), k)
  {
    RankedPermutes(rows);
    RankedPermutes(shuffled);
    RankedSorted(rows);
    RankedSorted(shuffled);
    var s := Ranked(rows);
    forall i, j | 0 <= i < |s| && 0 <= j < |s| && s[i] != s[j]
      ensures RowBefore(s[i], s[j]) || RowBefore(s[j], s[i])
    {
      assert s[i] in multiset(s) && s[j] in multiset(s);
      assert s[i] in rows && s[j] in rows;
    }
    SortedIsUnique(RowBefore, s, Ranked(shuffled));
  }
}
