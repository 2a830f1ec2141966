/** Sums of reals split into groups: what every calibration error here is made of.
    An error of this kind adds up the absolute total of each group; making groups
    coarser can only cancel, and never raises the result. */
module Grouping {
  import opened Reals

  function Sum(xs: seq<real>): real {
    if xs == [] then 0.0 else Sum(xs[..|xs| - 1]) + xs[|xs| - 1]
  }

  function SumAbs(xs: seq<real>): real {
    if xs == [] then 0.0 else SumAbs(xs[..|xs| - 1]) + Abs(xs[|xs| - 1])
  }

  function SumSquares(xs: seq<real>): real {
    if xs == [] then 0.0 else SumSquares(xs[..|xs| - 1]) + xs[|xs| - 1] * xs[|xs| - 1]
  }

  /** The total of the items whose group is `b`. */
  function GroupSum(xs: seq<real>, groups: seq<int>, b: int): real
    requires |xs| == |groups|
  {
    if xs == [] then 0.0
    else
      var n := |xs| - 1;
      GroupSum(xs[..n], groups[..n], b) + (if groups[n] == b then xs[n] else 0.0)
  }

  /** The totals of groups 0 .. k-1. */
  function GroupSums(xs: seq<real>, groups: seq<int>, k: nat): (sums: seq<real>)
    requires |xs| == |groups|
    ensures |sums| == k
    ensures forall b :: 0 <= b < k ==> sums[b] == GroupSum(xs, groups, b)
  {
    seq(k, b requires 0 <= b < k => GroupSum(xs, groups, b))
  }

  ghost predicate GroupsBelow(groups: seq<int>, k: int) {
    forall i :: 0 <= i < |groups| ==> 0 <= groups[i] < k
  }

  lemma {:induction false} SumAppend(xs: seq<real>, x: real)
    ensures Sum(xs + [x]) == Sum(xs) + x
    ensures SumAbs(xs + [x]) == SumAbs(xs) + Abs(x)
    ensures SumSquares(xs + [x]) == SumSquares(xs) + x * x
  {
    assert (xs + [x])[..|xs|] == xs;
  }

  lemma {:induction false} SumUpdate(xs: seq<real>, i: nat, x: real)
    requires i < |xs|
    ensures Sum(xs[i := x]) == Sum(xs) - xs[i] + x
    ensures SumAbs(xs[i := x]) == SumAbs(xs) - Abs(xs[i]) + Abs(x)
  {
    var n := |xs| - 1;
    if i == n {
      assert xs[i := x][..n] == xs[..n];
    } else {
      assert xs[i := x][..n] == xs[..n][i := x];
      SumUpdate(xs[..n], i, x);
    }
  }

  lemma {:induction false} SumOfZeros(xs: seq<real>)
    requires forall i :: 0 <= i < |xs| ==> xs[i] == 0.0
    ensures Sum(xs) == 0.0 && SumAbs(xs) == 0.0
  {
    if xs != [] {
      SumOfZeros(xs[..|xs| - 1]);
    }
  }

  /** Adding one item changes exactly its own group's total. */
  lemma GroupSumsStep(xs: seq<real>, groups: seq<int>, k: nat)
    requires |xs| == |groups| > 0 && GroupsBelow(groups, k)
    ensures var n := |xs| - 1; var before := GroupSums(xs[..n], groups[..n], k); var b := groups[n];
            GroupSums(xs, groups, k) == before[b := before[b] + xs[n]]
  {
  }

  lemma {:induction false} GroupSumsPreserveTotal(xs: seq<real>, groups: seq<int>, k: nat)
    requires |xs| == |groups| && GroupsBelow(groups, k)
    ensures Sum(GroupSums(xs, groups, k)) == Sum(xs)
  {
    if xs == [] {
      SumOfZeros(GroupSums(xs, groups, k));
    } else {
      var n := |xs| - 1;
      GroupSumsPreserveTotal(xs[..n], groups[..n], k);
      GroupSumsStep(xs, groups, k);
      var before := GroupSums(xs[..n], groups[..n], k);
      SumUpdate(before, groups[n], before[groups[n]] + xs[n]);
    }
  }

  /** Grouping only cancels: the absolute group totals add up to no more than the absolute items. */
  lemma {:induction false} GroupingShrinks(xs: seq<real>, groups: seq<int>, k: nat)
    requires |xs| == |groups| && GroupsBelow(groups, k)
    ensures SumAbs(GroupSums(xs, groups, k)) <= SumAbs(xs)
  {
    if xs == [] {
      SumOfZeros(GroupSums(xs, groups, k));
    } else {
      var n := |xs| - 1;
      GroupingShrinks(xs[..n], groups[..n], k);
      GroupSumsStep(xs, groups, k);
      var before := GroupSums(xs[..n], groups[..n], k);
      SumUpdate(before, groups[n], before[groups[n]] + xs[n]);
    }
  }

  lemma {:induction false} TotalBelowSumAbs(xs: seq<real>)
    ensures Abs(Sum(xs)) <= SumAbs(xs)
  {
    if xs != [] {
      TotalBelowSumAbs(xs[..|xs| - 1]);
    }
  }

  lemma {:induction false} GroupSumUpdate(xs: seq<real>, groups: seq<int>, i: nat, x: real, b: int)
    requires |xs| == |groups| && i < |xs|
    ensures GroupSum(xs[i := x], groups, b) == GroupSum(xs, groups, b) + (if groups[i] == b then x - xs[i] else 0.0)
  {
    var n := |xs| - 1;
    if i == n {
      assert xs[i := x][..n] == xs[..n];
    } else {
      assert xs[i := x][..n] == xs[..n][i := x];
      GroupSumUpdate(xs[..n], groups[..n], i, x, b);
    }
  }

  lemma {:induction false} GroupSumOfZeros(xs: seq<real>, groups: seq<int>, b: int)
    requires |xs| == |groups| && forall i :: 0 <= i < |xs| ==> xs[i] == 0.0
    ensures GroupSum(xs, groups, b) == 0.0
  {
    if xs != [] {
      GroupSumOfZeros(xs[..|xs| - 1], groups[..|xs| - 1], b);
    }
  }

  /** `coarse` puts two items together whenever `fine` does: it merges fine groups by `merge`. */
  ghost predicate Coarsens(coarse: seq<int>, fine: seq<int>, merge: seq<int>) {
    && |coarse| == |fine| && GroupsBelow(fine, |merge|)
    && forall i :: 0 <= i < |fine| ==> coarse[i] == merge[fine[i]]
  }

  /** Grouping the fine totals gives the coarse totals. */
  lemma {:induction false} GroupingComposes(xs: seq<real>, fine: seq<int>, coarse: seq<int>, merge: seq<int>, b: int)
    requires |xs| == |fine| && Coarsens(coarse, fine, merge)
    ensures GroupSum(GroupSums(xs, fine, |merge|), merge, b) == GroupSum(xs, coarse, b)
  {
    if xs == [] {
      GroupSumOfZeros(GroupSums(xs, fine, |merge|), merge, b);
    } else {
      var n := |xs| - 1;
      GroupingComposes(xs[..n], fine[..n], coarse[..n], merge, b);
      GroupSumsStep(xs, fine, |merge|);
      var before := GroupSums(xs[..n], fine[..n], |merge|);
      GroupSumUpdate(before, merge, fine[n], before[fine[n]] + xs[n], b);
    }
  }

  /** Merging groups never raises the summed absolute totals. */
  lemma CoarseningShrinks(xs: seq<real>, fine: seq<int>, coarse: seq<int>, merge: seq<int>, k: nat)
    requires |xs| == |fine| && Coarsens(coarse, fine, merge) && GroupsBelow(merge, k)
    ensures SumAbs(GroupSums(xs, coarse, k)) <= SumAbs(GroupSums(xs, fine, |merge|))
  {
    var fineSums := GroupSums(xs, fine, |merge|);
    forall b | 0 <= b < k
      ensures GroupSum(fineSums, merge, b) == GroupSum(xs, coarse, b)
    {
      GroupingComposes(xs, fine, coarse, merge, b);
    }
    assert GroupSums(fineSums, merge, k) == GroupSums(xs, coarse, k);
    GroupingShrinks(fineSums, merge, k);
  }

  /** How many items the mask admits. */
  function CountTrue(mask: seq<bool>): (n: nat)
    ensures n <= |mask|
  {
    if mask == [] then 0 else CountTrue(mask[..|mask| - 1]) + (if mask[|mask| - 1] then 1 else 0)
  }

  /** The squared total `d` of `m` items is within `m` times their summed squares `q`. */
  ghost predicate MissWithin(m: real, d: real, q: real) {
    d * d <= m * q
  }

  /** Cauchy-Schwarz against the admitted items: the others are zero. */
  lemma {:induction false} CauchySchwarz(xs: seq<real>, mask: seq<bool>)
    requires |xs| == |mask| && forall i :: 0 <= i < |xs| && !mask[i] ==> xs[i] == 0.0
    ensures MissWithin(CountTrue(mask) as real, SumAbs(xs), SumSquares(xs))
    ensures 0.0 <= SumAbs(xs) && 0.0 <= SumSquares(xs)
  {
    if xs != [] {
      var n := |xs| - 1;
      CauchySchwarz(xs[..n], mask[..n]);
      if mask[n] {
        CauchyStep(SumAbs(xs[..n]), Abs(xs[n]), CountTrue(mask[..n]) as real, SumSquares(xs[..n]));
      }
    }
  }

  lemma CauchyStep(s: real, d: real, m: real, q: real)
    requires m >= 0.0 && q >= 0.0 && s * s <= m * q
    ensures (s + d) * (s + d) <= (m + 1.0) * (q + d * d)
  {
    if m == 0.0 {
      ZeroSquare(s, d);
    } else {
      CrossTerm(s, d, m, q);
    }
    assert (s + d) * (s + d) == s * s + 2.0 * (s * d) + d * d;
    assert (m + 1.0) * (q + d * d) == m * q + m * (d * d) + q + d * d;
  }

  lemma ZeroSquare(s: real, d: real)
    requires s * s <= 0.0
    ensures s == 0.0 && s * d == 0.0
  {
    SquareReflects(s, 0.0);
    SquareReflects(-s, 0.0);
  }

  lemma CrossTerm(s: real, d: real, m: real, q: real)
    requires m > 0.0 && s * s <= m * q
    ensures 2.0 * (s * d) <= q + m * (d * d)
  {
    var slack := q + m * (d * d) - 2.0 * (s * d);
    ExpandSquare(s, d, m);
    SquareNonNegative(s - m * d);
    assert m * slack == m * q + m * (m * (d * d)) - 2.0 * (m * (s * d));
    assert m * slack >= 0.0;
    if slack < 0.0 {
      ProductPositive(m, -slack);
    }
  }

  lemma ExpandSquare(s: real, d: real, m: real)
    ensures (s - m * d) * (s - m * d) == s * s - 2.0 * (m * (s * d)) + m * (m * (d * d))
  {
    var t := m * d;
    assert (s - t) * (s - t) == s * s - 2.0 * (s * t) + t * t;
    assert s * t == m * (s * d);
    assert t * t == m * (m * (d * d));
  }

  // ---- means ----

  ghost predicate SquareAtMost(x: real, bound: real) {
    x * x <= bound
  }

  ghost predicate Unit(x: real) {
    0.0 <= x <= 1.0
  }

  lemma SquaredMeanBelow(a: real, q: real, n: real)
    requires n > 0.0 && MissWithin(n, a, q)
    ensures SquareAtMost(a / n, q / n)
  {
    var r, s := a / n, q / n;
    assert r * n == a && s * n == q;
    assert (r * n) * (r * n) == n * (n * (r * r));
    if n * (r * r) > q {
      ProductPositive(n, n * (r * r) - q);
    }
    if r * r > s {
      ProductPositive(n, r * r - s);
    }
  }

  lemma WeightCancels(o: real, e: real, m: real, n: real)
    requires m > 0.0 && n > 0.0
    ensures Abs(o / m - e / m) * (m / n) == Abs(o - e) / n
  {
    var g := o / m - e / m;
    assert g * m == o - e;
    assert Abs(g) * m == Abs(o - e);
    assert Abs(g) * (m / n) == (Abs(g) * m) / n;
  }

  lemma QuotientsAdd(x: real, y: real, n: real)
    requires n > 0.0
    ensures x / n + y / n == (x + y) / n
  {
  }
}
