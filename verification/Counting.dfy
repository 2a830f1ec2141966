/** Counts, totals and means over the members of a list that satisfy a condition. */
module Counting {

  function CountIf<T>(s: seq<T>, p: T -> bool): (n: nat)
    ensures n <= |s|
  {
    if s == [] then 0 else CountIf(s[..|s| - 1], p) + (if p(s[|s| - 1]) then 1 else 0)
  }

  function SumIf<T>(s: seq<T>, p: T -> bool, f: T -> real): real {
    if s == [] then 0.0 else SumIf(s[..|s| - 1], p, f) + (if p(s[|s| - 1]) then f(s[|s| - 1]) else 0.0)
  }

  function TotalIf<T>(s: seq<T>, p: T -> bool, f: T -> int): int {
    if s == [] then 0 else TotalIf(s[..|s| - 1], p, f) + (if p(s[|s| - 1]) then f(s[|s| - 1]) else 0)
  }

  /** A mean, 0 of nothing. */
  function Mean(sum: real, count: nat): real {
    if count == 0 then 0.0 else sum / count as real
  }

  lemma {:induction false} ZerosSum<T>(s: seq<T>, p: T -> bool, f: T -> real)
    requires forall i :: 0 <= i < |s| && p(s[i]) ==> f(s[i]) == 0.0
    ensures SumIf(s, p, f) == 0.0
  {
    if s != [] {
      ZerosSum(s[..|s| - 1], p, f);
    }
  }

  lemma {:induction false} CountOfSplit<T>(a: seq<T>, b: seq<T>, p: T -> bool)
    ensures CountIf(a + b, p) == CountIf(a, p) + CountIf(b, p)
  {
    if b == [] {
      assert a + b == a;
    } else {
      assert (a + b)[..|a + b| - 1] == a + b[..|b| - 1];
      CountOfSplit(a, b[..|b| - 1], p);
    }
  }

  lemma {:induction false} SumOfSplit<T>(a: seq<T>, b: seq<T>, p: T -> bool, f: T -> real)
    ensures SumIf(a + b, p, f) == SumIf(a, p, f) + SumIf(b, p, f)
  {
    if b == [] {
      assert a + b == a;
    } else {
      assert (a + b)[..|a + b| - 1] == a + b[..|b| - 1];
      SumOfSplit(a, b[..|b| - 1], p, f);
    }
  }

  lemma CountAround<T>(a: seq<T>, x: T, b: seq<T>, p: T -> bool)
    ensures CountIf(a + [x] + b, p) == CountIf(a + b, p) + (if p(x) then 1 else 0)
  {
    CountOfSplit(a + [x], b, p);
    CountOfSplit(a, b, p);
    assert (a + [x])[..|a|] == a;
  }

  lemma SumAround<T>(a: seq<T>, x: T, b: seq<T>, p: T -> bool, f: T -> real)
    ensures SumIf(a + [x] + b, p, f) == SumIf(a + b, p, f) + (if p(x) then f(x) else 0.0)
  {
    SumOfSplit(a + [x], b, p, f);
    SumOfSplit(a, b, p, f);
    assert (a + [x])[..|a|] == a;
  }

  lemma TakeOut<T>(s: seq<T>, k: nat) returns (rest: seq<T>)
    requires k < |s|
    ensures s == s[..k] + [s[k]] + s[k + 1..] && rest == s[..k] + s[k + 1..]
    ensures multiset(rest) == multiset(s) - multiset{s[k]}
  {
    rest := s[..k] + s[k + 1..];
    assert s == s[..k] + [s[k]] + s[k + 1..];
    assert multiset(s) == multiset(s[..k] + [s[k]] + s[k + 1..]);
  }

  lemma TakeOutCounts<T>(s: seq<T>, k: nat, p: T -> bool, f: T -> real) returns (rest: seq<T>)
    requires k < |s|
    ensures rest == s[..k] + s[k + 1..] && multiset(rest) == multiset(s) - multiset{s[k]}
    ensures CountIf(s, p) == CountIf(rest, p) + (if p(s[k]) then 1 else 0)
    ensures SumIf(s, p, f) == SumIf(rest, p, f) + (if p(s[k]) then f(s[k]) else 0.0)
  {
    rest := TakeOut(s, k);
    CountAround(s[..k], s[k], s[k + 1..], p);
    SumAround(s[..k], s[k], s[k + 1..], p, f);
  }

  lemma SameMember<T>(s: seq<T>, t: seq<T>) returns (k: nat)
    requires multiset(s) == multiset(t) && s != []
    ensures k < |t| && t[k] == s[0]
  {
    assert s[0] in multiset(t);
    k :| k < |t| && t[k] == s[0];
  }

  lemma SameLength<T>(s: seq<T>, t: seq<T>)
    requires multiset(s) == multiset(t)
    ensures |s| == |t|
  {
    assert |multiset(s)| == |s| && |multiset(t)| == |t|;
  }

  /** Neither depends on the order of the list. */
  lemma {:induction false} Permuted<T>(s: seq<T>, t: seq<T>, p: T -> bool, f: T -> real)
    requires multiset(s) == multiset(t)
    ensures CountIf(s, p) == CountIf(t, p) && SumIf(s, p, f) == SumIf(t, p, f)
    decreases |s|
  {
    SameLength(s, t);
    if s != [] {
      var k := SameMember(s, t);
      var first := TakeOutCounts(s, 0, p, f);
      var rest := TakeOutCounts(t, k, p, f);
      Permuted(first, rest, p, f);
    }
  }
}
