/** The stable sort that the decision and calibration code takes from Go's
    `sort.SliceStable`, as a function, with the facts its callers rely on. */
module Sorting {

  /** `before` behaves like a Go `less` argument: asymmetric, and "not before" is transitive. */
  ghost predicate StrictWeakOrder<T(!new)>(before: (T, T) -> bool) {
    && (forall a, b :: before(a, b) ==> !before(b, a))
    && (forall a, b, c :: before(a, b) ==> before(a, c) || before(c, b))
  }

  /** No later element belongs strictly before an earlier one. */
  ghost predicate Sorted<T>(before: (T, T) -> bool, s: seq<T>) {
    forall i, j :: 0 <= i < j < |s| ==> !before(s[j], s[i])
  }

  /** Any two different elements of `s` are ordered one way or the other. */
  ghost predicate Decides<T>(before: (T, T) -> bool, s: seq<T>) {
    forall i, j :: 0 <= i < |s| && 0 <= j < |s| && s[i] != s[j] ==> before(s[i], s[j]) || before(s[j], s[i])
  }

  function Insert<T>(before: (T, T) -> bool, x: T, s: seq<T>): seq<T> {
    if s == [] then [x]
    else if before(s[0], x) then [s[0]] + Insert(before, x, s[1..])
    else [x] + s
  }

  function StableSort<T>(before: (T, T) -> bool, s: seq<T>): seq<T> {
    if s == [] then [] else Insert(before, s[0], StableSort(before, s[1..]))
  }

  lemma {:induction false} InsertPermutes<T>(before: (T, T) -> bool, x: T, s: seq<T>)
    ensures multiset(Insert(before, x, s)) == multiset(s) + multiset{x}
  {
    if s != [] {
      InsertPermutes(before, x, s[1..]);
      assert s == [s[0]] + s[1..];
    }
  }

  lemma {:induction false} SortPermutes<T>(before: (T, T) -> bool, s: seq<T>)
    ensures multiset(StableSort(before, s)) == multiset(s)
    ensures |StableSort(before, s)| == |s|
  {
    if s != [] {
      SortPermutes(before, s[1..]);
      InsertPermutes(before, s[0], StableSort(before, s[1..]));
      assert s == [s[0]] + s[1..];
    }
    assert |multiset(StableSort(before, s))| == |multiset(s)|;
  }

  lemma {:induction false} InsertSorted<T(!new)>(before: (T, T) -> bool, x: T, s: seq<T>)
    requires StrictWeakOrder(before) && Sorted(before, s)
    ensures Sorted(before, Insert(before, x, s))
  {
    if s != [] && before(s[0], x) {
      var t := Insert(before, x, s[1..]);
      InsertSorted(before, x, s[1..]);
      InsertPermutes(before, x, s[1..]);
      forall j | 0 <= j < |t| ensures !before(t[j], s[0]) {
        assert t[j] in multiset(t);
        assert t[j] == x || t[j] in s[1..];
      }
    }
  }

  lemma {:induction false} SortSorts<T(!new)>(before: (T, T) -> bool, s: seq<T>)
    requires StrictWeakOrder(before)
    ensures Sorted(before, StableSort(before, s))
  {
    if s != [] {
      SortSorts(before, s[1..]);
      InsertSorted(before, s[0], StableSort(before, s[1..]));
    }
  }

  /** Sorting what is already sorted moves nothing. */
  lemma {:induction false} SortedIsFixed<T>(before: (T, T) -> bool, s: seq<T>)
    requires Sorted(before, s)
    ensures StableSort(before, s) == s
  {
    if s != [] {
      SortedIsFixed(before, s[1..]);
      if |s| > 1 {
        assert !before(s[1], s[0]);
      }
    }
  }

  /** A sorted arrangement is unique when the order decides every pair of different elements. */
  lemma {:induction false} SortedIsUnique<T(!new)>(before: (T, T) -> bool, s: seq<T>, t: seq<T>)
    requires StrictWeakOrder(before)
    requires Sorted(before, s) && Sorted(before, t) && Decides(before, s)
    requires multiset(s) == multiset(t)
    ensures s == t
  {
    assert |multiset(s)| == |s| && |multiset(t)| == |t|;
    if s != [] {
      HeadsAgree(before, s, t);
      TailsPermute(s, t);
      TailOrdered(before, s);
      TailOrdered(before, t);
      SortedIsUnique(before, s[1..], t[1..]);
      assert s == [s[0]] + s[1..] && t == [t[0]] + t[1..];
    }
  }

  lemma TailsPermute<T>(s: seq<T>, t: seq<T>)
    requires |s| > 0 && |t| > 0 && s[0] == t[0] && multiset(s) == multiset(t)
    ensures multiset(s[1..]) == multiset(t[1..])
  {
    assert s == [s[0]] + s[1..] && t == [t[0]] + t[1..];
    assert multiset(s[1..]) == multiset(s) - multiset{s[0]};
    assert multiset(t[1..]) == multiset(t) - multiset{t[0]};
  }

  lemma TailOrdered<T>(before: (T, T) -> bool, s: seq<T>)
    requires |s| > 0
    ensures Sorted(before, s) ==> Sorted(before, s[1..])
    ensures Decides(before, s) ==> Decides(before, s[1..])
  {
    assert forall i :: 0 <= i < |s[1..]| ==> s[1..][i] == s[i + 1];
  }

  lemma HeadsAgree<T(!new)>(before: (T, T) -> bool, s: seq<T>, t: seq<T>)
    requires Sorted(before, s) && Sorted(before, t) && Decides(before, s)
    requires multiset(s) == multiset(t) && |s| == |t| > 0
    ensures s[0] == t[0]
  {
    assert t[0] in multiset(t) && s[0] in multiset(s);
    var i :| 0 <= i < |s| && s[i] == t[0];
    var j :| 0 <= j < |t| && t[j] == s[0];
    if i != 0 && j != 0 {
      assert !before(s[i], s[0]) && !before(t[j], t[0]);
    }
  }

  /** The members of `s` that the order ties with `x`, in their order. */
  function Ties<T>(before: (T, T) -> bool, x: T, s: seq<T>): seq<T> {
    if s == [] then []
    else (if !before(s[0], x) && !before(x, s[0]) then [s[0]] else []) + Ties(before, x, s[1..])
  }

  /** Stability: tied elements keep the order they came in. */
  lemma {:induction false} SortIsStable<T(!new)>(before: (T, T) -> bool, x: T, s: seq<T>)
    requires StrictWeakOrder(before)
    ensures Ties(before, x, StableSort(before, s)) == Ties(before, x, s)
  {
    if s != [] {
      SortIsStable(before, x, s[1..]);
      TiesOfInsert(before, x, s[0], StableSort(before, s[1..]));
    }
  }

  lemma {:induction false} TiesOfInsert<T(!new)>(before: (T, T) -> bool, x: T, y: T, s: seq<T>)
    requires StrictWeakOrder(before)
    ensures Ties(before, x, Insert(before, y, s)) == Ties(before, x, [y] + s)
  {
    assert ([y] + s)[1..] == s;
    if s != [] && before(s[0], y) {
      TiesOfInsert(before, x, y, s[1..]);
      var rest := Insert(before, y, s[1..]);
      assert ([s[0]] + rest)[1..] == rest;
      assert ([y] + s[1..])[1..] == s[1..];
    }
  }

  /** Tied elements come in the same order in both. */
  ghost predicate SameTies<T(!new)>(before: (T, T) -> bool, s: seq<T>, t: seq<T>) {
    forall x :: Ties(before, x, s) == Ties(before, x, t)
  }

  /** The first of the ties of a minimal element is at the front of a sorted sequence. */
  lemma {:induction false} SortedStartsWithTies<T(!new)>(before: (T, T) -> bool, x: T, s: seq<T>)
    requires StrictWeakOrder(before) && Sorted(before, s) && Ties(before, x, s) != []
    requires forall i :: 0 <= i < |s| ==> !before(s[i], x)
    ensures s != [] && s[0] == Ties(before, x, s)[0]
  {
    if before(x, s[0]) {
      assert forall i :: 0 < i < |s| ==> !before(s[i], s[0]);
      assert forall i :: 0 <= i < |s| ==> before(x, s[i]);
      NoTies(before, x, s);
    }
  }

  lemma {:induction false} NoTies<T>(before: (T, T) -> bool, x: T, s: seq<T>)
    requires forall i :: 0 <= i < |s| ==> before(x, s[i])
    ensures Ties(before, x, s) == []
  {
    if s != [] {
      NoTies(before, x, s[1..]);
    }
  }

  lemma {:induction false} TieIsMember<T>(before: (T, T) -> bool, x: T, s: seq<T>, y: T)
    requires y in Ties(before, x, s)
    ensures y in s
  {
    if y in Ties(before, x, s[1..]) {
      TieIsMember(before, x, s[1..], y);
    }
  }

  lemma EmptyTogether<T(!new)>(before: (T, T) -> bool, s: seq<T>, t: seq<T>)
    requires StrictWeakOrder(before) && SameTies(before, s, t)
    ensures s == [] <==> t == []
  {
    if s != [] {
      assert Ties(before, s[0], t) != [];
    }
    if t != [] {
      assert Ties(before, t[0], s) != [];
    }
  }

  /** A sorted sequence is determined by the order it keeps among tied elements: any arrangement that is sorted and stable,
      by whatever algorithm, is this one. */
  lemma {:induction false} StableArrangementIsUnique<T(!new)>(before: (T, T) -> bool, s: seq<T>, t: seq<T>)
    requires StrictWeakOrder(before) && Sorted(before, s) && Sorted(before, t)
    requires SameTies(before, s, t)
    ensures s == t
  {
    EmptyTogether(before, s, t);
    if s != [] {
      HeadsTie(before, s, t);
      forall x ensures Ties(before, x, s[1..]) == Ties(before, x, t[1..]) {
        var head := if !before(s[0], x) && !before(x, s[0]) then [s[0]] else [];
        assert Ties(before, x, s) == Ties(before, x, t);
        assert head + Ties(before, x, s[1..]) == head + Ties(before, x, t[1..]);
        assert (head + Ties(before, x, s[1..]))[|head|..] == Ties(before, x, s[1..]);
        assert (head + Ties(before, x, t[1..]))[|head|..] == Ties(before, x, t[1..]);
      }
      TailOrdered(before, s);
      TailOrdered(before, t);
      StableArrangementIsUnique(before, s[1..], t[1..]);
      assert s == [s[0]] + s[1..] && t == [t[0]] + t[1..];
    }
  }

  lemma HeadsTie<T(!new)>(before: (T, T) -> bool, s: seq<T>, t: seq<T>)
    requires StrictWeakOrder(before) && Sorted(before, s) && Sorted(before, t) && s != [] && t != []
    requires SameTies(before, s, t)
    ensures s[0] == t[0]
  {
    var x := s[0];
    assert Ties(before, x, s)[0] == x;
    TieIsMember(before, t[0], s, t[0]) by {
      assert Ties(before, t[0], t)[0] == t[0];
    }
    var j :| 0 <= j < |s| && s[j] == t[0];
    assert j > 0 ==> !before(s[j], s[0]);
    assert forall i :: 0 < i < |t| ==> !before(t[i], t[0]);
    SortedStartsWithTies(before, x, t);
  }

  /** `StableSort` is the only sorted arrangement of its input that keeps tied elements in their given order. */
  lemma StableSortIsTheStableSort<T(!new)>(before: (T, T) -> bool, s: seq<T>, t: seq<T>)
    requires StrictWeakOrder(before)
    ensures t == StableSort(before, s) <==> Sorted(before, t) && SameTies(before, t, s)
  {
    SortSorts(before, s);
    forall x ensures Ties(before, x, StableSort(before, s)) == Ties(before, x, s) {
      SortIsStable(before, x, s);
    }
    if Sorted(before, t) && SameTies(before, t, s) {
      assert SameTies(before, t, StableSort(before, s));
      StableArrangementIsUnique(before, t, StableSort(before, s));
    }
  }
}
