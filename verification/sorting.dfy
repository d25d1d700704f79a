/**
 * A stable sort by a "may come before" relation. It stands for
 * `Array.prototype.sort` with a comparator `cmp` (stable since ES2019:
 * `before(a, b)` is `cmp(a, b) <= 0`) and for Prisma's `orderBy`.
 */
module Sorting {
  import opened Sequences

  /** `x` goes in front of the first element it may come before. */
  function Insert<T(==)>(x: T, s: seq<T>, before: (T, T) -> bool): (r: seq<T>)
    ensures |r| == |s| + 1
    ensures multiset(r) == multiset(s) + multiset{x}
  {
    if s == [] || before(x, s[0]) then [x] + s
    else
      assert s == [s[0]] + s[1..];
      [s[0]] + Insert(x, s[1..], before)
  }

  /** Insertion sort; an element moves past a later one only when it may not come before it. */
  function Sort<T(==)>(s: seq<T>, before: (T, T) -> bool): (r: seq<T>)
    ensures |r| == |s|
    ensures multiset(r) == multiset(s)
  {
    if s == [] then []
    else
      assert s == [s[0]] + s[1..];
      Insert(s[0], Sort(s[1..], before), before)
  }

  ghost predicate SortedBy<T>(s: seq<T>, before: (T, T) -> bool) {
    forall i, j :: 0 <= i < j < |s| ==> before(s[i], s[j])
  }

  /** `before` is total and transitive, as any consistent comparator's `<= 0` is. */
  ghost predicate IsTotalPreorder<T(!new)>(before: (T, T) -> bool) {
    && (forall a, b :: before(a, b) || before(b, a))
    && (forall a, b, c :: before(a, b) && before(b, c) ==> before(a, c))
  }

  lemma {:induction false} InsertSorted<T(!new)>(x: T, s: seq<T>, before: (T, T) -> bool)
    requires IsTotalPreorder(before)
    requires SortedBy(s, before)
    ensures SortedBy(Insert(x, s, before), before)
  {
    if s != [] && !before(x, s[0]) {
      assert before(s[0], x);
      var tail := Insert(x, s[1..], before);
      InsertSorted(x, s[1..], before);
      forall y | y in tail ensures before(s[0], y) {
        assert y in multiset(tail);
        if y != x {
          assert y in multiset(s[1..]);
          var j :| 0 <= j < |s[1..]| && s[1..][j] == y;
          assert s[j + 1] == y;
        }
      }
      var r := [s[0]] + tail;
      forall i, j | 0 <= i < j < |r| ensures before(r[i], r[j]) {
        if i == 0 {
          assert r[j] == tail[j - 1];
          assert r[j] in tail;
        } else {
          assert r[i] == tail[i - 1] && r[j] == tail[j - 1];
        }
      }
    } else if s != [] {
      var r := [x] + s;
      forall i, j | 0 <= i < j < |r| ensures before(r[i], r[j]) {
        if i == 0 && j > 1 {
          assert before(s[0], s[j - 1]);
        }
      }
    }
  }

  /** The output of `Sort` is ordered by any total preorder. */
  lemma {:induction false} SortIsSorted<T(!new)>(s: seq<T>, before: (T, T) -> bool)
    requires IsTotalPreorder(before)
    ensures SortedBy(Sort(s, before), before)
  {
    if s != [] {
      SortIsSorted(s[1..], before);
      InsertSorted(s[0], Sort(s[1..], before), before);
    }
  }

  /** With a comparator that always answers 0 the sort is the identity (stability). */
  lemma {:induction false} SortOfTiesIsIdentity<T(!new)>(s: seq<T>, before: (T, T) -> bool)
    requires forall a, b :: before(a, b)
    ensures Sort(s, before) == s
  {
    if s != [] {
      SortOfTiesIsIdentity(s[1..], before);
      assert s == [s[0]] + s[1..];
    }
  }

  /** Mapping commutes with inserting, when the map keeps what `before` looks at. */
  lemma {:induction false} MapInsert<T(!new), U(!new)>(
    x: T, s: seq<T>, before: (T, T) -> bool, f: T -> U, before': (U, U) -> bool)
    requires forall a, b :: before(a, b) == before'(f(a), f(b))
    ensures Map(Insert(x, s, before), f) == Insert(f(x), Map(s, f), before')
  {
    if s != [] {
      assert s == [s[0]] + s[1..];
      MapCons(s[0], s[1..], f);
      var fs := Map(s, f);
      assert fs[0] == f(s[0]) && fs[1..] == Map(s[1..], f);
      if before(x, s[0]) {
        assert before'(f(x), fs[0]);
        MapCons(x, s, f);
      } else {
        assert !before'(f(x), fs[0]);
        MapInsert(x, s[1..], before, f, before');
        MapCons(s[0], Insert(x, s[1..], before), f);
      }
    }
  }

  /** Mapping commutes with sorting, when the map keeps what `before` looks at. */
  lemma {:induction false} MapSort<T(!new), U(!new)>(
    s: seq<T>, before: (T, T) -> bool, f: T -> U, before': (U, U) -> bool)
    requires forall a, b :: before(a, b) == before'(f(a), f(b))
    ensures Map(Sort(s, before), f) == Sort(Map(s, f), before')
  {
    if s != [] {
      MapSort(s[1..], before, f, before');
      assert Map(s, f) == [f(s[0])] + Map(s[1..], f);
      assert Map(s, f)[1..] == Map(s[1..], f);
      MapInsert(s[0], Sort(s[1..], before), before, f, before');
    }
  }
}
