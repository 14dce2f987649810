/** Stable sorting by a three-way comparator, the semantics shared by JavaScript's
    `Array.prototype.sort` (stable since ES2019) and Rust's `slice::sort_by`.

    A comparator `cmp` returns a negative number, zero or a positive number; the
    sort places `a` before `b` when `cmp(a, b) < 0` and keeps the input order of
    elements that compare equal. The result is computed by insertion, which for a
    comparator that is a total preorder yields the same sequence as any other
    stable sort. */
module Sorting {

  /** `cmp(a, b) <= 0` ("a may come first") is total and transitive. */
  ghost predicate TotalPreorder<T(!new)>(cmp: (T, T) -> int)
  {
    && (forall a, b :: cmp(a, b) <= 0 || cmp(b, a) <= 0)
    && (forall a, b, c :: cmp(a, b) <= 0 && cmp(b, c) <= 0 ==> cmp(a, c) <= 0)
  }

  /** Every element may come before every later one. */
  ghost predicate SortedBy<T>(s: seq<T>, cmp: (T, T) -> int)
  {
    forall i, j :: 0 <= i < j < |s| ==> cmp(s[i], s[j]) <= 0
  }

  /** Puts `x` before the first element it may precede. */
  function Insert<T>(x: T, s: seq<T>, cmp: (T, T) -> int): (r: seq<T>)
    ensures multiset(r) == multiset(s) + multiset{x}
    decreases |s|
  {
    if s == [] then [x]
    else if cmp(x, s[0]) <= 0 then [x] + s
    else
      assert s == [s[0]] + s[1..];
      [s[0]] + Insert(x, s[1..], cmp)
  }

  /** The stable sort of `s` by `cmp`; the input is not changed (values). */
  function Sort<T>(s: seq<T>, cmp: (T, T) -> int): (r: seq<T>)
    ensures multiset(r) == multiset(s)
    ensures |r| == |s|
    decreases |s|
  {
    if s == [] then []
    else
      assert s == [s[0]] + s[1..];
      Insert(s[0], Sort(s[1..], cmp), cmp)
  }

  /** `a` may come before every element of `s`. */
  ghost predicate LowerBound<T>(a: T, s: seq<T>, cmp: (T, T) -> int)
  {
    forall j :: 0 <= j < |s| ==> cmp(a, s[j]) <= 0
  }

  lemma {:induction false} InsertKeepsLowerBound<T>(a: T, x: T, s: seq<T>, cmp: (T, T) -> int)
    requires LowerBound(a, s, cmp) && cmp(a, x) <= 0
    ensures LowerBound(a, Insert(x, s, cmp), cmp)
    decreases |s|
  {
    if s != [] && cmp(x, s[0]) > 0 {
      InsertKeepsLowerBound(a, x, s[1..], cmp);
    }
  }

  lemma ConsSorted<T>(a: T, s: seq<T>, cmp: (T, T) -> int)
    requires LowerBound(a, s, cmp) && SortedBy(s, cmp)
    ensures SortedBy([a] + s, cmp)
  {
    var r := [a] + s;
    forall i, j | 0 <= i < j < |r| ensures cmp(r[i], r[j]) <= 0 {
      if i == 0 {
        assert r[j] == s[j - 1];
      } else {
        assert r[i] == s[i - 1] && r[j] == s[j - 1];
      }
    }
  }

  lemma SortedHead<T>(s: seq<T>, cmp: (T, T) -> int)
    requires s != [] && SortedBy(s, cmp)
    ensures LowerBound(s[0], s[1..], cmp) && SortedBy(s[1..], cmp)
  {
    assert forall j :: 0 <= j < |s| - 1 ==> s[1..][j] == s[j + 1];
  }

  lemma BoundByTransitivity<T(!new)>(x: T, s: seq<T>, cmp: (T, T) -> int)
    requires TotalPreorder(cmp)
    requires s != [] && cmp(x, s[0]) <= 0 && LowerBound(s[0], s, cmp)
    ensures LowerBound(x, s, cmp)
  {
    forall j | 0 <= j < |s| ensures cmp(x, s[j]) <= 0 {
      assert cmp(s[0], s[j]) <= 0;
    }
  }

  lemma {:induction false} InsertSorted<T(!new)>(x: T, s: seq<T>, cmp: (T, T) -> int)
    requires TotalPreorder(cmp)
    requires SortedBy(s, cmp)
    ensures SortedBy(Insert(x, s, cmp), cmp)
    decreases |s|
  {
    if s != [] {
      SortedHead(s, cmp);
      if cmp(x, s[0]) <= 0 {
        assert s == [s[0]] + s[1..];
        assert LowerBound(s[0], s, cmp);
        BoundByTransitivity(x, s, cmp);
        ConsSorted(x, s, cmp);
      } else {
        assert cmp(s[0], x) <= 0;
        InsertSorted(x, s[1..], cmp);
        InsertKeepsLowerBound(s[0], x, s[1..], cmp);
        ConsSorted(s[0], Insert(x, s[1..], cmp), cmp);
      }
    }
  }

  /** The result of `Sort` is ordered by the comparator. */
  lemma {:induction false} SortSorted<T(!new)>(s: seq<T>, cmp: (T, T) -> int)
    requires TotalPreorder(cmp)
    ensures SortedBy(Sort(s, cmp), cmp)
    decreases |s|
  {
    if s != [] {
      SortSorted(s[1..], cmp);
      InsertSorted(s[0], Sort(s[1..], cmp), cmp);
    }
  }

  /** A comparator that finds everything equal leaves the order unchanged. */
  lemma {:induction false} SortOfNeutral<T>(s: seq<T>, cmp: (T, T) -> int)
    requires forall a, b :: cmp(a, b) == 0
    ensures Sort(s, cmp) == s
    decreases |s|
  {
    if s != [] {
      SortOfNeutral(s[1..], cmp);
      assert [s[0]] + s[1..] == s;
    }
  }

  /** Sorting keeps exactly the elements of the input. */
  lemma SortSameElements<T>(s: seq<T>, cmp: (T, T) -> int)
    ensures forall x :: x in Sort(s, cmp) <==> x in s
  {
    forall x ensures x in Sort(s, cmp) <==> x in s {
      assert x in Sort(s, cmp) <==> x in multiset(Sort(s, cmp));
      assert x in s <==> x in multiset(s);
    }
  }
}
