/**
  Stable sorting as the standard `sorted` performs it, with the facts the registry and the
  broker rely on: the result is determined by the elements when the order is strict on
  them, and sorting commutes with filtering.
*/
module Sorting {

  ghost predicate TotalPreorder<T(!new)>(le: (T, T) -> bool) {
    && (forall x, y :: le(x, y) || le(y, x))
    && (forall x, y, z :: le(x, y) && le(y, z) ==> le(x, z))
  }

  ghost predicate Sorted<T>(s: seq<T>, le: (T, T) -> bool) {
    forall i, j | 0 <= i < j < |s| :: le(s[i], s[j])
  }

  /** No two distinct elements of `s` are equivalent under `le`. */
  ghost predicate StrictOn<T>(s: seq<T>, le: (T, T) -> bool) {
    forall x, y | x in s && y in s && le(x, y) && le(y, x) :: x == y
  }

  /** Places `x` before the first element that is not strictly smaller, which keeps ties stable. */
  function Insert<T>(x: T, s: seq<T>, le: (T, T) -> bool): (r: seq<T>)
    ensures multiset(r) == multiset{x} + multiset(s)
    ensures |r| == |s| + 1
  {
    if s == [] then [x]
    else if le(x, s[0]) then
      assert [x] + s == [x] + ([s[0]] + s[1..]);
      [x] + s
    else
      assert s == [s[0]] + s[1..];
      [s[0]] + Insert(x, s[1..], le)
  }

  function Sort<T>(s: seq<T>, le: (T, T) -> bool): (r: seq<T>)
    ensures multiset(r) == multiset(s)
    ensures |r| == |s|
  {
    if s == [] then []
    else
      assert s == [s[0]] + s[1..];
      Insert(s[0], Sort(s[1..], le), le)
  }

  lemma SameElements<T>(a: seq<T>, b: seq<T>)
    requires multiset(a) == multiset(b)
    ensures forall x :: x in a <==> x in b
  {
    forall x
      ensures x in a <==> x in b
    {
      assert x in a <==> x in multiset(a);
      assert x in b <==> x in multiset(b);
    }
  }

  lemma {:induction false} InsertSorted<T(!new)>(x: T, s: seq<T>, le: (T, T) -> bool)
    requires TotalPreorder(le) && Sorted(s, le)
    ensures Sorted(Insert(x, s, le), le)
  {
    if s != [] && !le(x, s[0]) {
      InsertSorted(x, s[1..], le);
      var r := Insert(x, s[1..], le);
      assert multiset(r) == multiset([x] + s[1..]);
      SameElements(r, [x] + s[1..]);
      forall j | 0 <= j < |r|
        ensures le(s[0], r[j])
      {
        assert r[j] in r;
        assert r[j] in [x] + s[1..];
        if r[j] != x {
          var k :| 0 <= k < |s[1..]| && s[1..][k] == r[j];
          assert s[k + 1] == r[j];
        }
      }
    }
  }

  lemma {:induction false} SortSorted<T(!new)>(s: seq<T>, le: (T, T) -> bool)
    requires TotalPreorder(le)
    ensures Sorted(Sort(s, le), le)
  {
    if s != [] {
      SortSorted(s[1..], le);
      InsertSorted(s[0], Sort(s[1..], le), le);
    }
  }

  /** The first elements of two sorted arrangements of the same elements are equivalent. */
  lemma SortedHeads<T(!new)>(a: seq<T>, b: seq<T>, le: (T, T) -> bool)
    requires TotalPreorder(le) && Sorted(a, le) && Sorted(b, le)
    requires multiset(a) == multiset(b) && a != []
    ensures b != [] && le(a[0], b[0]) && le(b[0], a[0]) && b[0] in a
  {
    SameElements(a, b);
    assert a[0] in b;
    var i :| 0 <= i < |b| && b[i] == a[0];
    assert b[0] in a;
    var j :| 0 <= j < |a| && a[j] == b[0];
    assert le(a[0], a[0]) && le(b[0], b[0]);
  }

  lemma DropHead<T>(a: seq<T>, b: seq<T>)
    requires multiset(a) == multiset(b) && a != [] && b != [] && a[0] == b[0]
    ensures multiset(a[1..]) == multiset(b[1..])
  {
    assert a == [a[0]] + a[1..] && b == [b[0]] + b[1..];
    assert multiset(a[1..]) == multiset(a) - multiset{a[0]};
    assert multiset(b[1..]) == multiset(b) - multiset{b[0]};
  }

  /** A sorted arrangement is determined by its elements when the order is strict on them. */
  lemma {:induction false} SortedUnique<T(!new)>(a: seq<T>, b: seq<T>, le: (T, T) -> bool)
    requires TotalPreorder(le) && Sorted(a, le) && Sorted(b, le)
    requires multiset(a) == multiset(b)
    requires StrictOn(a, le)
    ensures a == b
    decreases |a|
  {
    if a == [] {
      assert |multiset(b)| == 0;
    } else {
      SortedHeads(a, b, le);
      DropHead(a, b);
      assert forall x | x in a[1..] :: x in a;
      SortedUnique(a[1..], b[1..], le);
      assert a == [a[0]] + a[1..] && b == [b[0]] + b[1..];
    }
  }

  /** Sorting forgets the input order when the order is strict on the elements. */
  lemma SortPermutation<T(!new)>(s: seq<T>, t: seq<T>, le: (T, T) -> bool)
    requires TotalPreorder(le) && multiset(s) == multiset(t) && StrictOn(s, le)
    ensures Sort(s, le) == Sort(t, le)
  {
    SortSorted(s, le);
    SortSorted(t, le);
    SameElements(s, Sort(s, le));
    SortedUnique(Sort(s, le), Sort(t, le), le);
  }

  function Filter<T(!new)>(s: seq<T>, keep: T -> bool): (r: seq<T>)
    ensures forall x :: x in r <==> x in s && keep(x)
    ensures |r| <= |s|
  {
    if s == [] then []
    else
      assert s == [s[0]] + s[1..];
      if keep(s[0]) then [s[0]] + Filter(s[1..], keep) else Filter(s[1..], keep)
  }

  lemma {:induction false} FilterConcat<T(!new)>(s: seq<T>, t: seq<T>, keep: T -> bool)
    ensures Filter(s + t, keep) == Filter(s, keep) + Filter(t, keep)
  {
    if s == [] {
      assert s + t == t;
    } else {
      assert (s + t)[1..] == s[1..] + t;
      FilterConcat(s[1..], t, keep);
    }
  }

  lemma {:induction false} FilterKeepsAll<T(!new)>(s: seq<T>, keep: T -> bool)
    requires forall x | x in s :: keep(x)
    ensures Filter(s, keep) == s
  {
    if s != [] {
      FilterKeepsAll(s[1..], keep);
      assert s == [s[0]] + s[1..];
    }
  }

  lemma {:induction false} FilterKeepsNone<T(!new)>(s: seq<T>, keep: T -> bool)
    requires forall x | x in s :: !keep(x)
    ensures Filter(s, keep) == []
  {
    if s != [] {
      FilterKeepsNone(s[1..], keep);
    }
  }

  /** Filtering keeps exactly the multiplicities of the kept elements. */
  lemma {:induction false} FilterMultiset<T(!new)>(s: seq<T>, keep: T -> bool, x: T)
    ensures multiset(Filter(s, keep))[x] == if keep(x) then multiset(s)[x] else 0
  {
    if s != [] {
      assert s == [s[0]] + s[1..];
      FilterMultiset(s[1..], keep, x);
    }
  }

  lemma FilterPermutation<T(!new)>(s: seq<T>, t: seq<T>, keep: T -> bool)
    requires multiset(s) == multiset(t)
    ensures multiset(Filter(s, keep)) == multiset(Filter(t, keep))
  {
    forall x
      ensures multiset(Filter(s, keep))[x] == multiset(Filter(t, keep))[x]
    {
      FilterMultiset(s, keep, x);
      FilterMultiset(t, keep, x);
    }
  }

  lemma {:induction false} FilterInsert<T(!new)>(x: T, s: seq<T>, le: (T, T) -> bool, keep: T -> bool)
    requires TotalPreorder(le) && Sorted(s, le)
    ensures Filter(Insert(x, s, le), keep) == if keep(x) then Insert(x, Filter(s, keep), le) else Filter(s, keep)
  {
    if s == [] {
    } else if le(x, s[0]) {
      assert ([x] + s)[1..] == s;
      FilterInsertFront(x, s, le, keep);
    } else {
      FilterInsert(x, s[1..], le, keep);
      var r := Insert(x, s[1..], le);
      assert ([s[0]] + r)[1..] == r;
      if keep(s[0]) {
        var f := Filter(s[1..], keep);
        assert ([s[0]] + f)[1..] == f;
      } else if keep(x) {
        assert Filter(s, keep) == Filter(s[1..], keep);
      }
    }
  }

  lemma FilterInsertFront<T(!new)>(x: T, s: seq<T>, le: (T, T) -> bool, keep: T -> bool)
    requires TotalPreorder(le) && Sorted(s, le) && s != [] && le(x, s[0])
    ensures Insert(x, Filter(s, keep), le) == [x] + Filter(s, keep)
  {
    var f := Filter(s, keep);
    if f != [] {
      assert f[0] in f;
      var k :| 0 <= k < |s| && s[k] == f[0];
      assert le(s[0], s[k]) by { assert le(s[0], s[0]); }
    }
  }

  /** Stable sorting commutes with filtering. */
  lemma {:induction false} FilterSort<T(!new)>(s: seq<T>, le: (T, T) -> bool, keep: T -> bool)
    requires TotalPreorder(le)
    ensures Filter(Sort(s, le), keep) == Sort(Filter(s, keep), le)
  {
    if s != [] {
      FilterSort(s[1..], le, keep);
      SortSorted(s[1..], le);
      FilterInsert(s[0], Sort(s[1..], le), le, keep);
      if keep(s[0]) {
        var f := Filter(s[1..], keep);
        assert ([s[0]] + f)[1..] == f;
      }
    }
  }
}
