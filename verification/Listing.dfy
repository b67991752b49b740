/** Directory listings and library sorts. The order of a listing is arbitrary, but each entry is listed
    once; Arrays.sort returns a sorted permutation, and where the order is antisymmetric there
    is but one, so that sorting any listing of the elements of a sorted list gives that list
    back. */
module Listing {
  ghost predicate Distinct<T>(s: seq<T>) {
    forall i, j | 0 <= i < j < |s| :: s[i] != s[j]
  }

  ghost predicate SortedBy<T>(s: seq<T>, le: (T, T) -> bool) {
    forall i, j | 0 <= i < j < |s| :: le(s[i], s[j])
  }

  /** le orders the elements of s. */
  ghost predicate Orders<T>(le: (T, T) -> bool, s: seq<T>) {
    && (forall x, y | x in s && y in s :: le(x, y) || le(y, x))
    && (forall x, y, z | x in s && y in s && z in s && le(x, y) && le(y, z) :: le(x, z))
  }

  function Insert<T(!new)>(x: T, s: seq<T>, le: (T, T) -> bool): seq<T> {
    if s == [] then [x] else if le(x, s[0]) then [x] + s else [s[0]] + Insert(x, s[1..], le)
  }

  /** Arrays.sort with a comparator. */
  function Sort<T(!new)>(s: seq<T>, le: (T, T) -> bool): seq<T> {
    if s == [] then [] else Insert(s[0], Sort(s[1..], le), le)
  }

  lemma {:induction false} InsertPermutes<T(!new)>(x: T, s: seq<T>, le: (T, T) -> bool)
    ensures multiset(Insert(x, s, le)) == multiset{x} + multiset(s)
    ensures forall y :: y in Insert(x, s, le) <==> y == x || y in s
  {
    if s != [] {
      assert s == [s[0]] + s[1..];
      InsertPermutes(x, s[1..], le);
    }
  }

  /** A sorted list is a permutation of the list it was sorted from. */
  lemma {:induction false} SortPermutes<T(!new)>(s: seq<T>, le: (T, T) -> bool)
    ensures multiset(Sort(s, le)) == multiset(s)
    ensures |Sort(s, le)| == |s| && forall y :: y in Sort(s, le) <==> y in s
  {
    if s != [] {
      assert s == [s[0]] + s[1..];
      SortPermutes(s[1..], le);
      InsertPermutes(s[0], Sort(s[1..], le), le);
    }
    SameElements(Sort(s, le), s);
  }

  lemma SameElements<T>(s: seq<T>, r: seq<T>)
    requires multiset(s) == multiset(r)
    ensures |s| == |r| && forall x :: x in s <==> x in r
  {
    assert |s| == |multiset(s)| && |r| == |multiset(r)|;
    forall x ensures x in s <==> x in r {
      assert x in s <==> x in multiset(s);
      assert x in r <==> x in multiset(r);
    }
  }

  lemma {:induction false} InsertSorted<T(!new)>(x: T, s: seq<T>, le: (T, T) -> bool)
    requires SortedBy(s, le)
    requires forall y | y in s :: le(x, y) || le(y, x)
    requires forall y, z | y in s && z in s && le(x, y) && le(y, z) :: le(x, z)
    ensures SortedBy(Insert(x, s, le), le)
  {
    if s != [] {
      if le(x, s[0]) {
        forall j | 0 <= j < |s| ensures le(x, s[j]) {
          if j > 0 {
            assert le(s[0], s[j]);
          }
        }
      } else {
        var t := s[1..];
        InsertSorted(x, t, le);
        InsertPermutes(x, t, le);
        var r := Insert(x, t, le);
        forall j | 0 <= j < |r| ensures le(s[0], r[j]) {
          if r[j] != x {
            assert r[j] in r;
            var i :| 0 <= i < |t| && t[i] == r[j];
            assert s[i + 1] == r[j];
          }
        }
      }
    }
  }

  lemma {:induction false} SortSorts<T(!new)>(s: seq<T>, le: (T, T) -> bool)
    requires Orders(le, s)
    ensures SortedBy(Sort(s, le), le)
  {
    if s != [] {
      SortSorts(s[1..], le);
      SortPermutes(s[1..], le);
      InsertSorted(s[0], Sort(s[1..], le), le);
    }
  }

  /** le never holds both ways between different elements of s. */
  ghost predicate Antisymmetric<T>(le: (T, T) -> bool, s: seq<T>) {
    forall i, j | 0 <= i < |s| && 0 <= j < |s| && le(s[i], s[j]) && le(s[j], s[i]) :: s[i] == s[j]
  }

  lemma HeadsAgree<T>(a: seq<T>, b: seq<T>, le: (T, T) -> bool)
    requires a != [] && multiset(a) == multiset(b)
    requires SortedBy(a, le) && SortedBy(b, le) && Antisymmetric(le, a)
    ensures b != [] && a[0] == b[0]
  {
    SameElements(a, b);
    assert b[0] in b && a[0] in a;
    var i :| 0 <= i < |a| && a[i] == b[0];
    var j :| 0 <= j < |b| && b[j] == a[0];
  }

  /** A list has one sorted permutation when le is antisymmetric on its elements. */
  lemma {:induction false} SortedUnique<T>(a: seq<T>, b: seq<T>, le: (T, T) -> bool)
    requires multiset(a) == multiset(b)
    requires SortedBy(a, le) && SortedBy(b, le) && Antisymmetric(le, a)
    ensures a == b
  {
    if a == [] {
      SameElements(a, b);
    } else {
      HeadsAgree(a, b, le);
      assert a == [a[0]] + a[1..] && b == [b[0]] + b[1..];
      assert multiset(a[1..]) == multiset(a) - multiset{a[0]};
      assert multiset(b[1..]) == multiset(b) - multiset{b[0]};
      SortedUnique(a[1..], b[1..], le);
    }
  }

  /** Sorting any listing of the elements of an already sorted list restores that list. */
  lemma SortRestores<T(!new)>(listing: seq<T>, inOrder: seq<T>, le: (T, T) -> bool)
    requires multiset(listing) == multiset(inOrder)
    requires Orders(le, inOrder) && SortedBy(inOrder, le) && Antisymmetric(le, inOrder)
    ensures Sort(listing, le) == inOrder
  {
    SameElements(listing, inOrder);
    SortSorts(listing, le);
    SortPermutes(listing, le);
    SortedUnique(inOrder, Sort(listing, le), le);
  }

  /** Two duplicate-free lists of one set are permutations of each other. */
  lemma {:induction false} SameSet<T>(a: seq<T>, b: seq<T>)
    requires Distinct(a) && Distinct(b) && forall x :: x in a <==> x in b
    ensures multiset(a) == multiset(b)
  {
    forall x ensures multiset(a)[x] == multiset(b)[x] {
      DistinctCount(a, x);
      DistinctCount(b, x);
    }
  }

  lemma {:induction false} DistinctCount<T>(a: seq<T>, x: T)
    requires Distinct(a)
    ensures multiset(a)[x] == if x in a then 1 else 0
  {
    if a != [] {
      assert a == [a[0]] + a[1..];
      DistinctCount(a[1..], x);
      if x == a[0] {
        assert x !in a[1..];
      }
    }
  }

  lemma DistinctPermutes<T>(s: seq<T>, p: seq<T>)
    requires Distinct(s) && multiset(s) == multiset(p)
    ensures Distinct(p)
  {
    forall i, j | 0 <= i < j < |p| ensures p[i] != p[j] {
      var x := p[j];
      DistinctCount(s, x);
      assert p == p[..j] + p[j..];
      assert multiset(p)[x] == multiset(p[..j])[x] + multiset(p[j..])[x];
      assert x in p[j..] by { assert p[j..][0] == x; }
      assert p[i] == p[..j][i] && p[..j][i] in p[..j];
    }
  }

  lemma WithoutOne<T>(s: seq<T>, i: nat)
    requires i < |s|
    ensures multiset(s[..i] + s[i + 1..]) == multiset(s) - multiset{s[i]}
  {
    assert s == s[..i] + [s[i]] + s[i + 1..];
  }

  lemma {:induction false} DistinctSize<T>(a: seq<T>, s: set<T>)
    requires Distinct(a) && forall x :: x in a <==> x in s
    ensures |a| == |s|
  {
    if a == [] {
      assert s == {};
    } else {
      assert a == [a[0]] + a[1..];
      assert forall x :: x in a[1..] <==> x in s - {a[0]};
      DistinctSize(a[1..], s - {a[0]});
    }
  }

  lemma DistinctConcat<T>(a: seq<T>, b: seq<T>)
    requires Distinct(a) && Distinct(b)
    requires forall i, j | 0 <= i < |a| && 0 <= j < |b| :: a[i] != b[j]
    ensures Distinct(a + b)
  {
  }

  lemma Regroup<T>(a: seq<T>, b: seq<T>, c: seq<T>)
    ensures a + (b + c) == a + b + c
  {
  }
}
