/**
 * The two query-set operations the listings are built from: `filter` and
 * `order_by` on an integer key (here always `created_at`).  A database gives
 * no order between rows with equal keys, so `OrderBy` promises only what
 * `order_by` promises: the rows, each as often as before, sorted by the key.
 */
module Queries {

  function Filter<T(!new)>(s: seq<T>, p: T -> bool): (r: seq<T>)
    ensures forall x :: multiset(r)[x] == if p(x) then multiset(s)[x] else 0
    ensures forall x :: x in r <==> x in s && p(x)
    ensures |r| <= |s|
  {
    if s == [] then []
    else
      var rest := Filter(s[1..], p);
      assert s == [s[0]] + s[1..];
      assert forall x :: multiset(s)[x] == multiset([s[0]])[x] + multiset(s[1..])[x];
      if p(s[0]) then [s[0]] + rest else rest
  }

  /** The number of elements that satisfy `p`: what `.count()` of a filtered query set returns. */
  function Count<T>(s: seq<T>, p: T -> bool): nat {
    if s == [] then 0 else Count(s[1..], p) + (if p(s[0]) then 1 else 0)
  }

  /** Counting and filtering agree: `.filter(p).count()` is the length of the listing `.filter(p)`. */
  lemma {:induction false} FilterCount<T(!new)>(s: seq<T>, p: T -> bool)
    ensures |Filter(s, p)| == Count(s, p)
  {
    if s != [] {
      FilterCount(s[1..], p);
    }
  }

  predicate InOrder(a: int, b: int, descending: bool) {
    if descending then a >= b else a <= b
  }

  predicate SortedBy<T>(s: seq<T>, key: T -> int, descending: bool) {
    forall i, j :: 0 <= i < j < |s| ==> InOrder(key(s[i]), key(s[j]), descending)
  }

  /** A sorted sequence stays sorted when an element that may precede all of it is put in front. */
  lemma ConsSorted<T>(a: T, s: seq<T>, key: T -> int, descending: bool)
    requires SortedBy(s, key, descending)
    requires forall j :: 0 <= j < |s| ==> InOrder(key(a), key(s[j]), descending)
    ensures SortedBy([a] + s, key, descending)
  {
    var r := [a] + s;
    forall i, j | 0 <= i < j < |r|
      ensures InOrder(key(r[i]), key(r[j]), descending)
    {
      assert r[j] == s[j - 1];
      if i > 0 {
        assert r[i] == s[i - 1];
      }
    }
  }

  /** Inserts `x` before the first element it may precede. */
  function Insert<T>(x: T, s: seq<T>, key: T -> int, descending: bool): (r: seq<T>)
    requires SortedBy(s, key, descending)
    ensures SortedBy(r, key, descending)
    ensures multiset(r) == multiset(s) + multiset{x}
    ensures |r| == |s| + 1
    ensures forall y :: y in r ==> y == x || y in s
  {
    if s == [] || InOrder(key(x), key(s[0]), descending) then
      ConsSorted(x, s, key, descending);
      [x] + s
    else
      var tail := s[1..];
      assert s == [s[0]] + tail;
      assert SortedBy(tail, key, descending) by {
        forall i, j | 0 <= i < j < |tail|
          ensures InOrder(key(tail[i]), key(tail[j]), descending)
        {
          assert tail[i] == s[i + 1] && tail[j] == s[j + 1];
        }
      }
      var rest := Insert(x, tail, key, descending);
      forall j | 0 <= j < |rest|
        ensures InOrder(key(s[0]), key(rest[j]), descending)
      {
        assert rest[j] in rest;
        if rest[j] != x {
          var k :| 0 <= k < |tail| && tail[k] == rest[j];
          assert tail[k] == s[k + 1];
        }
      }
      ConsSorted(s[0], rest, key, descending);
      [s[0]] + rest
  }

  function OrderBy<T(!new)>(s: seq<T>, key: T -> int, descending: bool): (r: seq<T>)
    ensures SortedBy(r, key, descending)
    ensures multiset(r) == multiset(s)
    ensures |r| == |s|
    ensures forall x :: x in r <==> x in s
  {
    if s == [] then []
    else
      assert s == [s[0]] + s[1..];
      var r := Insert(s[0], OrderBy(s[1..], key, descending), key, descending);
      assert forall x :: x in r <==> x in multiset(r);
      r
  }
}
