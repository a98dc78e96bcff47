/** Sequence operations the stores use: filtering (`deleteMany`, `find` with a query),
    projection (`select`) and ordering (`sort({ createdAt: -1 })`). */
module Seqs {

  /** The elements of `s` that satisfy `p`, in their original order. */
  function Filter<T(!new)>(s: seq<T>, p: T -> bool): (r: seq<T>)
    ensures |r| <= |s|
    ensures forall x :: x in r <==> x in s && p(x)
    ensures multiset(r) <= multiset(s)
  {
    if s == [] then []
    else
      assert s == [s[0]] + s[1..];
      if p(s[0]) then [s[0]] + Filter(s[1..], p) else Filter(s[1..], p)
  }

  /** Number of elements of `s` that satisfy `p`. */
  function Count<T>(s: seq<T>, p: T -> bool): nat
  {
    if s == [] then 0 else (if p(s[0]) then 1 else 0) + Count(s[1..], p)
  }

  /** Filtering with `p` and with its complement `q` splits `s` in two: what one keeps
      the other drops, and `p` keeps `Count(s, p)` elements. */
  lemma {:induction false} FilterSplits<T(!new)>(s: seq<T>, p: T -> bool, q: T -> bool)
    requires forall x :: q(x) == !p(x)
    ensures |Filter(s, p)| == Count(s, p)
    ensures |Filter(s, q)| == |s| - Count(s, p)
    ensures multiset(Filter(s, p)) + multiset(Filter(s, q)) == multiset(s)
  {
    if s != [] {
      FilterSplits(s[1..], p, q);
      assert s == [s[0]] + s[1..];
    }
  }

  /** Filtering keeps an injective key injective: no two kept elements share a key. */
  lemma {:induction false} FilterKeepsKeysDistinct<T(!new), K>(s: seq<T>, p: T -> bool, key: T -> K)
    requires forall i, j :: 0 <= i < j < |s| ==> key(s[i]) != key(s[j])
    ensures forall i, j :: 0 <= i < j < |Filter(s, p)| ==> key(Filter(s, p)[i]) != key(Filter(s, p)[j])
  {
    if s != [] {
      var rest := Filter(s[1..], p);
      FilterKeepsKeysDistinct(s[1..], p, key);
      if p(s[0]) {
        forall j | 0 <= j < |rest|
          ensures key(s[0]) != key(rest[j])
        {
          assert rest[j] in s[1..];
          var k :| 0 <= k < |s[1..]| && s[1..][k] == rest[j];
          assert s[k + 1] == rest[j];
        }
      }
    }
  }

  /** Applies `f` to every element (a projection such as mongoose's `select`). */
  function MapSeq<T, U>(s: seq<T>, f: T -> U): (r: seq<U>)
    ensures |r| == |s|
    ensures forall i :: 0 <= i < |s| ==> r[i] == f(s[i])
  {
    if s == [] then [] else [f(s[0])] + MapSeq(s[1..], f)
  }

  /** `s` lists keys from the largest down (ties in any order). */
  predicate SortedDesc<T>(s: seq<T>, key: T -> int)
  {
    forall i, j :: 0 <= i < j < |s| ==> key(s[i]) >= key(s[j])
  }

  /** Inserts `x` into a descending list, before the first element with a smaller key. */
  function InsertDesc<T>(x: T, s: seq<T>, key: T -> int): (r: seq<T>)
    requires SortedDesc(s, key)
    ensures SortedDesc(r, key)
    ensures multiset(r) == multiset(s) + multiset{x}
    ensures |r| == |s| + 1 && (r[0] == x || (s != [] && r[0] == s[0]))
  {
    if s == [] || key(x) >= key(s[0]) then [x] + s
    else
      var rest := InsertDesc(x, s[1..], key);
      assert s == [s[0]] + s[1..];
      assert key(s[0]) >= key(rest[0]);
      [s[0]] + rest
  }

  /** Insertion sort by `key`, largest first: a permutation of `s` that is sorted. */
  function SortDesc<T>(s: seq<T>, key: T -> int): (r: seq<T>)
    ensures SortedDesc(r, key)
    ensures multiset(r) == multiset(s)
    ensures |r| == |s|
  {
    if s == [] then []
    else
      assert s == [s[0]] + s[1..];
      InsertDesc(s[0], SortDesc(s[1..], key), key)
  }

  /** A projection that keeps the sort key keeps a list sorted. */
  lemma MapSorted<T, U>(s: seq<T>, key: T -> int, f: T -> U, key': U -> int)
    requires SortedDesc(s, key)
    requires forall y :: key'(f(y)) == key(y)
    ensures SortedDesc(MapSeq(s, f), key')
  {
    var m := MapSeq(s, f);
    forall i, j | 0 <= i < j < |m|
      ensures key'(m[i]) >= key'(m[j])
    {
      assert key'(f(s[i])) == key(s[i]) && key'(f(s[j])) == key(s[j]);
    }
  }

  /** A projection that keeps the sort key commutes with insertion. */
  lemma {:induction false} MapInsertDesc<T, U>(x: T, s: seq<T>, key: T -> int, f: T -> U, key': U -> int)
    requires SortedDesc(s, key)
    requires forall y :: key'(f(y)) == key(y)
    ensures SortedDesc(MapSeq(s, f), key')
    ensures MapSeq(InsertDesc(x, s, key), f) == InsertDesc(f(x), MapSeq(s, f), key')
  {
    MapSorted(s, key, f, key');
    var m := MapSeq(s, f);
    if s == [] {
      assert MapSeq([x], f) == [f(x)];
    } else if key(x) >= key(s[0]) {
      assert key'(f(x)) >= key'(m[0]);
      assert InsertDesc(f(x), m, key') == [f(x)] + m;
      assert MapSeq([x] + s, f) == [f(x)] + m;
    } else {
      assert key'(f(x)) < key'(m[0]);
      var rest := InsertDesc(x, s[1..], key);
      assert SortedDesc(s[1..], key);
      MapInsertDesc(x, s[1..], key, f, key');
      assert m[1..] == MapSeq(s[1..], f);
      assert InsertDesc(f(x), m, key') == [m[0]] + InsertDesc(f(x), m[1..], key');
      assert MapSeq([s[0]] + rest, f) == [f(s[0])] + MapSeq(rest, f);
    }
  }

  /** Projecting a sorted list gives the list that sorting the projections gives:
      a query that selects fields and then sorts returns the same order as one that sorts first. */
  lemma {:induction false} MapSortDesc<T, U>(s: seq<T>, key: T -> int, f: T -> U, key': U -> int)
    requires forall y :: key'(f(y)) == key(y)
    ensures MapSeq(SortDesc(s, key), f) == SortDesc(MapSeq(s, f), key')
  {
    if s != [] {
      MapSortDesc(s[1..], key, f, key');
      MapInsertDesc(s[0], SortDesc(s[1..], key), key, f, key');
      assert MapSeq(s, f) == [f(s[0])] + MapSeq(s[1..], f);
    }
  }
}
