/**
 * The comparator sort the source uses throughout,
 * `sort((a, b) => key(b) - key(a))`: a stable sort into descending order
 * of an integer key.
 */
module Sorting {

  /** Descending by `rank`: no element outranks one before it. */
  predicate SortedDesc<T>(s: seq<T>, rank: T -> int) {
    forall i, j :: 0 <= i < j < |s| ==> rank(s[i]) >= rank(s[j])
  }

  /**
   * Inserts `x` in front of the first element it does not rank below, so
   * that `x` stays ahead of later elements of equal rank.
   */
  function Insert<T>(x: T, s: seq<T>, rank: T -> int): (r: seq<T>)
    ensures |r| == |s| + 1
    ensures multiset(r) == multiset(s) + multiset{x}
  {
    if s == [] || rank(s[0]) <= rank(x) then [x] + s
    else
      assert s == [s[0]] + s[1..];
      [s[0]] + Insert(x, s[1..], rank)
  }

  /** Every element of `Insert(x, s)` is `x` or an element of `s`, so a common bound survives. */
  lemma {:induction false} InsertBounded<T>(x: T, s: seq<T>, rank: T -> int, bound: int)
    requires rank(x) <= bound
    requires forall i :: 0 <= i < |s| ==> rank(s[i]) <= bound
    ensures forall i :: 0 <= i < |s| + 1 ==> rank(Insert(x, s, rank)[i]) <= bound
  {
    if s != [] && rank(s[0]) > rank(x) {
      InsertBounded(x, s[1..], rank, bound);
    }
  }

  /** Inserting into a descending sequence keeps it descending. */
  lemma {:induction false} InsertSorted<T>(x: T, s: seq<T>, rank: T -> int)
    requires SortedDesc(s, rank)
    ensures SortedDesc(Insert(x, s, rank), rank)
  {
    if s != [] && rank(s[0]) > rank(x) {
      InsertSorted(x, s[1..], rank);
      InsertBounded(x, s[1..], rank, rank(s[0]));
    }
  }

  /** Insertion sort into descending order of `rank`. */
  function SortDesc<T>(s: seq<T>, rank: T -> int): (r: seq<T>)
    ensures |r| == |s|
    ensures multiset(r) == multiset(s)
    ensures SortedDesc(r, rank)
  {
    if s == [] then []
    else
      assert s == [s[0]] + s[1..];
      InsertSorted(s[0], SortDesc(s[1..], rank), rank);
      Insert(s[0], SortDesc(s[1..], rank), rank)
  }

  /** In a descending list, an element left out of the first `n` ranks no higher than any kept. */
  lemma LeftOutRanksLower<T>(sorted: seq<T>, rank: T -> int, n: nat, x: T, i: nat)
    requires SortedDesc(sorted, rank)
    requires i < n <= |sorted| && x in sorted && x !in sorted[..n]
    ensures rank(x) <= rank(sorted[i])
  {
    var j :| 0 <= j < |sorted| && sorted[j] == x;
    assert j >= n;
  }

  /** The first `n` of a descending arrangement of `s` stay descending and outrank every element of `s` left out. */
  lemma PrefixOutranksRest<T>(s: seq<T>, sorted: seq<T>, rank: T -> int, n: nat)
    requires multiset(sorted) == multiset(s) && SortedDesc(sorted, rank) && n <= |sorted|
    ensures SortedDesc(sorted[..n], rank)
    ensures forall i, x :: 0 <= i < n && x in s && x !in sorted[..n] ==> rank(x) <= rank(sorted[..n][i])
  {
    var top := sorted[..n];
    forall i, j | 0 <= i < j < n
      ensures rank(top[i]) >= rank(top[j])
    {
      assert top[i] == sorted[i] && top[j] == sorted[j];
    }
    forall i, x | 0 <= i < n && x in s && x !in top
      ensures rank(x) <= rank(top[i])
    {
      assert x in multiset(s);
      LeftOutRanksLower(sorted, rank, n, x, i);
    }
  }
}
