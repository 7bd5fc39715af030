/** Sequence operations that the source performs with JavaScript array methods. */
module Seqs {

  /** `Math.min` on integers. */
  function Min(a: int, b: int): int { if a <= b then a else b }

  /** `Math.max` on integers. */
  function Max(a: int, b: int): int { if a <= b then b else a }

  /**
   * The index JavaScript's `slice` uses for a start argument: a negative
   * value counts back from the end and is clamped at 0, a positive one is
   * clamped at the length.
   */
  function SliceIndex(len: nat, i: int): (k: nat)
    ensures k <= len
    ensures i < 0 ==> k == Max(len + i, 0)
    ensures 0 <= i ==> k == Min(i, len)
  {
    if i < 0 then (if len + i < 0 then 0 else len + i)
    else if i <= len then i else len
  }

  /** `s.slice(start)`. */
  function SliceFrom<T>(s: seq<T>, start: int): seq<T> {
    s[SliceIndex(|s|, start)..]
  }

  /** `s.slice(0, n)`: the first `n` elements, or all of them. */
  function Take<T>(s: seq<T>, n: nat): (r: seq<T>)
    ensures |r| == Min(n, |s|)
    ensures r == s[..|r|]
  {
    if n <= |s| then s[..n] else s
  }

  /**
   * `s.slice(-n)` for `n >= 1` keeps the last `min(n, |s|)` elements, in
   * their original order.
   */
  lemma SliceFromNegative<T>(s: seq<T>, n: nat)
    requires 1 <= n
    ensures |SliceFrom(s, -(n as int))| == Min(n, |s|)
    ensures SliceFrom(s, -(n as int)) == s[|s| - Min(n, |s|)..]
  {
  }

  /** `s.slice(-0)` is `s.slice(0)`: the whole sequence, not an empty one. */
  lemma SliceFromMinusZero<T>(s: seq<T>)
    ensures SliceFrom(s, -0) == s
  {
  }

  /** Reverses a sequence (`Array.prototype.reverse`). */
  function Reverse<T>(s: seq<T>): (r: seq<T>)
    ensures |r| == |s|
    ensures forall i :: 0 <= i < |s| ==> r[i] == s[|s| - 1 - i]
  {
    if s == [] then [] else Reverse(s[1..]) + [s[0]]
  }

  /** Reversing puts a last element first. */
  lemma ReverseSnoc<T>(s: seq<T>, x: T)
    ensures Reverse(s + [x]) == [x] + Reverse(s)
  {
    var r := Reverse(s + [x]);
    var t := [x] + Reverse(s);
    assert |r| == |t|;
    forall i | 0 <= i < |r| ensures r[i] == t[i] {
      if i > 0 {
        assert t[i] == Reverse(s)[i - 1];
      }
    }
  }

  /**
   * Removes every occurrence of `x` (Redis `LREM key 0 x`, and
   * `filter(s => s !== x)`): the other elements keep their order and their
   * number of occurrences.
   */
  function RemoveAll<T(==,!new)>(s: seq<T>, x: T): (r: seq<T>)
    ensures x !in r
    ensures forall y :: y != x ==> multiset(r)[y] == multiset(s)[y]
    ensures |r| == |s| - multiset(s)[x]
    ensures forall y :: y in r ==> y in s
  {
    if s == [] then []
    else if s[0] == x then
      assert s == [s[0]] + s[1..];
      RemoveAll(s[1..], x)
    else
      assert s == [s[0]] + s[1..];
      [s[0]] + RemoveAll(s[1..], x)
  }

  /** Removing an element that does not occur changes nothing. */
  lemma {:induction false} RemoveAllAbsent<T(!new)>(s: seq<T>, x: T)
    requires x !in s
    ensures RemoveAll(s, x) == s
  {
    if s != [] {
      RemoveAllAbsent(s[1..], x);
    }
  }

  /** Removal distributes over concatenation, so untouched parts keep their order. */
  lemma {:induction false} RemoveAllAppend<T(!new)>(s: seq<T>, t: seq<T>, x: T)
    ensures RemoveAll(s + t, x) == RemoveAll(s, x) + RemoveAll(t, x)
  {
    if s == [] {
      assert s + t == t;
    } else {
      assert (s + t)[0] == s[0] && (s + t)[1..] == s[1..] + t;
      RemoveAllAppend(s[1..], t, x);
      if s[0] != x {
        assert [s[0]] + (RemoveAll(s[1..], x) + RemoveAll(t, x)) == [s[0]] + RemoveAll(s[1..], x) + RemoveAll(t, x);
      }
    }
  }

  /** Removing twice is removing once. */
  lemma RemoveAllIdempotent<T(!new)>(s: seq<T>, x: T)
    ensures RemoveAll(RemoveAll(s, x), x) == RemoveAll(s, x)
  {
    RemoveAllAbsent(RemoveAll(s, x), x);
  }

  /** Sum of a sequence of integers (`reduce((a, b) => a + b, 0)`). */
  function Sum(s: seq<int>): int {
    if s == [] then 0 else s[0] + Sum(s[1..])
  }

  /** Sum distributes over concatenation. */
  lemma {:induction false} SumAppend(s: seq<int>, t: seq<int>)
    ensures Sum(s + t) == Sum(s) + Sum(t)
  {
    if s == [] {
      assert s + t == t;
    } else {
      assert (s + t)[1..] == s[1..] + t;
      SumAppend(s[1..], t);
    }
  }

  /** A sum of `n` values in `[lo, hi]` lies in `[n*lo, n*hi]`. */
  lemma {:induction false} SumBounds(s: seq<int>, lo: int, hi: int)
    requires forall i :: 0 <= i < |s| ==> lo <= s[i] <= hi
    ensures |s| * lo <= Sum(s) <= |s| * hi
  {
    if s != [] {
      SumBounds(s[1..], lo, hi);
    }
  }

  /** The elements of a concatenation are those of its parts. */
  lemma ElementsOfAppend<T>(a: seq<T>, b: seq<T>)
    ensures (set x | x in a + b) == (set x | x in a) + (set x | x in b)
  {
  }

  /** Pushing `x` in front of a reversal followed by `rest` reverses the sequence extended by `x`. */
  lemma ReversedStep<T>(rest: seq<T>, s: seq<T>, x: T)
    ensures [x] + (Reverse(s) + rest) == Reverse(s + [x]) + rest
  {
    ReverseSnoc(s, x);
  }
  /** Whether position `i` is flagged; positions past the end of `flags` are not. */
  predicate Flagged(flags: seq<bool>, i: int) {
    0 <= i < |flags| && flags[i]
  }

  /** Whether any of the first `n` positions is flagged. */
  predicate AnyFlagged(flags: seq<bool>, n: nat) {
    exists i :: 0 <= i < n && Flagged(flags, i)
  }

  /** The elements of `s` at unflagged positions, in order. */
  function Unflagged<T>(s: seq<T>, flags: seq<bool>): (r: seq<T>)
    ensures |r| <= |s|
    ensures forall x :: x in r ==> x in s
    ensures forall i :: 0 <= i < |s| && !Flagged(flags, i) ==> s[i] in r
    ensures !AnyFlagged(flags, |s|) ==> r == s
    decreases |s|
  {
    if s == [] then []
    else
      var n := |s| - 1;
      assert forall i :: 0 <= i < n ==> s[..n][i] == s[i];
      Unflagged(s[..n], flags) + (if Flagged(flags, n) then [] else [s[n]])
  }

  /** Extending the prefix by one position keeps that element exactly when it is unflagged. */
  lemma UnflaggedStep<T>(s: seq<T>, flags: seq<bool>, i: nat)
    requires i < |s|
    ensures Unflagged(s[..i + 1], flags) == Unflagged(s[..i], flags) + (if Flagged(flags, i) then [] else [s[i]])
  {
    assert s[..i + 1][..i] == s[..i];
  }

  /** Flagging every position leaves nothing. */
  lemma {:induction false} UnflaggedAllFlagged<T>(s: seq<T>, flags: seq<bool>)
    requires forall i :: 0 <= i < |s| ==> Flagged(flags, i)
    ensures Unflagged(s, flags) == []
  {
    if s != [] {
      UnflaggedAllFlagged(s[..|s| - 1], flags);
    }
  }
}
