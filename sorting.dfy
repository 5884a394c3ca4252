/**
 * Ascending order on reals: the `sort_by(partial_cmp)` calls of the statistics
 * routines. A functional insertion sort is the reference; an in-place array sort
 * implements it, and sorted permutations are unique, so the two agree.
 */
module Sorting {

  predicate Sorted(s: seq<real>)
  {
    forall i, j :: 0 <= i < j < |s| ==> s[i] <= s[j]
  }

  /** The ascending sequence 1, 2, 3, 4, 5 used by several examples. */
  lemma AscendingOneToFive(s: seq<real>)
    requires s == [1.0, 2.0, 3.0, 4.0, 5.0]
    ensures Sorted(s)
  {
  }

  /** Inserts `x` into `s` before the first element not below it. */
  function Insert(x: real, s: seq<real>): (r: seq<real>)
    ensures |r| == |s| + 1
    ensures multiset(r) == multiset(s) + multiset{x}
  {
    if s == [] || x <= s[0] then [x] + s
    else
      assert s == [s[0]] + s[1..];
      [s[0]] + Insert(x, s[1..])
  }

  /** Insertion keeps a sequence ascending. */
  lemma {:induction false} InsertSorted(x: real, s: seq<real>)
    requires Sorted(s)
    ensures Sorted(Insert(x, s))
  {
    if s != [] && x > s[0] {
      var tail := s[1..];
      var rest := Insert(x, tail);
      assert Sorted(tail);
      InsertSorted(x, tail);
      assert s[0] <= rest[0] by {
        if tail != [] && x > tail[0] {
          assert rest[0] == tail[0];
        }
      }
      var r := [s[0]] + rest;
      assert Insert(x, s) == r;
      forall i, j | 0 <= i < j < |r|
        ensures r[i] <= r[j]
      {
        if i > 0 {
          assert r[i] == rest[i - 1] && r[j] == rest[j - 1];
        } else {
          assert r[j] == rest[j - 1];
          assert rest[0] <= rest[j - 1];
        }
      }
    }
  }

  /**
   * The reference sort: each element is inserted into the sorted rest. Its
   * contract carries only the length, so that contexts mentioning a sort do not
   * pay for its order and permutation facts; `SortRealsSpec` supplies those.
   */
  function SortReals(s: seq<real>): (t: seq<real>)
    ensures |t| == |s|
  {
    if s == [] then []
    else Insert(s[0], SortReals(s[1..]))
  }

  /** The reference sort returns an ascending permutation of its input. */
  lemma {:induction false} SortRealsSpec(s: seq<real>)
    ensures multiset(SortReals(s)) == multiset(s)
    ensures Sorted(SortReals(s))
  {
    if s != [] {
      assert s == [s[0]] + s[1..];
      SortRealsSpec(s[1..]);
      InsertSorted(s[0], SortReals(s[1..]));
    }
  }

  /** Two ascending sequences holding the same multiset are equal. */
  lemma {:induction false} SortedUnique(a: seq<real>, b: seq<real>)
    requires Sorted(a) && Sorted(b)
    requires multiset(a) == multiset(b)
    ensures a == b
  {
    assert |a| == |multiset(a)| == |multiset(b)| == |b|;
    if |a| > 0 {
      SameHead(a, b);
      SameHead(b, a);
      SortedUnique(a[1..], b[1..]);
    }
  }

  /** The head of an ascending sequence is at most any element of a permutation of it;
      removing the head leaves the tail's multiset. */
  lemma SameHead(a: seq<real>, b: seq<real>)
    requires Sorted(a) && Sorted(b) && |a| > 0
    requires multiset(a) == multiset(b)
    ensures |b| > 0 && b[0] <= a[0]
    ensures Sorted(a[1..])
    ensures multiset(a[1..]) == multiset(a) - multiset{a[0]}
  {
    assert a[0] in multiset(b);
    var j :| 0 <= j < |b| && b[j] == a[0];
    assert b[0] <= b[j];
    assert a == [a[0]] + a[1..];
  }

  /** Any ascending permutation of `s` is the reference sort of `s`. */
  lemma SortedPermutationIsSort(t: seq<real>, s: seq<real>)
    requires Sorted(t) && multiset(t) == multiset(s)
    ensures t == SortReals(s)
  {
    SortRealsSpec(s);
    SortedUnique(t, SortReals(s));
  }

  /** Sorting an ascending sequence changes nothing. */
  lemma SortOfSorted(s: seq<real>)
    requires Sorted(s)
    ensures SortReals(s) == s
  {
    SortRealsSpec(s);
    SortedUnique(s, SortReals(s));
  }

  /** Sequences holding the same multiset sort to the same sequence. */
  lemma SortDependsOnlyOnMultiset(s: seq<real>, t: seq<real>)
    requires multiset(s) == multiset(t)
    ensures SortReals(s) == SortReals(t)
  {
    SortRealsSpec(s);
    SortRealsSpec(t);
    SortedUnique(SortReals(s), SortReals(t));
  }

  function Min(s: seq<real>): (m: real)
    requires |s| > 0
    ensures m in s
    ensures forall i :: 0 <= i < |s| ==> m <= s[i]
  {
    if |s| == 1 then s[0]
    else
      var rest := Min(s[1..]);
      assert forall i :: 1 <= i < |s| ==> s[i] == s[1..][i - 1];
      if s[0] <= rest then s[0] else rest
  }

  function Max(s: seq<real>): (m: real)
    requires |s| > 0
    ensures m in s
    ensures forall i :: 0 <= i < |s| ==> s[i] <= m
  {
    if |s| == 1 then s[0]
    else
      var rest := Max(s[1..]);
      assert forall i :: 1 <= i < |s| ==> s[i] == s[1..][i - 1];
      if s[0] >= rest then s[0] else rest
  }

  /** The ends of the sorted sequence are the minimum and the maximum of the input. */
  lemma SortEnds(s: seq<real>)
    requires |s| > 0
    ensures SortReals(s)[0] == Min(s)
    ensures SortReals(s)[|s| - 1] == Max(s)
  {
    var t := SortReals(s);
    SortRealsSpec(s);
    MemberOfPermutation(Min(s), s, t);
    MemberOfPermutation(Max(s), s, t);
    MemberOfPermutation(t[0], t, s);
    MemberOfPermutation(t[|t| - 1], t, s);
    SortedEndsBound(t, Min(s));
    SortedEndsBound(t, Max(s));
    ExtremaBound(s, t[0]);
    ExtremaBound(s, t[|t| - 1]);
  }

  lemma MemberOfPermutation(x: real, s: seq<real>, t: seq<real>)
    requires multiset(s) == multiset(t)
    requires x in s
    ensures x in t
  {
    assert x in multiset(s);
  }

  /** Every member of an ascending sequence lies between its first and its last element. */
  lemma SortedEndsBound(t: seq<real>, x: real)
    requires Sorted(t) && x in t
    ensures t[0] <= x <= t[|t| - 1]
  {
    var k :| 0 <= k < |t| && t[k] == x;
    assert t[0] <= t[k] <= t[|t| - 1];
  }

  /** Every member lies between the minimum and the maximum. */
  lemma ExtremaBound(s: seq<real>, x: real)
    requires x in s
    ensures Min(s) <= x <= Max(s)
  {
    var k :| 0 <= k < |s| && s[k] == x;
  }

  /** Every element of the sorted sequence lies between the minimum and the maximum. */
  lemma SortBounds(s: seq<real>, i: int)
    requires 0 <= i < |s|
    ensures Min(s) <= SortReals(s)[i] <= Max(s)
  {
    var t := SortReals(s);
    SortRealsSpec(s);
    MemberOfPermutation(t[i], t, s);
    ExtremaBound(s, t[i]);
  }

  /** Sorts `a` in place by insertion. */
  method SortInPlace(a: array<real>)
    modifies a
    ensures Sorted(a[..])
    ensures multiset(a[..]) == multiset(old(a[..]))
    ensures a[..] == SortReals(old(a[..]))
  {
    var i := 0;
    while i < a.Length
      invariant 0 <= i <= a.Length
      invariant forall p, q :: 0 <= p < q < i ==> a[p] <= a[q]
      invariant multiset(a[..]) == multiset(old(a[..]))
    {
      var j := i;
      while j > 0 && a[j - 1] > a[j]
        invariant 0 <= j <= i
        invariant forall p, q :: 0 <= p < q <= i && p != j && q != j ==> a[p] <= a[q]
        invariant forall q :: j < q <= i ==> a[j] <= a[q]
        invariant multiset(a[..]) == multiset(old(a[..]))
      {
        a[j - 1], a[j] := a[j], a[j - 1];
        j := j - 1;
      }
      i := i + 1;
    }
    assert a[..i] == a[..];
    SortedPermutationIsSort(a[..], old(a[..]));
  }
}
