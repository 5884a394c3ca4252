/** The median, computed by sorting the caller's slice in place (src/stats/median.rs). */
module StatsMedian {

  import opened Sorting

  /** The middle element of an ascending sequence, or the mean of the two middle ones. */
  function MedianOfSorted(t: seq<real>): real
    requires |t| > 0
  {
    if |t| % 2 == 1 then t[|t| / 2] else (t[|t| / 2 - 1] + t[|t| / 2]) / 2.0
  }

  /** The median of any sequence; 0 for the empty one. */
  function MedianOf(s: seq<real>): real
  {
    if |s| == 0 then 0.0 else MedianOfSorted(SortReals(s))
  }

  /** Sorts `values` in place and returns their median. */
  method Median(values: array<real>) returns (m: real)
    modifies values
    ensures multiset(values[..]) == multiset(old(values[..]))
    ensures Sorted(values[..])
    ensures values.Length == 0 ==> m == 0.0
    ensures values.Length % 2 == 1 ==> m == values[values.Length / 2]
    ensures values.Length > 0 && values.Length % 2 == 0 ==>
              m == (values[values.Length / 2 - 1] + values[values.Length / 2]) / 2.0
    ensures m == MedianOf(old(values[..]))
  {
    var n := values.Length;
    if n == 0 {
      return 0.0;
    }
    ghost var s := values[..];
    SortInPlace(values);
    ghost var t := values[..];
    if n % 2 == 1 {
      m := values[n / 2];
      assert m == t[n / 2];
    } else {
      m := (values[n / 2 - 1] + values[n / 2]) / 2.0;
      assert m == (t[n / 2 - 1] + t[n / 2]) / 2.0;
    }
    MedianFromSort(s, t, m);
  }

  /** A median read off the reference sort is the median of the input. */
  lemma MedianFromSort(s: seq<real>, t: seq<real>, m: real)
    requires |s| > 0 && t == SortReals(s)
    requires m == MedianOfSorted(t)
    ensures m == MedianOf(s)
  {
  }

  /** A non-empty median lies between the minimum and the maximum. */
  lemma MedianBounds(s: seq<real>)
    requires |s| > 0
    ensures Min(s) <= MedianOf(s) <= Max(s)
  {
    var n := |s|;
    SortBounds(s, n / 2);
    if n % 2 == 0 {
      SortBounds(s, n / 2 - 1);
    }
  }

  /** The median of non-negative values is non-negative. */
  lemma MedianOfNonNegative(s: seq<real>)
    requires forall x :: x in s ==> x >= 0.0
    ensures MedianOf(s) >= 0.0
  {
    if |s| > 0 {
      MedianBounds(s);
    }
  }

  /** The median depends only on the multiset of values. */
  lemma MedianOfPermutation(s: seq<real>, t: seq<real>)
    requires multiset(s) == multiset(t)
    ensures MedianOf(s) == MedianOf(t)
  {
    SortDependsOnlyOnMultiset(s, t);
  }

  /** The median of a non-empty constant sequence is that constant. */
  lemma MedianOfConstant(s: seq<real>, c: real)
    requires |s| > 0
    requires forall i :: 0 <= i < |s| ==> s[i] == c
    ensures MedianOf(s) == c
  {
    MedianBounds(s);
  }

  /** The median of `s` can be read off any ascending permutation of it. */
  lemma MedianViaSorted(s: seq<real>, t: seq<real>)
    requires |s| > 0 && |t| == |s|
    requires Sorted(t) && multiset(t) == multiset(s)
    ensures MedianOf(s) == MedianOfSorted(t)
  {
    SortedPermutationIsSort(t, s);
  }

  /** The values of the unit tests: [3, 1, 2] gives 2, [4, 1, 3, 2] gives 2.5, [7] gives 7,
      [] gives 0 and [5, 1, 3, 2, 4] gives 3. Each example names its ascending permutation. */
  lemma MedianOddExample(s: seq<real>)
    requires s == [3.0, 1.0, 2.0]
    ensures MedianOf(s) == 2.0
  {
    PermutesToAscending3(s);
    MedianViaSorted(s, [1.0, 2.0, 3.0]);
  }

  lemma MedianEvenExample(s: seq<real>)
    requires s == [4.0, 1.0, 3.0, 2.0]
    ensures MedianOf(s) == 2.5
  {
    PermutesToAscending4(s);
    MedianViaSorted(s, [1.0, 2.0, 3.0, 4.0]);
  }

  lemma MedianSingleAndEmptyExample()
    ensures MedianOf([7.0]) == 7.0
    ensures MedianOf([]) == 0.0
  {
    MedianViaSorted([7.0], [7.0]);
  }

  lemma MedianFiveExample(s: seq<real>)
    requires s == [5.0, 1.0, 3.0, 2.0, 4.0]
    ensures MedianOf(s) == 3.0
  {
    PermutesToAscending5(s);
    MedianViaSorted(s, [1.0, 2.0, 3.0, 4.0, 5.0]);
  }

  lemma PermutesToAscending3(s: seq<real>)
    requires s == [3.0, 1.0, 2.0]
    ensures Sorted([1.0, 2.0, 3.0]) && multiset([1.0, 2.0, 3.0]) == multiset(s)
  {
    MultisetOf3(3.0, 1.0, 2.0);
    MultisetOf3(1.0, 2.0, 3.0);
  }

  lemma PermutesToAscending4(s: seq<real>)
    requires s == [4.0, 1.0, 3.0, 2.0]
    ensures Sorted([1.0, 2.0, 3.0, 4.0]) && multiset([1.0, 2.0, 3.0, 4.0]) == multiset(s)
  {
    MultisetOf4(4.0, 1.0, 3.0, 2.0);
    MultisetOf4(1.0, 2.0, 3.0, 4.0);
  }

  lemma PermutesToAscending5(s: seq<real>)
    requires s == [5.0, 1.0, 3.0, 2.0, 4.0]
    ensures Sorted([1.0, 2.0, 3.0, 4.0, 5.0]) && multiset([1.0, 2.0, 3.0, 4.0, 5.0]) == multiset(s)
  {
    MultisetOf5(5.0, 1.0, 3.0, 2.0, 4.0);
    MultisetOf5(1.0, 2.0, 3.0, 4.0, 5.0);
  }

  lemma MultisetOf3(a: real, b: real, c: real)
    ensures multiset([a, b, c]) == multiset{a, b, c}
  {
  }

  lemma MultisetOf4(a: real, b: real, c: real, d: real)
    ensures multiset([a, b, c, d]) == multiset{a, b, c, d}
  {
  }

  lemma MultisetOf5(a: real, b: real, c: real, d: real, e: real)
    ensures multiset([a, b, c, d, e]) == multiset{a, b, c, d, e}
  {
  }
}
