/** The median absolute deviation (src/stats/mad.rs). */
module StatsMad {

  import opened Sorting
  import opened StatsMedian

  function Abs(x: real): real { if x < 0.0 then -x else x }

  /** The absolute deviations of `s` from `m`, in the order of `s`. */
  function Deviations(s: seq<real>, m: real): (d: seq<real>)
    ensures |d| == |s|
    ensures forall i :: 0 <= i < |s| ==> d[i] == Abs(s[i] - m)
  {
    seq(|s|, i requires 0 <= i < |s| => Abs(s[i] - m))
  }

  /** median(|x_i - median(x)|); 0 for the empty sequence. */
  function MadOf(s: seq<real>): real
  {
    if |s| == 0 then 0.0 else MedianOf(Deviations(s, MedianOf(s)))
  }

  /** Computes the MAD on private copies; the caller's values are read only. */
  method Mad(values: seq<real>) returns (r: real)
    ensures r == MadOf(values)
  {
    var n := |values|;
    if n == 0 {
      return 0.0;
    }
    var buf := new real[n](i requires 0 <= i < n => values[i]);
    assert buf[..] == values;
    var med := Median(buf);
    var deviations := new real[n](i requires 0 <= i < n => Abs(values[i] - med));
    assert deviations[..] == Deviations(values, med);
    r := Median(deviations);
  }

  /** The MAD is never negative. */
  lemma MadNonNegative(s: seq<real>)
    ensures MadOf(s) >= 0.0
  {
    if |s| > 0 {
      var d := Deviations(s, MedianOf(s));
      MedianBounds(d);
    }
  }

  /** A constant sequence has MAD 0. */
  lemma MadOfConstant(s: seq<real>, c: real)
    requires forall i :: 0 <= i < |s| ==> s[i] == c
    ensures MadOf(s) == 0.0
  {
    if |s| > 0 {
      MedianOfConstant(s, c);
      MedianOfConstant(Deviations(s, c), 0.0);
    }
  }

  /** [1, 2, 3, 4, 5] has median 3, deviations [2, 1, 0, 1, 2] and MAD 1. */
  lemma MadExample(s: seq<real>)
    requires s == [1.0, 2.0, 3.0, 4.0, 5.0]
    ensures MadOf(s) == 1.0
  {
    MedianOfOneToFive(s);
    DeviationsOfOneToFive(s);
    MedianOfDeviations(Deviations(s, 3.0));
  }

  lemma MedianOfOneToFive(s: seq<real>)
    requires s == [1.0, 2.0, 3.0, 4.0, 5.0]
    ensures MedianOf(s) == 3.0
  {
    AscendingOneToFive(s);
    MedianViaSorted(s, s);
  }

  lemma DeviationsOfOneToFive(s: seq<real>)
    requires s == [1.0, 2.0, 3.0, 4.0, 5.0]
    ensures Deviations(s, 3.0) == [2.0, 1.0, 0.0, 1.0, 2.0]
  {
  }

  lemma MedianOfDeviations(d: seq<real>)
    requires d == [2.0, 1.0, 0.0, 1.0, 2.0]
    ensures MedianOf(d) == 1.0
  {
    DeviationsPermuteToAscending(d);
    MedianViaSorted(d, [0.0, 1.0, 1.0, 2.0, 2.0]);
  }

  lemma DeviationsPermuteToAscending(d: seq<real>)
    requires d == [2.0, 1.0, 0.0, 1.0, 2.0]
    ensures Sorted([0.0, 1.0, 1.0, 2.0, 2.0]) && multiset([0.0, 1.0, 1.0, 2.0, 2.0]) == multiset(d)
  {
    MultisetOf5(2.0, 1.0, 0.0, 1.0, 2.0);
    MultisetOf5(0.0, 1.0, 1.0, 2.0, 2.0);
  }
}
