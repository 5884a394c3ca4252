/** Quantiles by linear interpolation between order statistics (src/stats/quantile.rs). */
module StatsQuantile {

  import opened Sorting

  /** Rust's `f64::ceil`, as an integer. */
  function Ceil(x: real): int
  {
    if x.Floor as real == x then x.Floor else x.Floor + 1
  }

  /** A saturating `as usize` cast: negative values become 0. */
  function ToIndex(x: int): nat
  {
    if x < 0 then 0 else x
  }

  /** The interpolation position q * last for a sequence whose last index is `last`. */
  function Position(q: real, last: nat): real
  {
    q * last as real
  }

  /**
   * The two order-statistic indices around the position: floor and ceiling,
   * each cast saturating to an index. For q <= 1 both exist, they differ by at
   * most one, and when they differ the position lies strictly between them.
   */
  function Bracket(q: real, last: nat): (b: (nat, nat))
    requires q <= 1.0
    ensures b.0 <= b.1 <= last && b.1 <= b.0 + 1
    ensures b.0 != b.1 ==> b.0 as real < Position(q, last) < b.1 as real
    ensures Position(q, last) <= 0.0 ==> b == (0, 0)
  {
    var pos := Position(q, last);
    PositionInRange(q, last);
    (ToIndex(pos.Floor), ToIndex(Ceil(pos)))
  }

  /**
   * The interpolated q-quantile of an ascending sequence: the element at the
   * bracket if both indices coincide, else the blend of the two elements by
   * the fractional part of the position.
   */
  function QuantileOfSorted(t: seq<real>, q: real): real
    requires |t| > 0
    requires |t| == 1 || q <= 1.0
  {
    if |t| == 1 then t[0]
    else
      var (lo, hi) := Bracket(q, |t| - 1);
      if lo == hi then t[lo]
      else Blend(t[lo], t[hi], Position(q, |t| - 1) - lo as real)
  }

  /** Linear interpolation from a to b by the fraction f. */
  function Blend(a: real, b: real, f: real): real
  {
    a * (1.0 - f) + b * f
  }

  /** For q <= 1 the interpolation position does not pass the last index. */
  lemma PositionInRange(q: real, last: nat)
    requires q <= 1.0
    ensures Position(q, last).Floor <= last && Ceil(Position(q, last)) <= last
  {
    assert q * last as real <= last as real by {
      assert (1.0 - q) * last as real >= 0.0;
    }
  }

  /** The q-quantile of any sequence; 0 for the empty one. */
  function QuantileOf(s: seq<real>, q: real): real
    requires |s| <= 1 || q <= 1.0
  {
    if |s| == 0 then 0.0 else QuantileOfSorted(SortReals(s), q)
  }

  /** Sorts a private copy of `values` and interpolates. A q above 1 would index past the
      end once two values are present, so it is excluded there. */
  method Quantile(values: seq<real>, q: real) returns (r: real)
    requires |values| <= 1 || q <= 1.0
    ensures r == QuantileOf(values, q)
  {
    if |values| == 0 {
      return 0.0;
    }
    var n := |values|;
    var sorted := new real[n](i requires 0 <= i < n => values[i]);
    assert sorted[..] == values;
    SortInPlace(sorted);
    ghost var t := sorted[..];
    if n == 1 {
      return sorted[0];
    }
    var (lo, hi) := Bracket(q, n - 1);
    if lo == hi {
      r := sorted[lo];
    } else {
      var frac := Position(q, n - 1) - lo as real;
      r := Blend(sorted[lo], sorted[hi], frac);
    }
    assert r == QuantileOfSorted(t, q) by {
      PickedIsQuantile(t, q, lo, hi, r);
    }
  }

  /** The value picked from an ascending sequence at the bracket is its quantile. */
  lemma PickedIsQuantile(t: seq<real>, q: real, lo: nat, hi: nat, r: real)
    requires |t| > 1 && q <= 1.0
    requires (lo, hi) == Bracket(q, |t| - 1)
    requires lo == hi ==> r == t[lo]
    requires lo != hi ==> r == Blend(t[lo], t[hi], Position(q, |t| - 1) - lo as real)
    ensures r == QuantileOfSorted(t, q)
  {
  }

  /** A single value is its own quantile for every q. */
  lemma QuantileOfSingle(x: real, q: real)
    ensures QuantileOf([x], q) == x
  {
  }

  /** The blend of a <= b by a fraction in [0, 1] lies between them. */
  lemma BlendBetween(a: real, b: real, f: real)
    requires a <= b && 0.0 <= f <= 1.0
    ensures a <= Blend(a, b, f) <= b
  {
    var d := b - a;
    assert Blend(a, b, f) == a + d * f;
    assert d * f >= 0.0 by { assert d >= 0.0 && f >= 0.0; }
    assert d - d * f == d * (1.0 - f);
    assert d * (1.0 - f) >= 0.0 by { assert d >= 0.0 && 1.0 - f >= 0.0; }
  }

  /** On an ascending sequence every quantile lies between the first and the last element. */
  lemma SortedQuantileBounds(t: seq<real>, q: real)
    requires |t| > 0 && Sorted(t)
    requires |t| == 1 || q <= 1.0
    ensures t[0] <= QuantileOfSorted(t, q) <= t[|t| - 1]
  {
    if |t| > 1 {
      var (lo, hi) := Bracket(q, |t| - 1);
      assert t[0] <= t[lo] && t[hi] <= t[|t| - 1];
      if lo != hi {
        BlendBetween(t[lo], t[hi], Position(q, |t| - 1) - lo as real);
      }
    }
  }

  /** Every quantile of a non-empty sequence lies between its minimum and its maximum. */
  lemma QuantileBounds(s: seq<real>, q: real)
    requires |s| > 0
    requires |s| == 1 || q <= 1.0
    ensures Min(s) <= QuantileOf(s, q) <= Max(s)
  {
    SortEnds(s);
    SortRealsSpec(s);
    SortedQuantileBounds(SortReals(s), q);
  }

  /** On an ascending sequence any q <= 0 picks the first element: a negative position
      saturates to index 0. */
  lemma SortedQuantileBelowZero(t: seq<real>, q: real)
    requires |t| > 0 && q <= 0.0
    ensures QuantileOfSorted(t, q) == t[0]
  {
    if |t| > 1 {
      assert Position(q, |t| - 1) <= 0.0 by {
        assert (-q) * (|t| - 1) as real >= 0.0;
      }
    }
  }

  /** Any q <= 0, and in particular q = 0, gives the minimum. */
  lemma QuantileBelowZeroIsMin(s: seq<real>, q: real)
    requires |s| > 0 && q <= 0.0
    ensures QuantileOf(s, q) == Min(s)
  {
    SortEnds(s);
    SortedQuantileBelowZero(SortReals(s), q);
  }

  /** On an ascending sequence q = 1 picks the last element. */
  lemma SortedQuantileOne(t: seq<real>)
    requires |t| > 0
    ensures QuantileOfSorted(t, 1.0) == t[|t| - 1]
  {
    if |t| > 1 {
      assert Position(1.0, |t| - 1) == (|t| - 1) as real;
    }
  }

  /** q = 1 gives the maximum. */
  lemma QuantileOneIsMax(s: seq<real>)
    requires |s| > 0
    ensures QuantileOf(s, 1.0) == Max(s)
  {
    SortEnds(s);
    SortedQuantileOne(SortReals(s));
  }

  /** The values of the unit tests: interpolation a third of the way, the middle of
      five, and the two extremes of three. */
  lemma QuantileInterpolationExample(s: seq<real>)
    requires s == [0.0, 10.0]
    ensures QuantileOf(s, 0.3) == 3.0
  {
    assert Sorted(s);
    SortOfSorted(s);
    assert Position(0.3, 1).Floor == 0;
  }

  lemma QuantileMedianExample(s: seq<real>)
    requires s == [1.0, 2.0, 3.0, 4.0, 5.0]
    ensures QuantileOf(s, 0.5) == 3.0
  {
    AscendingOneToFive(s);
    SortOfSorted(s);
    assert Position(0.5, 4) == 2.0;
  }

  lemma QuantileExtremesExample(s: seq<real>)
    requires s == [10.0, 20.0, 30.0]
    ensures QuantileOf(s, 0.0) == 10.0 && QuantileOf(s, 1.0) == 30.0
  {
    assert Sorted(s);
    SortOfSorted(s);
    SortedQuantileBelowZero(s, 0.0);
    SortedQuantileOne(s);
  }
}
