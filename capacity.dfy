/** The adaptive capacity estimator (src/model/capacity.rs). */
module ModelCapacity {

  import opened Wrappers
  import opened Sorting
  import opened StatsRollingWindow
  import opened StatsQuantile
  import opened RealArith

  /**
   * The capacity one update returns, given the previously returned capacity
   * (None before the first update) and the q-quantile of the window after the
   * push: the quantile floored at eMin, exponentially smoothed against the
   * previous capacity when smoothing is on and a previous value exists, and
   * floored at eMin once more.
   */
  function NextCapacity(prevE: Option<real>, quant: real, smooth: bool, lambda: real, eMin: real): real
  {
    var eRaw := RealMax(quant, eMin);
    var e := if smooth && prevE.Some? then Mix(prevE.value, eRaw, lambda) else eRaw;
    RealMax(e, eMin)
  }

  /** Exponential smoothing: weight 1 - lambda on the previous value, lambda on the new one. */
  function Mix(prev: real, next: real, lambda: real): real
  {
    (1.0 - lambda) * prev + lambda * next
  }

  /** The q-quantile of the window after each push of `strains`, in order. */
  function RollingQuantiles(windowL: nat, q: real, strains: seq<real>): (qs: seq<real>)
    requires q <= 1.0
    ensures |qs| == |strains|
    // Entry i is the quantile of the window after the first i + 1 pushes.
    ensures forall i :: 0 <= i < |qs| ==> qs[i] == QuantileOf(Fill(windowL, strains[..i + 1]), q)
  {
    if |strains| == 0 then []
    else
      var init := strains[..|strains| - 1];
      var qs := RollingQuantiles(windowL, q, init) + [QuantileOf(Fill(windowL, strains), q)];
      assert forall i | 0 <= i < |qs| :: qs[i] == QuantileOf(Fill(windowL, strains[..i + 1]), q) by {
        forall i | 0 <= i < |qs|
          ensures qs[i] == QuantileOf(Fill(windowL, strains[..i + 1]), q)
        {
          if i < |init| {
            assert init[..i + 1] == strains[..i + 1];
          } else {
            assert strains[..i + 1] == strains;
          }
        }
      }
      qs
  }

  /** The capacities returned for a series of window quantiles, starting without a previous value. */
  function SmoothTrace(smooth: bool, lambda: real, eMin: real, quants: seq<real>): (es: seq<real>)
    ensures |es| == |quants|
  {
    if |quants| == 0 then []
    else
      var before := SmoothTrace(smooth, lambda, eMin, quants[..|quants| - 1]);
      var prevE := if |before| == 0 then None else Some(before[|before| - 1]);
      before + [NextCapacity(prevE, quants[|quants| - 1], smooth, lambda, eMin)]
  }

  /** The capacities returned by a fresh estimator fed `strains` in order. */
  function CapacityTrace(windowL: nat, q: real, smooth: bool, lambda: real, eMin: real,
                         strains: seq<real>): (es: seq<real>)
    requires q <= 1.0
    ensures |es| == |strains|
  {
    SmoothTrace(smooth, lambda, eMin, RollingQuantiles(windowL, q, strains))
  }

  /** One more quantile adds the capacity computed from it and the last capacity. */
  lemma SmoothTraceSnoc(smooth: bool, lambda: real, eMin: real, quants: seq<real>, v: real)
    ensures var before := SmoothTrace(smooth, lambda, eMin, quants);
            var prevE := if |before| == 0 then None else Some(before[|before| - 1]);
            SmoothTrace(smooth, lambda, eMin, quants + [v]) == before + [NextCapacity(prevE, v, smooth, lambda, eMin)]
  {
    assert (quants + [v])[..|quants|] == quants;
  }

  /** Every capacity is at least the floor eMin. */
  lemma CapacityAtLeastFloor(prevE: Option<real>, quant: real, smooth: bool, lambda: real, eMin: real)
    ensures NextCapacity(prevE, quant, smooth, lambda, eMin) >= eMin
  {
  }

  /** Every capacity of a trace is at least the floor eMin. */
  lemma {:induction false} SmoothTraceAtLeastFloor(smooth: bool, lambda: real, eMin: real, quants: seq<real>, i: nat)
    requires i < |quants|
    ensures SmoothTrace(smooth, lambda, eMin, quants)[i] >= eMin
  {
    var init := quants[..|quants| - 1];
    var before := SmoothTrace(smooth, lambda, eMin, init);
    if i < |quants| - 1 {
      SmoothTraceAtLeastFloor(smooth, lambda, eMin, init, i);
    } else {
      var prevE := if |before| == 0 then None else Some(before[|before| - 1]);
      CapacityAtLeastFloor(prevE, quants[|quants| - 1], smooth, lambda, eMin);
    }
  }

  /** The capacities a fresh estimator returns never drop below eMin. */
  lemma CapacityTraceAtLeastFloor(windowL: nat, q: real, smooth: bool, lambda: real, eMin: real,
                                  strains: seq<real>, i: nat)
    requires q <= 1.0 && i < |strains|
    ensures CapacityTrace(windowL, q, smooth, lambda, eMin, strains)[i] >= eMin
  {
    SmoothTraceAtLeastFloor(smooth, lambda, eMin, RollingQuantiles(windowL, q, strains), i);
  }

  /** Without smoothing, and on the first smoothed update, the capacity is the floored quantile. */
  lemma CapacityUnsmoothed(prevE: Option<real>, quant: real, smooth: bool, lambda: real, eMin: real)
    requires !smooth || prevE.None?
    ensures NextCapacity(prevE, quant, smooth, lambda, eMin) == RealMax(quant, eMin)
  {
  }

  /** With lambda in [0, 1] the smoothed value lies between its two inputs. */
  lemma MixBetween(prev: real, next: real, lambda: real)
    requires 0.0 <= lambda <= 1.0
    ensures prev <= next ==> prev <= Mix(prev, next, lambda) <= next
    ensures next <= prev ==> next <= Mix(prev, next, lambda) <= prev
  {
    var d := next - prev;
    assert Mix(prev, next, lambda) == prev + lambda * d;
    assert d - lambda * d == (1.0 - lambda) * d;
    if d >= 0.0 {
      assert lambda * d >= 0.0;
      assert (1.0 - lambda) * d >= 0.0;
    } else {
      assert lambda * (-d) >= 0.0;
      assert (1.0 - lambda) * (-d) >= 0.0;
    }
  }

  /**
   * With a smoothing factor in [0, 1] a smoothed capacity lies between the
   * previous capacity and the floored quantile (and above the floor): smoothing
   * never overshoots either input.
   */
  lemma SmoothedCapacityBetween(prev: real, quant: real, lambda: real, eMin: real)
    requires 0.0 <= lambda <= 1.0
    ensures var e := NextCapacity(Some(prev), quant, true, lambda, eMin);
            var eRaw := RealMax(quant, eMin);
            && RealMax(if prev <= eRaw then prev else eRaw, eMin) <= e
            && e <= RealMax(if prev <= eRaw then eRaw else prev, eMin)
  {
    MixBetween(prev, RealMax(quant, eMin), lambda);
  }

  /** Without smoothing each capacity is its quantile floored at eMin. */
  lemma {:induction false} UnsmoothedTraceIsFloored(lambda: real, eMin: real, quants: seq<real>, i: nat)
    requires i < |quants|
    ensures SmoothTrace(false, lambda, eMin, quants)[i] == RealMax(quants[i], eMin)
  {
    if i < |quants| - 1 {
      UnsmoothedTraceIsFloored(lambda, eMin, quants[..|quants| - 1], i);
    }
  }

  /**
   * Without smoothing each capacity is the floored q-quantile of the last
   * `windowL` strains pushed so far (of all of them while fewer have arrived).
   */
  lemma UnsmoothedTraceIsRollingQuantile(windowL: nat, q: real, lambda: real,
                                         eMin: real, strains: seq<real>, i: nat)
    requires q <= 1.0 && windowL >= 1 && i < |strains|
    ensures var recent := strains[i + 1 - MinNat(i + 1, windowL)..i + 1];
            CapacityTrace(windowL, q, false, lambda, eMin, strains)[i] == RealMax(QuantileOf(recent, q), eMin)
  {
    UnsmoothedTraceIsFloored(lambda, eMin, RollingQuantiles(windowL, q, strains), i);
    var prefix := strains[..i + 1];
    FillKeepsLast(windowL, prefix);
    assert prefix[|prefix| - MinNat(|prefix|, windowL)..] == strains[i + 1 - MinNat(i + 1, windowL)..i + 1];
  }

  /** Each trace extends the trace of the shorter history: earlier capacities never change. */
  lemma {:induction false} SmoothTracePrefix(smooth: bool, lambda: real, eMin: real, quants: seq<real>, n: nat)
    requires n <= |quants|
    ensures SmoothTrace(smooth, lambda, eMin, quants[..n]) == SmoothTrace(smooth, lambda, eMin, quants)[..n]
  {
    if n < |quants| {
      var init := quants[..|quants| - 1];
      SmoothTracePrefix(smooth, lambda, eMin, init, n);
      assert init[..n] == quants[..n];
    } else {
      assert quants[..n] == quants;
    }
  }

  class CapacityEstimator {
    const window: RollingWindow
    const q: real
    const smooth: bool
    const lambda: real
    const eMin: real
    var prevE: Option<real>
    /** Every strain pushed so far, oldest first. */
    ghost var history: seq<real>

    /**
     * The window holds what `history` leaves in a window of its capacity, and
     * `prevE` is the last capacity of the trace of `history` (None before the
     * first update).
     */
    ghost predicate Valid()
      reads this, window
    {
      && window.Valid()
      && q <= 1.0
      && window.buf == Fill(window.capacity, history)
      && var es := CapacityTrace(window.capacity, q, smooth, lambda, eMin, history);
         prevE == if |es| == 0 then None else Some(es[|es| - 1])
    }

    constructor (windowL: nat, q: real, smooth: bool, lambda: real, eMin: real)
      requires q <= 1.0
      ensures Valid() && fresh(window)
      ensures window.capacity == windowL && this.q == q && this.smooth == smooth
      ensures this.lambda == lambda && this.eMin == eMin
      ensures prevE == None && history == []
    {
      window := new RollingWindow(windowL);
      this.q := q;
      this.smooth := smooth;
      this.lambda := lambda;
      this.eMin := eMin;
      prevE := None;
      history := [];
    }

    /** Pushes a strain value and returns the current capacity. */
    method Update(strain: real) returns (e: real)
      requires Valid()
      modifies this, window
      ensures Valid()
      ensures history == old(history) + [strain]
      ensures window.buf == Pushed(old(window.buf), window.capacity, strain)
      ensures e == CapacityTrace(window.capacity, q, smooth, lambda, eMin, history)[|history| - 1]
      ensures e >= eMin
      ensures prevE == Some(e)
    {
      ghost var h, prev, cap := history, prevE, window.capacity;
      ghost var es := CapacityTrace(cap, q, smooth, lambda, eMin, h);
      assert prev == if |es| == 0 then None else Some(es[|es| - 1]);
      window.Push(strain);
      FillSnoc(cap, h, strain);
      var snapshot := window.AsSlice();
      assert snapshot == Fill(cap, h + [strain]);
      var quant := Quantile(snapshot, q);
      var eRaw := RealMax(quant, eMin);
      if smooth && prevE.Some? {
        e := Mix(prevE.value, eRaw, lambda);
      } else {
        e := eRaw;
      }
      e := RealMax(e, eMin);
      assert e == NextCapacity(prev, quant, smooth, lambda, eMin);
      TraceStep(cap, q, smooth, lambda, eMin, h, strain, prev, quant, e);
      prevE := Some(e);
      history := h + [strain];
      assert window.Valid();
      assert window.buf == Fill(cap, history);
      ghost var es2 := CapacityTrace(cap, q, smooth, lambda, eMin, history);
      assert es2 == es + [e];
      assert prevE == Some(es2[|es2| - 1]);
      assert Valid();
      assert e == es2[|history| - 1];
      assert e >= eMin;
    }
  }

  /** The bookkeeping behind `Update`: one more strain extends the trace by the capacity just returned. */
  lemma TraceStep(windowL: nat, q: real, smooth: bool, lambda: real, eMin: real,
                  history: seq<real>, strain: real, prevE: Option<real>, quant: real, e: real)
    requires q <= 1.0
    requires var es := CapacityTrace(windowL, q, smooth, lambda, eMin, history);
             prevE == if |es| == 0 then None else Some(es[|es| - 1])
    requires quant == QuantileOf(Fill(windowL, history + [strain]), q)
    requires e == NextCapacity(prevE, quant, smooth, lambda, eMin)
    ensures CapacityTrace(windowL, q, smooth, lambda, eMin, history + [strain])
         == CapacityTrace(windowL, q, smooth, lambda, eMin, history) + [e]
  {
    assert (history + [strain])[..|history|] == history;
    SmoothTraceSnoc(smooth, lambda, eMin, RollingQuantiles(windowL, q, history), quant);
  }
}
