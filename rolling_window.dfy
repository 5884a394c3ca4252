/** A bounded FIFO of reals (src/stats/rolling_window.rs). */
module StatsRollingWindow {

  import opened Sorting

  /**
   * The contents after pushing `x`: if the window already holds `capacity`
   * values the oldest is dropped first. Dropping from an empty window does
   * nothing, so a window of capacity 0 keeps growing.
   */
  function Pushed(buf: seq<real>, capacity: nat, x: real): seq<real>
  {
    (if |buf| == capacity && |buf| > 0 then buf[1..] else buf) + [x]
  }

  /** The contents of a fresh window after pushing `xs` in order. */
  function Fill(capacity: nat, xs: seq<real>): seq<real>
  {
    if |xs| == 0 then [] else Pushed(Fill(capacity, xs[..|xs| - 1]), capacity, xs[|xs| - 1])
  }

  function MinNat(a: nat, b: nat): nat { if a <= b then a else b }

  /** Filling with one more value is one more push. */
  lemma FillSnoc(capacity: nat, xs: seq<real>, x: real)
    ensures Fill(capacity, xs + [x]) == Pushed(Fill(capacity, xs), capacity, x)
  {
    assert (xs + [x])[..|xs|] == xs;
  }

  /** A window of capacity at least 1 holds exactly the last min(n, capacity) values pushed. */
  lemma {:induction false} FillKeepsLast(capacity: nat, xs: seq<real>)
    requires capacity >= 1
    ensures Fill(capacity, xs) == xs[|xs| - MinNat(|xs|, capacity)..]
  {
    if |xs| > 0 {
      var init := xs[..|xs| - 1];
      FillKeepsLast(capacity, init);
      assert init[|init| - MinNat(|init|, capacity)..] + [xs[|xs| - 1]]
          == xs[|init| - MinNat(|init|, capacity)..];
      if |init| >= capacity {
        assert init[|init| - capacity..][1..] + [xs[|xs| - 1]] == xs[|xs| - capacity..];
      }
    }
  }

  /** A window of capacity 0 never evicts: it holds everything pushed. */
  lemma {:induction false} FillZeroCapacityKeepsAll(xs: seq<real>)
    ensures Fill(0, xs) == xs
  {
    if |xs| > 0 {
      FillZeroCapacityKeepsAll(xs[..|xs| - 1]);
      assert xs[..|xs| - 1] + [xs[|xs| - 1]] == xs;
    }
  }

  /** A window only ever holds values that were pushed into it. */
  lemma FillMembers(capacity: nat, xs: seq<real>)
    ensures forall x :: x in Fill(capacity, xs) ==> x in xs
  {
    if capacity == 0 {
      FillZeroCapacityKeepsAll(xs);
    } else {
      FillKeepsLast(capacity, xs);
    }
  }

  /** Capacity 3 fed 1, 2, 3, 4 holds 2, 3, 4. */
  lemma EvictionExample()
    ensures Fill(3, [1.0, 2.0, 3.0, 4.0]) == [2.0, 3.0, 4.0]
  {
    FillKeepsLast(3, [1.0, 2.0, 3.0, 4.0]);
  }

  class RollingWindow {
    var buf: seq<real>
    const capacity: nat

    /** A window with positive capacity never holds more than its capacity. */
    ghost predicate Valid()
      reads this
    {
      capacity > 0 ==> |buf| <= capacity
    }

    constructor (capacity: nat)
      ensures Valid()
      ensures this.capacity == capacity && buf == []
    {
      this.capacity := capacity;
      buf := [];
    }

    /** Pushes `value`, evicting the oldest value if the window is full. */
    method Push(value: real)
      requires Valid()
      modifies this
      ensures Valid()
      ensures buf == Pushed(old(buf), capacity, value)
    {
      if |buf| == capacity && |buf| > 0 {
        buf := buf[1..];
      }
      buf := buf + [value];
    }

    function IsFull(): (full: bool)
      reads this
      ensures full <==> |buf| == capacity
    {
      |buf| == capacity
    }

    function Len(): (n: nat)
      reads this
      ensures n == |buf|
    {
      |buf|
    }

    /** An ascending copy of the contents; the window itself is untouched. */
    method SortedSnapshot() returns (v: seq<real>)
      ensures Sorted(v) && multiset(v) == multiset(buf)
      ensures v == SortReals(buf)
    {
      var a := new real[|buf|](i requires 0 <= i < |buf| reads this => buf[i]);
      assert a[..] == buf;
      SortInPlace(a);
      v := a[..];
    }

    /** A copy of the contents in insertion order. */
    method AsSlice() returns (v: seq<real>)
      ensures v == buf
    {
      v := buf;
    }
  }

  /** The scenario of the eviction test: after 1, 2, 3 the window is full; after 4 it holds 2, 3, 4. */
  method EvictionScenario() returns (full: bool, len: nat, snap: seq<real>)
    ensures full && len == 3
    ensures snap == [2.0, 3.0, 4.0]
  {
    var w := new RollingWindow(3);
    w.Push(1.0);
    assert w.buf == [1.0];
    w.Push(2.0);
    assert w.buf == [1.0, 2.0];
    w.Push(3.0);
    assert w.buf == [1.0, 2.0, 3.0];
    full := w.IsFull();
    w.Push(4.0);
    assert w.buf == [2.0, 3.0, 4.0];
    len := w.Len();
    SortOfSorted(w.buf);
    snap := w.SortedSnapshot();
  }
}
