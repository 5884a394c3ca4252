/** The power-law memory kernel (src/model/memory.rs). */
module ModelMemory {

  import opened RealArith
  import opened StatsRollingWindow

  predicate AllPositive(s: seq<real>)
  {
    forall i :: 0 <= i < |s| ==> s[i] > 0.0
  }

  predicate NonIncreasing(s: seq<real>)
  {
    forall i, j :: 0 <= i < j < |s| ==> s[j] <= s[i]
  }

  /** A non-empty sum of positive values is positive. */
  lemma {:induction false} SumPositive(s: seq<real>)
    requires AllPositive(s) && |s| > 0
    ensures Sum(s) > 0.0
  {
    if |s| > 1 {
      SumPositive(s[..|s| - 1]);
    }
  }

  /** Every value divided by `total`, in order. */
  function Scaled(raw: seq<real>, total: real): (w: seq<real>)
    requires total != 0.0
    ensures |w| == |raw|
  {
    if |raw| == 0 then [] else Scaled(raw[..|raw| - 1], total) + [raw[|raw| - 1] / total]
  }

  /**
   * The weights as `new` builds them from the raw weights k^(-alpha), k = 1..K:
   * each raw weight divided by their total.
   */
  function Normalise(raw: seq<real>): (w: seq<real>)
    requires AllPositive(raw)
    ensures |w| == |raw|
  {
    if |raw| == 0 then []
    else
      SumPositive(raw);
      Scaled(raw, Sum(raw))
  }

  lemma {:induction false} ScaledAt(raw: seq<real>, total: real, i: nat)
    requires total != 0.0 && i < |raw|
    ensures Scaled(raw, total)[i] == raw[i] / total
  {
    if i < |raw| - 1 {
      ScaledAt(raw[..|raw| - 1], total, i);
    }
  }

  /** Dividing every term by c divides the sum by c. */
  lemma {:induction false} SumScaled(s: seq<real>, c: real)
    requires c != 0.0
    ensures Sum(Scaled(s, c)) == Sum(s) / c
  {
    if |s| > 0 {
      var n := |s| - 1;
      var t := Scaled(s, c);
      SumScaled(s[..n], c);
      assert t[..n] == Scaled(s[..n], c);
      assert Sum(t) == Sum(s[..n]) / c + s[n] / c;
      assert Sum(s[..n]) / c + s[n] / c == (Sum(s[..n]) + s[n]) / c;
    }
  }

  /** The normalised weights sum to one. */
  lemma NormaliseSumsToOne(raw: seq<real>)
    requires AllPositive(raw) && |raw| > 0
    ensures Sum(Normalise(raw)) == 1.0
  {
    SumPositive(raw);
    var total := Sum(raw);
    SumScaled(raw, total);
    assert total / total == 1.0;
  }

  /** Normalisation keeps every weight positive. */
  lemma NormalisePositive(raw: seq<real>)
    requires AllPositive(raw)
    ensures AllPositive(Normalise(raw))
  {
    if |raw| > 0 {
      SumPositive(raw);
      var total := Sum(raw);
      forall i | 0 <= i < |raw|
        ensures Normalise(raw)[i] > 0.0
      {
        ScaledAt(raw, total, i);
      }
    }
  }

  /** Non-increasing raw weights give non-increasing normalised weights. */
  lemma NormaliseKeepsOrder(raw: seq<real>)
    requires AllPositive(raw) && NonIncreasing(raw)
    ensures NonIncreasing(Normalise(raw))
  {
    if |raw| > 0 {
      SumPositive(raw);
      var total := Sum(raw);
      var w := Normalise(raw);
      forall i, j | 0 <= i < j < |w|
        ensures w[j] <= w[i]
      {
        ScaledAt(raw, total, i);
        ScaledAt(raw, total, j);
        DivideMonotone(raw[j], raw[i], total);
      }
    }
  }

  lemma DivideMonotone(a: real, b: real, c: real)
    requires a <= b && c > 0.0
    ensures a / c <= b / c
  {
    assert b / c - a / c == (b - a) / c;
  }

  /**
   * The first n terms of the strain sum over `buf`: term i pairs weight i with
   * the i-th newest value, and only while a weight with that index exists.
   */
  function StrainUpTo(w: seq<real>, buf: seq<real>, n: nat): real
    requires n <= |buf|
  {
    if n == 0 then 0.0
    else StrainUpTo(w, buf, n - 1) + (if n - 1 < |w| then w[n - 1] * buf[|buf| - n] else 0.0)
  }

  /** The strain of a buffer: the newest value gets weights[0], the next weights[1], and so on. */
  function Strain(w: seq<real>, buf: seq<real>): real
  {
    StrainUpTo(w, buf, |buf|)
  }

  /** A buffer of zeros has zero strain. */
  lemma {:induction false} StrainOfZeros(w: seq<real>, buf: seq<real>, n: nat)
    requires n <= |buf|
    requires forall i :: 0 <= i < |buf| ==> buf[i] == 0.0
    ensures StrainUpTo(w, buf, n) == 0.0
  {
    if n > 0 {
      StrainOfZeros(w, buf, n - 1);
    }
  }

  /** Without weights the strain is zero. */
  lemma {:induction false} StrainNoWeights(buf: seq<real>, n: nat)
    requires n <= |buf|
    ensures StrainUpTo([], buf, n) == 0.0
  {
    if n > 0 {
      StrainNoWeights(buf, n - 1);
    }
  }

  /** A buffer holding the constant c, no longer than the weights, has strain c times
      the sum of the weights it uses. */
  lemma {:induction false} StrainOfConstant(w: seq<real>, buf: seq<real>, c: real, n: nat)
    requires n <= |buf| <= |w|
    requires forall i :: 0 <= i < |buf| ==> buf[i] == c
    ensures StrainUpTo(w, buf, n) == c * Sum(w[..n])
  {
    if n > 0 {
      StrainOfConstant(w, buf, c, n - 1);
      assert w[..n][..n - 1] == w[..n - 1];
      assert c * Sum(w[..n]) == c * Sum(w[..n - 1]) + c * w[n - 1];
    }
  }

  /**
   * A buffer whose only non-zero value v sits j places before the newest has
   * strain w[j] * v once the sum has reached it, and 0 before, or if no weight
   * j exists.
   */
  lemma {:induction false} StrainOfImpulse(w: seq<real>, buf: seq<real>, j: nat, v: real, n: nat)
    requires j < |buf| && n <= |buf|
    requires buf[|buf| - 1 - j] == v
    requires forall i :: 0 <= i < |buf| && i != |buf| - 1 - j ==> buf[i] == 0.0
    ensures StrainUpTo(w, buf, n) == if j < n && j < |w| then w[j] * v else 0.0
  {
    if n > 0 {
      StrainOfImpulse(w, buf, j, v, n - 1);
    }
  }

  /** n copies of c. */
  function Constant(c: real, n: nat): (s: seq<real>)
    ensures |s| == n && forall i :: 0 <= i < n ==> s[i] == c
  {
    seq(n, i => c)
  }

  /** All-zero input gives zero strain at every step, whatever the kernel length. */
  lemma ZeroInputZeroStrain(w: seq<real>, n: nat)
    ensures Strain(w, Fill(|w|, Constant(0.0, n))) == 0.0
  {
    var xs := Constant(0.0, n);
    var buf := Fill(|w|, xs);
    if |w| == 0 {
      FillZeroCapacityKeepsAll(xs);
    } else {
      FillKeepsLast(|w|, xs);
    }
    StrainOfZeros(w, buf, |buf|);
  }

  /** With weights summing to one, after at least K pushes of the constant c the strain is c. */
  lemma ConstantInputGivesConstant(w: seq<real>, n: nat, c: real)
    requires |w| >= 1 && n >= |w| && Sum(w) == 1.0
    ensures Strain(w, Fill(|w|, Constant(c, n))) == c
  {
    var xs := Constant(c, n);
    var buf := Fill(|w|, xs);
    FillKeepsLast(|w|, xs);
    StrainOfConstant(w, buf, c, |buf|);
    assert w[..|buf|] == w;
  }

  /** The value v followed by j zeros. */
  function Impulse(v: real, j: nat): (s: seq<real>)
    ensures |s| == j + 1 && s[0] == v && forall i :: 0 < i <= j ==> s[i] == 0.0
  {
    [v] + Constant(0.0, j)
  }

  /** The closed form of the strain j bars after an impulse v: w[j] * v while the
      impulse is still in the buffer, 0 once it has been evicted. */
  function ImpulseStrain(w: seq<real>, v: real, j: nat): real
  {
    if j < |w| then w[j] * v else 0.0
  }

  /** j bars after an impulse v the strain of a full-length kernel is its closed form. */
  lemma ImpulseResponse(w: seq<real>, v: real, j: nat)
    requires |w| >= 1
    ensures Strain(w, Fill(|w|, Impulse(v, j))) == ImpulseStrain(w, v, j)
  {
    var xs := Impulse(v, j);
    var buf := Fill(|w|, xs);
    FillKeepsLast(|w|, xs);
    if j < |w| {
      assert buf == xs;
      StrainOfImpulse(w, buf, j, v, |buf|);
    } else {
      assert buf == xs[j + 1 - |w|..];
      forall i | 0 <= i < |buf|
        ensures buf[i] == 0.0
      {
        assert buf[i] == xs[j + 1 - |w| + i];
      }
      StrainOfZeros(w, buf, |buf|);
    }
  }

  /** With positive, non-increasing weights the response to a non-negative impulse never
      grows from one bar to the next, and stays non-negative. */
  lemma ImpulseDecays(w: seq<real>, v: real, j: nat)
    requires AllPositive(w) && NonIncreasing(w) && v >= 0.0
    ensures ImpulseStrain(w, v, j + 1) <= ImpulseStrain(w, v, j)
    ensures ImpulseStrain(w, v, j) >= 0.0
  {
    if j < |w| {
      MultiplyMonotone(0.0, w[j], v);
      if j + 1 < |w| {
        MultiplyMonotone(w[j + 1], w[j], v);
      }
    }
  }

  lemma MultiplyMonotone(a: real, b: real, v: real)
    requires a <= b && v >= 0.0
    ensures a * v <= b * v
  {
    assert b * v - a * v == (b - a) * v;
  }

  class MemoryKernel {
    const weights: seq<real>
    var buffer: seq<real>
    const capacity: nat
    /** The raw weights the kernel was built from. */
    ghost const rawWeights: seq<real>
    /** Every value pushed so far, oldest first. */
    ghost var history: seq<real>

    /** The weights are the normalised raw weights, one per slot, and the buffer holds
        what a FIFO of the kernel's capacity keeps of `history`. */
    ghost predicate Valid()
      reads this
    {
      && AllPositive(rawWeights)
      && |rawWeights| == capacity
      && weights == Normalise(rawWeights)
      && buffer == Fill(capacity, history)
      && (capacity > 0 ==> |buffer| <= capacity)
    }

    /** A kernel of length k; `rawWeights` stands for k^(-alpha), k = 1..K. */
    constructor (k: nat, rawWeights: seq<real>)
      requires |rawWeights| == k && AllPositive(rawWeights)
      ensures Valid()
      ensures capacity == k && this.rawWeights == rawWeights
      ensures buffer == [] && history == []
    {
      weights := Normalise(rawWeights);
      buffer := [];
      capacity := k;
      this.rawWeights := rawWeights;
      history := [];
    }

    /** Pushes a residual and returns the accumulated strain. */
    method PushAndAccumulate(value: real) returns (strain: real)
      requires Valid()
      modifies this
      ensures Valid()
      ensures history == old(history) + [value]
      ensures buffer == Pushed(old(buffer), capacity, value)
      ensures capacity >= 1 ==> |buffer| <= |weights|
      ensures strain == Strain(weights, buffer)
    {
      FillSnoc(capacity, history, value);
      if |buffer| == capacity {
        if |buffer| > 0 {
          buffer := buffer[1..];
        }
      }
      buffer := buffer + [value];
      history := history + [value];
      var n := |buffer|;
      strain := 0.0;
      var i := 0;
      while i < n
        invariant 0 <= i <= n
        invariant strain == StrainUpTo(weights, buffer, i)
      {
        if i < |weights| {
          strain := strain + weights[i] * buffer[n - 1 - i];
        }
        i := i + 1;
      }
    }

    /** The normalised weights; they sum to one when there are any. */
    function Weights(): (w: seq<real>)
      requires Valid()
      reads this
      ensures w == Normalise(rawWeights)
      ensures |w| > 0 ==> Sum(w) == 1.0
    {
      if capacity > 0 then NormaliseSumsToOne(rawWeights); weights else weights
    }
  }
}
