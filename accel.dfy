/** Acceleration as the first difference of the returns (src/features/accel.rs). */
module FeaturesAccel {

  import opened RealArith

  /** The first differences with a leading 0; the empty series gives [0]. */
  function Acceleration(rets: seq<real>): seq<real>
  {
    seq(if |rets| == 0 then 1 else |rets|, i requires 0 <= i < (if |rets| == 0 then 1 else |rets|) =>
          if i == 0 then 0.0 else rets[i] - rets[i - 1])
  }

  /**
   * Element 0 is 0 and element i is rets[i] - rets[i - 1]. The leading 0 is
   * pushed unconditionally, so the empty series gives one element.
   */
  method ComputeAcceleration(rets: seq<real>) returns (accel: seq<real>)
    ensures |accel| == if |rets| == 0 then 1 else |rets|
    ensures accel[0] == 0.0
    ensures forall i :: 1 <= i < |rets| ==> accel[i] == rets[i] - rets[i - 1]
    ensures forall i :: 0 <= i < |rets| ==> Sum(accel[1..i + 1]) == rets[i] - rets[0]
    ensures accel == Acceleration(rets)
  {
    accel := [0.0];
    var i := 1;
    while i < |rets|
      invariant 1 <= i <= if |rets| == 0 then 1 else |rets|
      invariant |accel| == i
      invariant accel[0] == 0.0
      invariant forall j :: 1 <= j < i ==> accel[j] == rets[j] - rets[j - 1]
    {
      accel := accel + [rets[i] - rets[i - 1]];
      i := i + 1;
    }
    forall i | 0 <= i < |rets|
      ensures Sum(accel[1..i + 1]) == rets[i] - rets[0]
    {
      Telescoping(rets, accel, i);
    }
  }

  /** A first-difference series sums back to the change of the original series. */
  lemma {:induction false} Telescoping(rets: seq<real>, accel: seq<real>, i: nat)
    requires i < |rets| <= |accel|
    requires forall j :: 1 <= j < |rets| ==> accel[j] == rets[j] - rets[j - 1]
    ensures Sum(accel[1..i + 1]) == rets[i] - rets[0]
  {
    if i > 0 {
      Telescoping(rets, accel, i - 1);
      assert accel[1..i + 1][..i - 1] == accel[1..i];
    }
  }
}
