/**
 * Robust normalisation of returns, acceleration and volume over rolling
 * windows (src/features/normalise.rs).
 */
module FeaturesNormalise {

  import opened Types
  import opened StatsRobust
  import opened StatsRollingWindow
  import opened StatsMedian
  import opened StatsMad

  /** The volume column, in bar order. */
  function Volumes(bars: seq<Bar>): (vs: seq<real>)
    ensures |vs| == |bars|
  {
    if |bars| == 0 then [] else Volumes(bars[..|bars| - 1]) + [bars[|bars| - 1].volume]
  }

  lemma {:induction false} VolumesAt(bars: seq<Bar>, i: nat)
    requires i < |bars|
    ensures Volumes(bars)[i] == bars[i].volume
  {
    if i < |bars| - 1 {
      VolumesAt(bars[..|bars| - 1], i);
    }
  }

  predicate NonNegativeVolumes(bars: seq<Bar>)
  {
    forall i :: 0 <= i < |bars| ==> bars[i].volume >= 0.0
  }

  lemma {:induction false} VolumesNonNegative(bars: seq<Bar>)
    requires NonNegativeVolumes(bars)
    ensures forall x :: x in Volumes(bars) ==> x >= 0.0
  {
    if |bars| > 0 {
      VolumesNonNegative(bars[..|bars| - 1]);
    }
  }

  /**
   * The denominators are kept positive over the reals: eps > 0, a non-negative
   * scale factor for the MAD, and non-negative volumes for the median.
   */
  predicate PositiveDenominators(bars: seq<Bar>, madScale: real, eps: real)
  {
    eps > 0.0 && madScale >= 0.0 && NonNegativeVolumes(bars)
  }

  /** The MAD-based scale c * mad + eps, positive. */
  function Sigma(mad: real, madScale: real, eps: real): (sigma: real)
    requires mad >= 0.0 && madScale >= 0.0 && eps > 0.0
    ensures sigma > 0.0
  {
    ScaledNonNegative(madScale, mad);
    madScale * mad + eps
  }

  lemma ScaledNonNegative(c: real, x: real)
    requires c >= 0.0 && x >= 0.0
    ensures c * x >= 0.0
  {
  }

  /** The median-based volume scale of a window of non-negative volumes: median + eps, positive. */
  function VolumeScale(median: real, eps: real): (scale: real)
    requires median >= 0.0 && eps > 0.0
    ensures scale > 0.0
  {
    median + eps
  }

  /** The features of one bar from the contents of its three windows. */
  function NormedOf(retWin: seq<real>, accWin: seq<real>, volWin: seq<real>,
                    r: real, acc: real, vol: real, madScale: real, eps: real): Normed
    requires madScale >= 0.0 && eps > 0.0
    requires forall x :: x in volWin ==> x >= 0.0
  {
    MadNonNegative(retWin);
    MadNonNegative(accWin);
    MedianOfNonNegative(volWin);
    Normed(
      SafeDiv(Abs(r), Sigma(MadOf(retWin), madScale, eps), 0.0),
      SafeDiv(vol, VolumeScale(MedianOf(volWin), eps), 0.0),
      SafeDiv(Abs(acc), Sigma(MadOf(accWin), madScale, eps), 0.0))
  }

  /**
   * The features of bar i, from the three windows as they stand after bar i is
   * pushed: u = |r_i| / sigma_ret, v = vol_i / vol_med, a = |a_i| / sigma_acc.
   */
  function NormedAt(bars: seq<Bar>, rets: seq<real>, accel: seq<real>, windowN: nat,
                    madScale: real, eps: real, i: nat): Normed
    requires i < |bars| && i < |rets| && i < |accel|
    requires PositiveDenominators(bars, madScale, eps)
  {
    var volWin := Fill(windowN, Volumes(bars[..i + 1]));
    assert forall x :: x in volWin ==> x >= 0.0 by {
      FillMembers(windowN, Volumes(bars[..i + 1]));
      VolumesNonNegative(bars[..i + 1]);
    }
    NormedOf(Fill(windowN, rets[..i + 1]), Fill(windowN, accel[..i + 1]), volWin,
             rets[i], accel[i], bars[i].volume, madScale, eps)
  }

  /** Once the windows hold the values of bars 0 .. i, the features of bar i are read off them. */
  lemma NormedFromWindows(bars: seq<Bar>, rets: seq<real>, accel: seq<real>, windowN: nat,
                          madScale: real, eps: real, i: nat,
                          retWin: seq<real>, accWin: seq<real>, volWin: seq<real>, nd: Normed)
    requires i < |bars| && i < |rets| && i < |accel|
    requires PositiveDenominators(bars, madScale, eps)
    requires retWin == Fill(windowN, rets[..i + 1])
    requires accWin == Fill(windowN, accel[..i + 1])
    requires volWin == Fill(windowN, Volumes(bars[..i + 1]))
    requires forall x :: x in volWin ==> x >= 0.0
    requires nd == NormedOf(retWin, accWin, volWin, rets[i], accel[i], bars[i].volume, madScale, eps)
    ensures nd == NormedAt(bars, rets, accel, windowN, madScale, eps, i)
  {
  }

  /** Computes the normalised features of every bar, pushing each bar into three windows of `windowN`. */
  method ComputeNormed(bars: seq<Bar>, rets: seq<real>, accel: seq<real>, windowN: nat,
                       madScale: real, eps: real) returns (normed: seq<Normed>)
    requires |rets| >= |bars| && |accel| >= |bars|
    requires PositiveDenominators(bars, madScale, eps)
    ensures |normed| == |bars|
    ensures forall i :: 0 <= i < |bars| ==> normed[i] == NormedAt(bars, rets, accel, windowN, madScale, eps, i)
  {
    var n := |bars|;
    normed := [];
    var retWin := new RollingWindow(windowN);
    var accWin := new RollingWindow(windowN);
    var volWin := new RollingWindow(windowN);
    for i := 0 to n
      invariant retWin.Valid() && accWin.Valid() && volWin.Valid()
      invariant retWin.buf == Fill(windowN, rets[..i])
      invariant accWin.buf == Fill(windowN, accel[..i])
      invariant volWin.buf == Fill(windowN, Volumes(bars[..i]))
      invariant |normed| == i
      invariant forall j :: 0 <= j < i ==> normed[j] == NormedAt(bars, rets, accel, windowN, madScale, eps, j)
    {
      var nd := NormaliseStep(retWin, accWin, volWin, bars, rets, accel, windowN, madScale, eps, i);
      NormedSnoc(bars, rets, accel, windowN, madScale, eps, normed, nd);
      normed := normed + [nd];
    }
  }

  /** Appending the features of the next bar to those of the bars before it. */
  lemma NormedSnoc(bars: seq<Bar>, rets: seq<real>, accel: seq<real>, windowN: nat,
                   madScale: real, eps: real, normed: seq<Normed>, nd: Normed)
    requires |normed| < |bars| && |normed| < |rets| && |normed| < |accel|
    requires PositiveDenominators(bars, madScale, eps)
    requires forall j :: 0 <= j < |normed| ==> normed[j] == NormedAt(bars, rets, accel, windowN, madScale, eps, j)
    requires nd == NormedAt(bars, rets, accel, windowN, madScale, eps, |normed|)
    ensures forall j :: 0 <= j <= |normed| ==> (normed + [nd])[j] == NormedAt(bars, rets, accel, windowN, madScale, eps, j)
  {
    forall j | 0 <= j <= |normed|
      ensures (normed + [nd])[j] == NormedAt(bars, rets, accel, windowN, madScale, eps, j)
    {
      if j < |normed| {
        assert (normed + [nd])[j] == normed[j];
      }
    }
  }

  /** The volume window of bar i holds non-negative volumes only. */
  lemma VolumeWindowNonNegative(bars: seq<Bar>, windowN: nat, i: nat, volWin: seq<real>)
    requires i < |bars| && NonNegativeVolumes(bars)
    requires volWin == Fill(windowN, Volumes(bars[..i + 1]))
    ensures forall x :: x in volWin ==> x >= 0.0
  {
    FillMembers(windowN, Volumes(bars[..i + 1]));
    VolumesNonNegative(bars[..i + 1]);
  }

  /** One turn of the loop of `ComputeNormed`: pushes the values of bar i and reads its features. */
  method NormaliseStep(retWin: RollingWindow, accWin: RollingWindow, volWin: RollingWindow,
                       bars: seq<Bar>, rets: seq<real>, accel: seq<real>, windowN: nat,
                       madScale: real, eps: real, i: nat) returns (nd: Normed)
    requires i < |bars| && i < |rets| && i < |accel|
    requires PositiveDenominators(bars, madScale, eps)
    requires retWin != accWin && retWin != volWin && accWin != volWin
    requires retWin.capacity == windowN && accWin.capacity == windowN && volWin.capacity == windowN
    requires retWin.Valid() && accWin.Valid() && volWin.Valid()
    requires retWin.buf == Fill(windowN, rets[..i])
    requires accWin.buf == Fill(windowN, accel[..i])
    requires volWin.buf == Fill(windowN, Volumes(bars[..i]))
    modifies retWin, accWin, volWin
    ensures retWin.Valid() && accWin.Valid() && volWin.Valid()
    ensures retWin.buf == Fill(windowN, rets[..i + 1])
    ensures accWin.buf == Fill(windowN, accel[..i + 1])
    ensures volWin.buf == Fill(windowN, Volumes(bars[..i + 1]))
    ensures nd == NormedAt(bars, rets, accel, windowN, madScale, eps, i)
  {
    WindowsStep(bars, rets, accel, windowN, i);
    retWin.Push(rets[i]);
    accWin.Push(accel[i]);
    volWin.Push(bars[i].volume);

    var retSnapshot := retWin.AsSlice();
    var accSnapshot := accWin.AsSlice();
    var volSnapshot := volWin.AsSlice();
    VolumeWindowNonNegative(bars, windowN, i, volSnapshot);
    nd := NormaliseBar(retSnapshot, accSnapshot, volSnapshot, rets[i], accel[i], bars[i].volume, madScale, eps);
    NormedFromWindows(bars, rets, accel, windowN, madScale, eps, i, retSnapshot, accSnapshot, volSnapshot, nd);
  }

  /** Pushing the values of bar i into the windows of bars 0 .. i - 1 gives the windows of bars 0 .. i. */
  lemma WindowsStep(bars: seq<Bar>, rets: seq<real>, accel: seq<real>, windowN: nat, i: nat)
    requires i < |bars| && i < |rets| && i < |accel|
    ensures Fill(windowN, rets[..i + 1]) == Pushed(Fill(windowN, rets[..i]), windowN, rets[i])
    ensures Fill(windowN, accel[..i + 1]) == Pushed(Fill(windowN, accel[..i]), windowN, accel[i])
    ensures Fill(windowN, Volumes(bars[..i + 1])) == Pushed(Fill(windowN, Volumes(bars[..i])), windowN, bars[i].volume)
  {
    assert rets[..i + 1][..i] == rets[..i];
    assert accel[..i + 1][..i] == accel[..i];
    assert bars[..i + 1][..i] == bars[..i];
    assert Volumes(bars[..i + 1])[..i] == Volumes(bars[..i]);
  }

  /** The body of the loop of `ComputeNormed` once the windows have taken this bar's values. */
  method NormaliseBar(retSnapshot: seq<real>, accSnapshot: seq<real>, volSnapshot: seq<real>,
                      r: real, acc: real, vol: real, madScale: real, eps: real) returns (nd: Normed)
    requires madScale >= 0.0 && eps > 0.0
    requires forall x :: x in volSnapshot ==> x >= 0.0
    ensures nd == NormedOf(retSnapshot, accSnapshot, volSnapshot, r, acc, vol, madScale, eps)
  {
    var retMad := Mad(retSnapshot);
    var accMad := Mad(accSnapshot);
    MadNonNegative(retSnapshot);
    MadNonNegative(accSnapshot);
    var sigmaRet := Sigma(retMad, madScale, eps);
    var sigmaAcc := Sigma(accMad, madScale, eps);
    var v := new real[|volSnapshot|](j requires 0 <= j < |volSnapshot| => volSnapshot[j]);
    assert v[..] == volSnapshot;
    var volMedian := Median(v);
    MedianOfNonNegative(volSnapshot);
    var volMed := VolumeScale(volMedian, eps);
    var u := SafeDiv(Abs(r), sigmaRet, 0.0);
    var vv := SafeDiv(vol, volMed, 0.0);
    var a := SafeDiv(Abs(acc), sigmaAcc, 0.0);
    nd := Normed(u, vv, a);
  }

  /** With positive denominators every feature is non-negative. */
  lemma NormedNonNegative(bars: seq<Bar>, rets: seq<real>, accel: seq<real>, windowN: nat,
                          madScale: real, eps: real, i: nat)
    requires i < |bars| && i < |rets| && i < |accel|
    requires PositiveDenominators(bars, madScale, eps)
    ensures var nd := NormedAt(bars, rets, accel, windowN, madScale, eps, i);
            nd.u >= 0.0 && nd.v >= 0.0 && nd.a >= 0.0
  {
  }

  /**
   * With N >= 1, bar i sees the values of bars max(0, i - N + 1) .. i in order:
   * early bars use partial windows.
   */
  lemma NormedUsesRecentWindow(bars: seq<Bar>, rets: seq<real>, accel: seq<real>, windowN: nat,
                               madScale: real, eps: real, i: nat)
    requires windowN >= 1
    requires i < |bars| && i < |rets| && i < |accel|
    requires PositiveDenominators(bars, madScale, eps)
    ensures var lo := i + 1 - MinNat(i + 1, windowN);
            && Fill(windowN, rets[..i + 1]) == rets[lo..i + 1]
            && Fill(windowN, accel[..i + 1]) == accel[lo..i + 1]
            && Fill(windowN, Volumes(bars[..i + 1])) == Volumes(bars)[lo..i + 1]
  {
    FillKeepsLast(windowN, rets[..i + 1]);
    FillKeepsLast(windowN, accel[..i + 1]);
    FillKeepsLast(windowN, Volumes(bars[..i + 1]));
    VolumesPrefix(bars, i + 1);
  }

  lemma {:induction false} VolumesPrefix(bars: seq<Bar>, n: nat)
    requires n <= |bars|
    ensures Volumes(bars[..n]) == Volumes(bars)[..n]
    decreases |bars|
  {
    if n < |bars| {
      VolumesPrefix(bars[..|bars| - 1], n);
      assert bars[..|bars| - 1][..n] == bars[..n];
    } else {
      assert bars[..n] == bars;
    }
  }

  /**
   * Causality: the features of bar i depend only on bars, returns and
   * acceleration at indices up to i.
   */
  lemma NormedCausal(bars: seq<Bar>, rets: seq<real>, accel: seq<real>,
                     bars': seq<Bar>, rets': seq<real>, accel': seq<real>,
                     windowN: nat, madScale: real, eps: real, i: nat)
    requires i < |bars| && i < |rets| && i < |accel|
    requires i < |bars'| && i < |rets'| && i < |accel'|
    requires PositiveDenominators(bars, madScale, eps) && PositiveDenominators(bars', madScale, eps)
    requires bars[..i + 1] == bars'[..i + 1] && rets[..i + 1] == rets'[..i + 1] && accel[..i + 1] == accel'[..i + 1]
    ensures NormedAt(bars, rets, accel, windowN, madScale, eps, i)
         == NormedAt(bars', rets', accel', windowN, madScale, eps, i)
  {
    assert bars[i] == bars[..i + 1][i] && bars'[i] == bars'[..i + 1][i];
    assert rets[i] == rets[..i + 1][i] && rets'[i] == rets'[..i + 1][i];
    assert accel[i] == accel[..i + 1][i] && accel'[i] == accel'[..i + 1][i];
  }
}
