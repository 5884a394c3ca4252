/** The three residual channels of one bar (src/model/residuals.rs). */
module ModelResiduals {

  import opened Types
  import opened Config
  import opened RealArith
  import opened StatsRobust

  /**
   * One-sided excess of each feature over its threshold, each winsorised to
   * `[0, residualClipMax]` when clipping is on. The liquidity channel uses
   * u / (v + eps), so the shifted denominator must not vanish. The combined
   * residual `r` is left at 0 for the combiner.
   */
  function ComputeResiduals(normed: Normed, rc: ResidualsConfig, nc: NumericsConfig): (res: Residuals)
    requires normed.v + nc.eps != 0.0
    ensures res.r == 0.0
    // Without clipping each channel is the part of its feature above the threshold.
    ensures !nc.clipResiduals ==>
              && res.rVol == (if normed.u > rc.thetaVol then normed.u - rc.thetaVol else 0.0)
              && res.rLiq == (if normed.u / (normed.v + nc.eps) > rc.thetaLiq
                              then normed.u / (normed.v + nc.eps) - rc.thetaLiq else 0.0)
              && res.rAcc == (if normed.a > rc.thetaAcc then normed.a - rc.thetaAcc else 0.0)
    // With clipping to a non-negative bound each channel lies in [0, bound].
    ensures nc.clipResiduals && nc.residualClipMax >= 0.0 ==>
              && 0.0 <= res.rVol <= nc.residualClipMax
              && 0.0 <= res.rLiq <= nc.residualClipMax
              && 0.0 <= res.rAcc <= nc.residualClipMax
    // Clipping to a non-negative bound leaves channels at or below it unchanged.
    ensures nc.clipResiduals && nc.residualClipMax >= 0.0 ==>
              && (normed.u - rc.thetaVol <= nc.residualClipMax ==> res.rVol == RealMax(normed.u - rc.thetaVol, 0.0))
              && (normed.u / (normed.v + nc.eps) - rc.thetaLiq <= nc.residualClipMax ==>
                    res.rLiq == RealMax(normed.u / (normed.v + nc.eps) - rc.thetaLiq, 0.0))
              && (normed.a - rc.thetaAcc <= nc.residualClipMax ==> res.rAcc == RealMax(normed.a - rc.thetaAcc, 0.0))
    // ... and cuts every channel above it down to the bound.
    ensures nc.clipResiduals ==>
              && (normed.u - rc.thetaVol > nc.residualClipMax ==> res.rVol == nc.residualClipMax)
              && (normed.u / (normed.v + nc.eps) - rc.thetaLiq > nc.residualClipMax ==> res.rLiq == nc.residualClipMax)
              && (normed.a - rc.thetaAcc > nc.residualClipMax ==> res.rAcc == nc.residualClipMax)
    // A negative clip bound replaces every channel by that bound.
    ensures nc.clipResiduals && nc.residualClipMax < 0.0 ==>
              res.rVol == nc.residualClipMax && res.rLiq == nc.residualClipMax && res.rAcc == nc.residualClipMax
  {
    var rVol := RealMax(normed.u - rc.thetaVol, 0.0);
    var rLiq := RealMax(normed.u / (normed.v + nc.eps) - rc.thetaLiq, 0.0);
    var rAcc := RealMax(normed.a - rc.thetaAcc, 0.0);
    if nc.clipResiduals then
      Residuals(Clip(rVol, nc.residualClipMax), Clip(rLiq, nc.residualClipMax), Clip(rAcc, nc.residualClipMax), 0.0)
    else
      Residuals(rVol, rLiq, rAcc, 0.0)
  }

  /** Unless clipping to a negative bound, every channel is non-negative. */
  lemma ResidualsNonNegative(normed: Normed, rc: ResidualsConfig, nc: NumericsConfig)
    requires normed.v + nc.eps != 0.0
    requires !nc.clipResiduals || nc.residualClipMax >= 0.0
    ensures var res := ComputeResiduals(normed, rc, nc);
            res.rVol >= 0.0 && res.rLiq >= 0.0 && res.rAcc >= 0.0
  {
  }

  /** A channel whose feature does not exceed its threshold is 0. */
  lemma ResidualZeroAtOrBelowThreshold(normed: Normed, rc: ResidualsConfig, nc: NumericsConfig)
    requires normed.v + nc.eps != 0.0
    requires !nc.clipResiduals || nc.residualClipMax >= 0.0
    ensures var res := ComputeResiduals(normed, rc, nc);
            && (normed.u <= rc.thetaVol ==> res.rVol == 0.0)
            && (normed.u / (normed.v + nc.eps) <= rc.thetaLiq ==> res.rLiq == 0.0)
            && (normed.a <= rc.thetaAcc ==> res.rAcc == 0.0)
  {
  }

  /** Each channel is monotone in its feature: a larger excess never gives a smaller residual. */
  lemma ResidualsMonotone(n1: Normed, n2: Normed, rc: ResidualsConfig, nc: NumericsConfig)
    requires n1.v + nc.eps != 0.0 && n2.v + nc.eps != 0.0
    requires n1.u <= n2.u && n1.a <= n2.a
    requires n1.u / (n1.v + nc.eps) <= n2.u / (n2.v + nc.eps)
    ensures var r1, r2 := ComputeResiduals(n1, rc, nc), ComputeResiduals(n2, rc, nc);
            r1.rVol <= r2.rVol && r1.rLiq <= r2.rLiq && r1.rAcc <= r2.rAcc
  {
  }
}
