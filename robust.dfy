/** Guarded division and winsorising (src/stats/robust.rs). */
module StatsRobust {

  /** `a / (b + eps)`; over the reals the shifted denominator must not vanish. */
  function SafeDiv(a: real, b: real, eps: real): (r: real)
    requires b + eps != 0.0
    ensures 0.0 <= a && 0.0 < b + eps ==> 0.0 <= r
  {
    a / (b + eps)
  }

  /** Multiplying the quotient back by the shifted denominator gives the numerator. */
  lemma SafeDivInverts(a: real, b: real, eps: real)
    requires b + eps != 0.0
    ensures SafeDiv(a, b, eps) * (b + eps) == a
  {
  }

  /** Winsorises `value` to `[0, max]`: `value.max(0).min(max)`. */
  function Clip(value: real, max: real): (r: real)
    ensures 0.0 <= max ==> 0.0 <= r <= max
    ensures 0.0 <= value <= max ==> r == value
    ensures value < 0.0 <= max ==> r == 0.0
    ensures 0.0 <= max < value ==> r == max
    ensures max < 0.0 ==> r == max
  {
    var floored := if value > 0.0 then value else 0.0;
    if floored < max then floored else max
  }

  /** Clipping twice is clipping once. */
  lemma ClipIdempotent(value: real, max: real)
    ensures Clip(Clip(value, max), max) == Clip(value, max)
  {
  }
}
