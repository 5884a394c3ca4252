/** Arithmetic on reals shared by several components: `f64::max` and sums. */
module RealArith {

  /** Rust's `f64::max` over reals. */
  function RealMax(a: real, b: real): (m: real)
    ensures m >= a && m >= b
    ensures m == a || m == b
  {
    if a >= b then a else b
  }

  /** The sum of a sequence, accumulated from the front. */
  function Sum(s: seq<real>): real
  {
    if |s| == 0 then 0.0 else Sum(s[..|s| - 1]) + s[|s| - 1]
  }
}
