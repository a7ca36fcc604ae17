/** Numeric helpers shared by the page models: the JavaScript `Math` calls the
    pages use, written out over unbounded reals. */
module Numeric {

  function Min(a: real, b: real): real { if a <= b then a else b }

  function Max(a: real, b: real): real { if a >= b then a else b }

  function Abs(x: real): (r: real)
    ensures r >= 0.0
    ensures r == x || r == -x
  {
    if x >= 0.0 then x else -x
  }

  /** `Math.max(lo, Math.min(hi, x))`, the clamp idiom of every page. */
  function Clamp(lo: real, hi: real, x: real): (r: real)
    ensures lo <= hi ==> lo <= r <= hi
    ensures lo <= x <= hi ==> r == x
    ensures lo <= hi && x < lo ==> r == lo
    ensures lo <= hi && hi < x ==> r == hi
  {
    Max(lo, Min(hi, x))
  }

  /** A clamp never moves a value that was already inside the range further
      than the perturbation that was added to it. */
  lemma ClampNonExpansive(lo: real, hi: real, base: real, delta: real)
    ensures lo <= base <= hi ==> Abs(Clamp(lo, hi, base + delta) - base) <= Abs(delta)
  {
  }

  /** `Math.round(x)`: the nearest integer, halves rounded up. */
  function Round(x: real): (r: int)
    ensures x - 0.5 < r as real <= x + 0.5
  {
    (x + 0.5).Floor
  }
}

module Optional {

  /** JavaScript's `null` versus a present value. */
  datatype Option<+T> = None | Some(value: T)
}
