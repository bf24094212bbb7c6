/**
 * The numeric helpers the generator relies on: its own `clamp` and
 * JavaScript's `Math.round`. Numbers are exact reals here.
 */
module JsMath {

  /** `Math.max(lo, Math.min(hi, x))`. */
  function Clamp(x: real, lo: real, hi: real): (r: real)
    ensures lo <= hi ==> lo <= r <= hi
    ensures lo <= x <= hi ==> r == x
    ensures x < lo ==> r == lo
    ensures lo <= hi && hi < x ==> r == hi
  {
    if lo > (if hi < x then hi else x) then lo else if hi < x then hi else x
  }

  /** Clamping preserves order: a larger input never gives a smaller result. */
  lemma ClampMonotone(x: real, y: real, lo: real, hi: real)
    requires lo <= hi
    requires x <= y
    ensures Clamp(x, lo, hi) <= Clamp(y, lo, hi)
  {
  }

  /** `Math.round`: the nearest integer, with halves rounded upward. */
  function Round(x: real): (n: int)
    ensures n as real - 0.5 <= x < n as real + 0.5
  {
    (x + 0.5).Floor
  }
}
