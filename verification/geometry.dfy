/** The clamp shared by the server tick and the client viewport:
    JavaScript's `Math.max(lo, Math.min(hi, v))`, taken over exact reals. */
module Geometry {

  function Min(a: real, b: real): real {
    if a <= b then a else b
  }

  function Max(a: real, b: real): real {
    if a >= b then a else b
  }

  /** `Math.max(lo, Math.min(hi, v))`. When the range is empty (`hi < lo`)
      the outer `max` decides and the result is `lo`. */
  function Clamp(lo: real, hi: real, v: real): (r: real)
    ensures lo <= r
    ensures lo <= hi ==> r <= hi
    ensures lo <= v <= hi ==> r == v
    ensures v < lo || hi < lo ==> r == lo
    ensures lo <= hi < v ==> r == hi
  {
    Max(lo, Min(hi, v))
  }

  function Abs(a: real): real {
    if a < 0.0 then -a else a
  }

  /** The clamp is the point of `[lo, hi]` nearest to `v`: no other point of
      the range is closer, and every point that is as close is the clamp. */
  lemma ClampIsNearest(lo: real, hi: real, v: real, z: real)
    requires lo <= hi
    requires lo <= z <= hi
    ensures Abs(Clamp(lo, hi, v) - v) <= Abs(z - v)
    ensures Abs(z - v) == Abs(Clamp(lo, hi, v) - v) ==> z == Clamp(lo, hi, v)
  {
  }

  /** Clamping an already clamped value changes nothing. */
  lemma ClampIdempotent(lo: real, hi: real, v: real)
    ensures Clamp(lo, hi, Clamp(lo, hi, v)) == Clamp(lo, hi, v)
  {
  }

}
