/** Scalar helpers of the arena: its fixed size, clamping, and the circle
    overlap test every collision uses. */
module Geometry {

  /** The canvas is fixed at 960 by 600 units. */
  const ARENA_WIDTH: real := 960.0
  const ARENA_HEIGHT: real := 600.0

  /** `Math.max(lo, Math.min(hi, v))`: when the bounds are crossed the lower
      one wins. */
  function Clamp(v: real, lo: real, hi: real): (r: real)
    ensures lo <= r
    ensures lo <= hi ==> r <= hi
    ensures lo <= v <= hi ==> r == v
    ensures v < lo ==> r == lo
    ensures lo <= hi < v ==> r == hi
    ensures hi < lo ==> r == lo
  {
    var m := if hi < v then hi else v;
    if m < lo then lo else m
  }

  /** The source compares `Math.hypot(dx, dy)` with the sum of the radii;
      here the same test is written on squares, which needs no square root. */
  predicate Overlaps(x1: real, y1: real, r1: real, x2: real, y2: real, r2: real)
  {
    var dx, dy, s := x1 - x2, y1 - y2, r1 + r2;
    0.0 < s && dx * dx + dy * dy < s * s
  }

  /** For the non-negative square root `d` of the squared distance (what
      `Math.hypot` returns), the squared test agrees with `d < r1 + r2`. */
  lemma OverlapsIsDistanceBelowRadii(x1: real, y1: real, r1: real, x2: real, y2: real, r2: real, d: real)
    requires 0.0 <= d
    requires d * d == (x1 - x2) * (x1 - x2) + (y1 - y2) * (y1 - y2)
    ensures Overlaps(x1, y1, r1, x2, y2, r2) <==> d < r1 + r2
  {
    var s := r1 + r2;
    if d < s {
      calc {
        d * d;
      <= d * s;
      < s * s;
      }
    } else if 0.0 < s {
      calc {
        s * s;
      <= s * d;
      <= d * d;
      }
    }
  }
}
