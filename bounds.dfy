/** The clamping rules the scripts write with Python's `max` and `min`, and the
    threshold ladders they write as `if`/`elif` chains. */
module Bounds {

  function Max(a: int, b: int): int {
    if a >= b then a else b
  }

  function Min(a: int, b: int): int {
    if a <= b then a else b
  }

  /** `max(lo, min(hi, x))`: the value pulled into `[lo, hi]`. */
  function Clamp(x: int, lo: int, hi: int): (r: int)
    ensures lo <= hi ==> lo <= r <= hi
    ensures lo <= x <= hi ==> r == x
    ensures lo <= hi && x < lo ==> r == lo
    ensures lo <= hi && x > hi ==> r == hi
  {
    Max(lo, Min(hi, x))
  }

  /** `min(hi, max(lo, x))`, the other spelling, agrees with `Clamp` on a non-empty range. */
  lemma ClampOrder(x: int, lo: int, hi: int)
    requires lo <= hi
    ensures Min(hi, Max(lo, x)) == Clamp(x, lo, hi)
  {
  }

  /** The number of thresholds a value reaches. */
  function Reached(v: int, thresholds: seq<int>): (r: nat)
    ensures r <= |thresholds|
  {
    if |thresholds| == 0 then 0
    else (if v >= thresholds[0] then 1 else 0) + Reached(v, thresholds[1..])
  }

  /** A higher value never reaches fewer thresholds. */
  lemma {:induction false} ReachedMonotone(a: int, b: int, thresholds: seq<int>)
    requires a <= b
    ensures Reached(a, thresholds) <= Reached(b, thresholds)
  {
    if |thresholds| > 0 {
      ReachedMonotone(a, b, thresholds[1..]);
    }
  }
}
