/** Small numeric helpers shared by the browser games: the parts of JavaScript's
    Math object and of THREE.MathUtils that the game rules use, over `real`. */
module Common {

  datatype Option<T> = None | Some(value: T)

  function Min(a: real, b: real): (r: real)
    ensures r <= a && r <= b
    ensures r == a || r == b
  {
    if a <= b then a else b
  }

  function Max(a: real, b: real): (r: real)
    ensures a <= r && b <= r
    ensures r == a || r == b
  {
    if a <= b then b else a
  }

  function Abs(v: real): (r: real)
    ensures 0.0 <= r
    ensures r == v || r == -v
  {
    if v < 0.0 then -v else v
  }

  /** Math.sign on a real: -1, 0 or 1. */
  function Sign(v: real): (s: real)
    ensures s == -1.0 || s == 0.0 || s == 1.0
    ensures (s == 0.0) == (v == 0.0)
    ensures s * v == Abs(v)
  {
    if v < 0.0 then -1.0 else if v > 0.0 then 1.0 else 0.0
  }

  /** The signed displacement along one axis when `back` moves by -speed and
      `forth` by +speed: opposite keys cancel. */
  function AxisDelta(back: bool, forth: bool, speed: real): (d: real)
    ensures back == forth ==> d == 0.0
    ensures back && !forth ==> d == -speed
    ensures forth && !back ==> d == speed
  {
    (if forth then speed else 0.0) - (if back then speed else 0.0)
  }

  /** Math.max(lo, Math.min(hi, v)), which is also THREE.MathUtils.clamp(v, lo, hi). */
  function Clamp(v: real, lo: real, hi: real): (r: real)
    ensures lo <= hi ==> lo <= r <= hi
    ensures lo <= v <= hi ==> r == v
    ensures v < lo ==> r == lo
    ensures lo <= hi < v ==> r == hi
    ensures hi < lo ==> r == lo  // an empty range: the outer Math.max wins
  {
    Max(lo, Min(hi, v))
  }
}
