/**
 * The Python numeric built-ins the interpreter relies on, stated over
 * Dafny's exact reals and unbounded integers.
 */
module PyNum {

  /** `int(x)` on a float: truncation toward zero. */
  function Trunc(x: real): (r: int)
    ensures 0.0 <= x ==> r as real <= x < r as real + 1.0
    ensures x < 0.0 ==> r as real - 1.0 < x <= r as real
  {
    if x >= 0.0 then x.Floor else -((-x).Floor)
  }

  /** `round(x)` in Python 3: the nearest integer, ties going to the even one. */
  function RoundHalfEven(x: real): (r: int)
    ensures -0.5 <= x - r as real <= 0.5
    ensures (x - r as real == 0.5 || x - r as real == -0.5) ==> r % 2 == 0
  {
    var f := x.Floor;
    var d := x - f as real;
    if d < 0.5 then f
    else if d > 0.5 then f + 1
    else if f % 2 == 0 then f else f + 1
  }

  /** `int(math.copysign(1, x))`: one unit in the direction of `x`. */
  function UnitStep(x: real): (r: int)
    ensures r == 1 || r == -1
    ensures x > 0.0 ==> r == 1
    ensures x < 0.0 ==> r == -1
  {
    if x < 0.0 then -1 else 1
  }

  /** `abs(x)` */
  function Abs(x: real): (r: real)
    ensures r >= 0.0 && (r == x || r == -x)
  {
    if x < 0.0 then -x else x
  }

  /** `min(a, b)` */
  function Min(a: real, b: real): (r: real)
    ensures r <= a && r <= b && (r == a || r == b)
  {
    if b < a then b else a
  }

  /** `max(lo, min(hi, v))`, the clamp used for the cursor. */
  function Clamp(lo: int, hi: int, v: int): (r: int)
    ensures lo <= hi ==> lo <= r <= hi
    ensures lo <= v <= hi ==> r == v
    ensures v < lo || hi < lo ==> r == lo
    ensures lo <= hi < v ==> r == hi
  {
    var m := if v < hi then v else hi;
    if m < lo then lo else m
  }

  /** Rounding to nearest gives zero exactly on the closed interval [-1/2, 1/2]. */
  lemma RoundIsZero(x: real)
    ensures RoundHalfEven(x) == 0 <==> -0.5 <= x <= 0.5
  {
  }
}
