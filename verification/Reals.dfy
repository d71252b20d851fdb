/** Python's `max`, `min`, `abs` and two-place `round` on exact numbers. */
module Reals {
  function Max(x: real, y: real): real {
    if x >= y then x else y
  }

  function Min(x: real, y: real): real {
    if x <= y then x else y
  }

  function Abs(x: real): real {
    if x < 0.0 then -x else x
  }

  /** How `round` breaks the tie at a number that lies halfway between two hundredths: upwards or not.  Python rounds
      the binary value nearest to the number, which may lie on either side of the tie. */
  type Ties = real -> bool

  /** To the nearest hundredth. */
  function Round2(x: real, ties: Ties): (r: real)
    ensures -0.005 <= x - r <= 0.005
  {
    var f := (x * 100.0).Floor;
    var d := x * 100.0 - (f as real);
    ((if d < 0.5 || (d == 0.5 && !ties(x)) then f else f + 1) as real) / 100.0
  }
}
