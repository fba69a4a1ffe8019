/** Small functions on reals. */
module Reals {
  function Min(x: real, y: real): (r: real)
    ensures r <= x && r <= y && r in {x, y}
  {
    if x < y then x else y
  }

  function Max(x: real, y: real): (r: real)
    ensures x <= r && y <= r && r in {x, y}
  {
    if x < y then y else x
  }

  /** The least whole number that is not below `x`. */
  function Ceil(x: real): (r: int)
    ensures (r - 1) as real < x <= r as real
  {
    if x.Floor as real == x then x.Floor else x.Floor + 1
  }
}
