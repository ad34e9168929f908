/** Smaller, larger and clamped numbers. */
module Bounds {

  function Max(a: int, b: int): int { if a < b then b else a }

  function Min(a: int, b: int): int { if a < b then a else b }

  function Clamp(x: real, low: real, high: real): real {
    if x < low then low else if high < x then high else x
  }

  function Magnitude(x: real): real { if x < 0.0 then -x else x }
}
