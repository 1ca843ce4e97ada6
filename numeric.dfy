/** `Math.max` and `Math.min` on two numbers, shared by the title layout and
    the background colours. */
module Numeric {

  function Max(a: real, b: real): real { if a >= b then a else b }

  function Min(a: real, b: real): real { if a <= b then a else b }
}
