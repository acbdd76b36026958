/**
 * The numeric library and host constants that renderer.rb uses but does not
 * define: `Math.sqrt`, `Math.tan`, `DEG2RAD`, `SCREEN_CX` and `SCREEN_CY`.
 * Floats are reals here; the library functions are left uninterpreted apart
 * from the facts about `Math.sqrt` that the renderer relies on.
 */
module Numerics {

  /** What the renderer gets from outside this file. */
  datatype Env = Env(
    mathSqrt: real -> real,  // Math.sqrt
    mathTan: real -> real,   // Math.tan
    deg2rad: real,           // DEG2RAD
    screenCx: real,          // SCREEN_CX, half the viewport width
    screenCy: real)          // SCREEN_CY, half the viewport height
  {
    function Sqrt(x: real): real {
      mathSqrt(x)
    }

    function Tan(x: real): real {
      mathTan(x)
    }

    /** The only facts about `Math.sqrt` the model uses: √0 = 0 and √x > 0 for x > 0. */
    ghost predicate Valid() {
      Sqrt(0.0) == 0.0 &&
      forall x: real :: x > 0.0 ==> Sqrt(x) > 0.0
    }
  }

  /** Ruby's `Float::EPSILON`, 2⁻⁵². */
  const FloatEpsilon: real := 1.0 / 4503599627370496.0

  /** Ruby's `Float#to_i`: truncation toward zero, for finite values. */
  function Trunc(x: real): (n: int)
    ensures 0.0 <= x ==> 0 <= n && n as real <= x < n as real + 1.0
    ensures x < 0.0 ==> n <= 0 && n as real - 1.0 < x <= n as real
  {
    if x >= 0.0 then x.Floor else -((-x).Floor)
  }
}
