/**
  The few members of JavaScript's `Math` object that the calculators and `clamp` use,
  stated over Dafny's mathematical reals rather than binary64 numbers.
 */
module JsMath {

  /** The reals between which the binary64 value of `Math.PI` lies. */
  type PiRange = r: real | 3.14159265 < r < 3.14159266 witness 3.141592655

  /** `Math.PI`: an unspecified constant, known only to lie in `PiRange`. */
  const Pi: PiRange

  /** `Math.min` of two numbers. */
  function Min(a: real, b: real): (r: real)
    ensures r <= a && r <= b
    ensures r == a || r == b
  {
    if b < a then b else a
  }

  /** `Math.max` of two numbers. */
  function Max(a: real, b: real): (r: real)
    ensures a <= r && b <= r
    ensures r == a || r == b
  {
    if b > a then b else a
  }

  /** `Math.abs`. */
  function Abs(x: real): (r: real)
    ensures 0.0 <= r
    ensures r == x || r == -x
  {
    if x < 0.0 then -x else x
  }
}
