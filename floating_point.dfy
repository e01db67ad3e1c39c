/** The parts of `java.lang.Math` and of double division that the exponential family uses.
    They are kept uninterpreted: the model is about which closed form is chosen and how the
    parameter vectors change, not about numeric values. */
module FloatingPoint {

  /** `Math.exp`, `Math.log`, and the value a double quotient takes when its divisor is
      zero (an infinity or NaN, which a real number cannot hold). */
  datatype MathLib = MathLib(exp: real -> real, log: real -> real, byZero: real -> real)

  /** The double quotient `a / b`, exact whenever the divisor is not zero. */
  function Divide(lib: MathLib, a: real, b: real): (q: real)
    ensures b != 0.0 ==> q * b == a
  {
    if b != 0.0 then a / b else lib.byZero(a)
  }
}
