/**
 * The floating-point library calls the toolchain relies on, kept
 * uninterpreted. `Math.cos`, `Math.sin` and the reciprocal square root
 * `1.0 / Math.sqrt(x)` are fields of a `Numerics` value passed to every
 * member that needs them; a lemma that depends on one of their values states
 * that value as a precondition.
 */
module RealMath {

  datatype Numerics = Numerics(cos: real -> real, sin: real -> real, invSqrt: real -> real)

  /** The value of `Math.PI` as a decimal. */
  const PI: real := 3.141592653589793

  /** `1.0 / Math.sqrt(2.0)`, squaring to one half when the library is exact there. */
  predicate ExactInvSqrt2(num: Numerics)
  {
    num.invSqrt(2.0) * num.invSqrt(2.0) == 0.5
  }
}
