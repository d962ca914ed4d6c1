/**
 * Exact complex arithmetic. The Java value type keeps two doubles; here both
 * parts are unbounded reals, so every identity below holds exactly.
 */
module ComplexNumbers {

  /** An immutable complex number re + i·im. */
  datatype Complex = Complex(re: real, im: real)

  const Zero: Complex := Complex(0.0, 0.0)
  const One: Complex := Complex(1.0, 0.0)
  const I: Complex := Complex(0.0, 1.0)

  /** The squared modulus, never negative, and zero exactly at the origin. */
  function AbsSquared(z: Complex): (r: real)
    ensures r >= 0.0
    ensures z == Zero ==> r == 0.0
    ensures r == 0.0 ==> z == Zero
  {
    SumOfSquares(z.re, z.im);
    ZeroSumOfSquares(z.re, z.im);
    z.re * z.re + z.im * z.im
  }

  /** Componentwise sum. */
  function Add(a: Complex, b: Complex): Complex
  {
    Complex(a.re + b.re, a.im + b.im)
  }

  /** Componentwise difference. */
  function Sub(a: Complex, b: Complex): Complex
  {
    Complex(a.re - b.re, a.im - b.im)
  }

  /** The product (ac − bd) + i(ad + bc). */
  function Mul(a: Complex, b: Complex): Complex
  {
    Complex(a.re * b.re - a.im * b.im, a.re * b.im + a.im * b.re)
  }

  /** Multiplication by a real scalar scales the squared modulus by k². */
  function Scale(z: Complex, k: real): (r: Complex)
    ensures AbsSquared(r) == k * k * AbsSquared(z)
    ensures k == 1.0 ==> r == z
    ensures k == 0.0 ==> r == Zero
  {
    ScaleModulus(z.re, z.im, k);
    Complex(z.re * k, z.im * k)
  }

  /** The conjugate has the same modulus, and z·conj(z) is the real |z|². */
  function Conjugate(z: Complex): (r: Complex)
    ensures AbsSquared(r) == AbsSquared(z)
    ensures Mul(z, r) == Complex(AbsSquared(z), 0.0)
    ensures r.re == z.re && Add(z, r).im == 0.0
  {
    var r := Complex(z.re, -z.im);
    assert r.re * r.re == z.re * z.re;
    assert r.im * r.im == z.im * z.im;
    assert z.re * r.im + z.im * r.re == 0.0;
    r
  }

  /** Java's equals compares both parts exactly; that is structural equality. */
  predicate Equals(a: Complex, b: Complex)
    ensures Equals(a, b) <==> a == b
  {
    a.re == b.re && a.im == b.im
  }

  lemma SquarePositive(x: real)
    requires x > 0.0
    ensures x * x > 0.0
  {
  }

  lemma SquareNonNegative(x: real)
    ensures x * x >= 0.0
    ensures x != 0.0 ==> x * x > 0.0
  {
    if x > 0.0 {
      SquarePositive(x);
    } else if x < 0.0 {
      var y := -x;
      SquarePositive(y);
      assert y * y == x * x;
    }
  }

  lemma SumOfSquares(a: real, b: real)
    ensures a * a + b * b >= 0.0
    ensures a != 0.0 || b != 0.0 ==> a * a + b * b > 0.0
  {
    SquareNonNegative(a);
    SquareNonNegative(b);
    if a != 0.0 {
      assert a * a > 0.0;
    } else if b != 0.0 {
      assert b * b > 0.0;
    }
  }

  /** A non-zero x is recovered from its square as x²·(1/x). */
  lemma SquareOverSelf(x: real)
    requires x != 0.0
    ensures x * x * (1.0 / x) == x
  {
    var inv := 1.0 / x;
    assert x * inv == 1.0;
    assert x * x * inv == x * (x * inv);
  }

  /** Only zero squares to zero. */
  lemma ZeroSquare(x: real)
    requires x * x == 0.0
    ensures x == 0.0
  {
    if x != 0.0 {
      SquareOverSelf(x);
      assert false;
    }
  }

  /** A sum of two squares vanishes only when both terms are zero. */
  lemma ZeroSumOfSquares(a: real, b: real)
    ensures a * a + b * b == 0.0 ==> a == 0.0 && b == 0.0
  {
    if a * a + b * b == 0.0 {
      SquareNonNegative(a);
      SquareNonNegative(b);
      assert a * a == 0.0;
      assert b * b == 0.0;
      ZeroSquare(a);
      ZeroSquare(b);
    }
  }

  lemma MulModulus(a: real, b: real, c: real, d: real)
    ensures (a * c - b * d) * (a * c - b * d) + (a * d + b * c) * (a * d + b * c)
         == (a * a + b * b) * (c * c + d * d)
  {
  }

  lemma ScaleModulus(a: real, b: real, k: real)
    ensures (a * k) * (a * k) + (b * k) * (b * k) == k * k * (a * a + b * b)
  {
  }

  /** z + w − w == z and z − w + w == z; addition is commutative. */
  lemma AddSubCancel(z: Complex, w: Complex)
    ensures Sub(Add(z, w), w) == z && Add(Sub(z, w), w) == z
    ensures Add(z, w) == Add(w, z)
  {
  }

  /** ONE is a two-sided identity for multiplication. */
  lemma MulOneIdentity(z: Complex)
    ensures Mul(One, z) == z && Mul(z, One) == z
  {
  }

  /** ZERO annihilates under multiplication and is neutral for addition. */
  lemma ZeroLaws(z: Complex)
    ensures Mul(Zero, z) == Zero && Mul(z, Zero) == Zero
    ensures Add(Zero, z) == z && Add(z, Zero) == z
  {
    assert Mul(Zero, z) == Complex(0.0, 0.0);
    assert Mul(z, Zero) == Complex(0.0, 0.0);
  }

  /** The squared modulus is multiplicative. */
  lemma MulAbsSquared(a: Complex, b: Complex)
    ensures AbsSquared(Mul(a, b)) == AbsSquared(a) * AbsSquared(b)
  {
    MulModulus(a.re, a.im, b.re, b.im);
  }

  /** Multiplication is commutative. */
  lemma MulCommutes(a: Complex, b: Complex)
    ensures Mul(a, b) == Mul(b, a)
  {
  }

  /** Conjugation is an involution. */
  lemma ConjugateInvolution(z: Complex)
    ensures Conjugate(Conjugate(z)) == z
  {
  }
}
