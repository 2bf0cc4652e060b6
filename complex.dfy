/**
 * Complex numbers `x0 + x1 i`, the library's representation of 2D rotations.
 */
module ComplexNumbers {
  import Scalar

  datatype Complex = Complex(x0: real, x1: real)

  /** The additive identity (the derived `Zero`). */
  function Zero(): Complex {
    Complex(0.0, 0.0)
  }

  /** The multiplicative identity `1 + 0i`. */
  function One(): Complex {
    Complex(1.0, 0.0)
  }

  /** The scalar `factor` embedded as a complex number on the real axis. */
  function Scale(factor: real): Complex {
    Complex(factor, 0.0)
  }

  function Add(a: Complex, b: Complex): Complex {
    Complex(a.x0 + b.x0, a.x1 + b.x1)
  }

  /** Subtraction undoes addition. */
  function Sub(a: Complex, b: Complex): (r: Complex)
    ensures Add(r, b) == a
  {
    Complex(a.x0 - b.x0, a.x1 - b.x1)
  }

  /** Negation gives the additive inverse. */
  function Neg(a: Complex): (r: Complex)
    ensures Add(a, r) == Zero()
  {
    Complex(-a.x0, -a.x1)
  }

  function Mul(a: Complex, b: Complex): Complex {
    Complex(a.x0 * b.x0 - a.x1 * b.x1, a.x0 * b.x1 + a.x1 * b.x0)
  }

  /** Squared modulus `x0² + x1²`. */
  function NormSq(a: Complex): (r: real)
    ensures r >= 0.0
  {
    Scalar.Sq(a.x0) + Scalar.Sq(a.x1)
  }

  /** Determinant of the rotation-scaling matrix of `a`: the squared modulus again. */
  function Det(a: Complex): (r: real)
    ensures r == NormSq(a)
  {
    Scalar.Sq(a.x0) + Scalar.Sq(a.x1)
  }

  /** Division by a number of non-zero modulus: the quotient times the divisor is the dividend. */
  function Div(a: Complex, b: Complex): (r: Complex)
    requires NormSq(b) != 0.0
    ensures Mul(r, b) == a
  {
    var len2 := b.x0 * b.x0 + b.x1 * b.x1;
    var r := DivideComponents(Numerators(a, b), len2);
    DivCore(a, b, r, len2);
    r
  }

  /** The complex conjugate: the imaginary part negated. */
  function Conjugate(a: Complex): Complex {
    Complex(a.x0, -a.x1)
  }

  /** The numerators of the library's quotient formula for `a / b`. */
  function Numerators(a: Complex, b: Complex): Complex {
    Complex(a.x0 * b.x0 + a.x1 * b.x1, a.x1 * b.x0 - a.x0 * b.x1)
  }

  /** The numerators of the quotient are `a` times the conjugate of `b`. */
  lemma NumeratorsAreConjugateProduct(a: Complex, b: Complex)
    ensures Numerators(a, b) == Mul(a, Conjugate(b))
  {
  }

  /** `r` times `n` is `f`, component by component. */
  predicate IsScaled(r: Complex, n: real, f: Complex) {
    r.x0 * n == f.x0 && r.x1 * n == f.x1
  }

  /** Both components of `f` divided by the non-zero `n`: the result times `n` is `f` again. */
  function DivideComponents(f: Complex, n: real): (r: Complex)
    requires n != 0.0
    ensures IsScaled(r, n, f)
  {
    Complex(f.x0 / n, f.x1 / n)
  }

  /** The numerators over the squared modulus `n` of `b` give a number whose product with `b` is `a`. */
  lemma DivCore(a: Complex, b: Complex, r: Complex, n: real)
    requires n == b.x0 * b.x0 + b.x1 * b.x1 && n != 0.0
    requires IsScaled(r, n, Numerators(a, b))
    ensures Mul(r, b) == a
  {
    assert n * (r.x0 * b.x0 - r.x1 * b.x1) == n * a.x0;
    assert n * (r.x0 * b.x1 + r.x1 * b.x0) == n * a.x1;
    Scalar.CancelNonZero(n, Mul(r, b).x0, a.x0);
    Scalar.CancelNonZero(n, Mul(r, b).x1, a.x1);
  }

  /** Reciprocal of a number of non-zero modulus: a two-sided multiplicative inverse. */
  function Inv(a: Complex): (r: Complex)
    requires NormSq(a) != 0.0
    ensures Mul(a, r) == One() && Mul(r, a) == One()
  {
    var len2 := a.x0 * a.x0 + a.x1 * a.x1;
    var r := DivideComponents(Complex(a.x0, -a.x1), len2);
    assert Numerators(One(), a) == Complex(a.x0, -a.x1);
    DivCore(One(), a, r, len2);
    MulCommutativeAssociative(a, r, a);
    r
  }

  /** Closeness: both components are within `eps` of each other. */
  function CloseEps(a: Complex, b: Complex, eps: real): (r: bool)
    ensures r <==> Scalar.Abs(a.x0 - b.x0) <= eps && Scalar.Abs(a.x1 - b.x1) <= eps
  {
    if !Scalar.CloseEps(a.x0, b.x0, eps) then
      false
    else if !Scalar.CloseEps(a.x1, b.x1, eps) then
      false
    else
      true
  }

  lemma AddZeroIdentity(a: Complex)
    ensures Add(a, Zero()) == a && Add(Zero(), a) == a
  {
  }

  lemma NegInvolution(a: Complex)
    ensures Neg(Neg(a)) == a
  {
  }

  lemma SubIsAddNeg(a: Complex, b: Complex)
    ensures Sub(a, b) == Add(a, Neg(b))
  {
  }

  lemma MulOneIdentity(a: Complex)
    ensures Mul(a, One()) == a && Mul(One(), a) == a
  {
  }

  /** Multiplying by an embedded scalar scales both components. */
  lemma ScaleIsScalarMultiplication(factor: real, a: Complex)
    ensures Mul(Scale(factor), a) == Complex(factor * a.x0, factor * a.x1)
    ensures Mul(a, Scale(factor)) == Complex(factor * a.x0, factor * a.x1)
  {
  }

  lemma ScaleOneIsOne()
    ensures Scale(1.0) == One() && Scale(0.0) == Zero()
  {
  }

  /** Complex multiplication is commutative and associative. */
  lemma MulCommutativeAssociative(a: Complex, b: Complex, c: Complex)
    ensures Mul(a, b) == Mul(b, a)
    ensures Mul(Mul(a, b), c) == Mul(a, Mul(b, c))
  {
    var l, r := Mul(Mul(a, b), c), Mul(a, Mul(b, c));
    assert l.x0 == r.x0;
    assert l.x1 == r.x1;
  }

  /** The squared modulus is multiplicative. */
  lemma NormSqMultiplicative(a: Complex, b: Complex)
    ensures NormSq(Mul(a, b)) == NormSq(a) * NormSq(b)
  {
  }

  /** The squared modulus vanishes exactly at zero, so `Div` and `Inv` apply to every other number. */
  lemma NormSqZeroIff(a: Complex)
    ensures NormSq(a) == 0.0 <==> a == Zero()
  {
    Scalar.SqZeroIff(a.x0);
    Scalar.SqZeroIff(a.x1);
  }

  /** Division is multiplication by the inverse of the divisor. */
  lemma DivIsMulInv(a: Complex, b: Complex)
    requires NormSq(b) != 0.0
    ensures Div(a, b) == Mul(a, Inv(b))
  {
    var q, i := Div(a, b), Inv(b);
    calc {
      q;
      Mul(q, One());
      Mul(q, Mul(b, i));
      { MulCommutativeAssociative(q, b, i); }
      Mul(Mul(q, b), i);
      Mul(a, i);
    }
  }

  /** An inverse is never zero: its product with the original number is one. */
  lemma InvNonZero(a: Complex)
    requires NormSq(a) != 0.0
    ensures NormSq(Inv(a)) != 0.0
  {
    var i := Inv(a);
    assert Mul(a, i) == One();
    NormSqZeroIff(i);
  }

  /** A two-sided inverse is unique. */
  lemma InverseUnique(a: Complex, i: Complex, j: Complex)
    requires Mul(a, i) == One() && Mul(j, a) == One()
    ensures i == j
  {
    calc {
      i;
      Mul(One(), i);
      Mul(Mul(j, a), i);
      { MulCommutativeAssociative(j, a, i); }
      Mul(j, Mul(a, i));
      Mul(j, One());
    }
  }

  /** Inverting twice gives back the original value. */
  lemma InvInvolution(a: Complex)
    requires NormSq(a) != 0.0
    ensures NormSq(Inv(a)) != 0.0 && Inv(Inv(a)) == a
  {
    InvNonZero(a);
    var i := Inv(a);
    InverseUnique(i, Inv(i), a);
  }

  /** Zero has neither a left nor a right inverse. */
  lemma ZeroNotInvertible(b: Complex)
    ensures Mul(Zero(), b) != One() && Mul(b, Zero()) != One()
  {
  }

  /** A complex number with zero determinant has neither a left nor a right inverse. */
  lemma DetZeroNotInvertible(a: Complex, b: Complex)
    requires Det(a) == 0.0
    ensures Mul(a, b) != One() && Mul(b, a) != One()
  {
    assert NormSq(a) == 0.0;
    NormSqZeroIff(a);
    ZeroNotInvertible(b);
  }

  /** At tolerance zero closeness is equality, so changing any one component breaks it. */
  lemma CloseEpsZeroIsEquality(a: Complex, b: Complex)
    ensures CloseEps(a, b, 0.0) <==> a == b
  {
  }

  lemma CloseEpsReflexiveSymmetric(a: Complex, b: Complex, eps: real)
    requires eps >= 0.0
    ensures CloseEps(a, a, eps)
    ensures CloseEps(a, b, eps) <==> CloseEps(b, a, eps)
  {
  }

  /** Fixtures from the library's tests: scaling and the identity. */
  lemma ScaleOneFixtures()
    ensures Scale(2.0) == Complex(2.0, 0.0)
    ensures One() == Complex(1.0, 0.0)
  {
  }

  /** Fixtures from the library's tests: the additive operations. */
  lemma AdditiveFixtures()
    ensures Add(Complex(1.0, 2.0), Complex(2.0, 1.0)) == Complex(3.0, 3.0)
    ensures Sub(Complex(1.0, 2.0), Complex(2.0, 1.0)) == Complex(-1.0, 1.0)
    ensures Neg(Complex(1.0, 2.0)) == Complex(-1.0, -2.0)
  {
  }

  /** Fixture from the library's tests: the product. */
  lemma MulFixture()
    ensures Mul(Complex(1.0, 2.0), Complex(2.0, 1.0)) == Complex(0.0, 5.0)
  {
  }

  /** Fixture from the library's tests: the quotient. */
  lemma DivFixture()
    ensures NormSq(Complex(2.0, 1.0)) == 5.0
    ensures Div(Complex(1.0, 2.0), Complex(2.0, 1.0)) == Complex(4.0 / 5.0, 3.0 / 5.0)
  {
    assert Scalar.Sq(2.0) == 4.0 && Scalar.Sq(1.0) == 1.0;
  }

  /** Fixture from the library's tests: the inverse. */
  lemma InvFixture()
    ensures NormSq(Complex(1.0, 2.0)) == 5.0
    ensures Inv(Complex(1.0, 2.0)) == Complex(0.2, -0.4)
  {
    assert Scalar.Sq(1.0) == 1.0 && Scalar.Sq(2.0) == 4.0;
  }

  /** Fixtures from the library's tests: norm and determinant. */
  lemma NormDetFixtures()
    ensures NormSq(Complex(1.0, 2.0)) == 5.0
    ensures Det(Complex(0.0, 0.0)) == 0.0
  {
    assert Scalar.Sq(1.0) == 1.0 && Scalar.Sq(2.0) == 4.0;
  }

  /** Fixtures from the library's tests: closeness at tolerance zero. */
  lemma CloseEpsFixtures()
    ensures CloseEps(Complex(1.0, 2.0), Complex(1.0, 2.0), 0.0)
    ensures !CloseEps(Complex(1.0, 2.0), Complex(2.0, 2.0), 0.0)
    ensures !CloseEps(Complex(1.0, 2.0), Complex(1.0, 0.0), 0.0)
  {
  }
}
