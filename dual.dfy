/**
 * Dual numbers `x0 + x1 ε` with `ε² = 0`, the type used for forward-mode
 * automatic differentiation: `x0` is the real part, `x1` the dual part.
 */
module DualNumbers {
  import Scalar

  datatype Dual2 = Dual2(x0: real, x1: real)

  /** The additive identity (the derived `Zero`). */
  function Zero(): Dual2 {
    Dual2(0.0, 0.0)
  }

  /** The multiplicative identity `1 + 0ε`. */
  function One(): Dual2 {
    Dual2(1.0, 0.0)
  }

  /** The scalar `factor` embedded as a dual number with no dual part. */
  function Scale(factor: real): Dual2 {
    Dual2(factor, 0.0)
  }

  function Add(a: Dual2, b: Dual2): Dual2 {
    Dual2(a.x0 + b.x0, a.x1 + b.x1)
  }

  /** Subtraction undoes addition. */
  function Sub(a: Dual2, b: Dual2): (r: Dual2)
    ensures Add(r, b) == a
  {
    Dual2(a.x0 - b.x0, a.x1 - b.x1)
  }

  /** Negation gives the additive inverse. */
  function Neg(a: Dual2): (r: Dual2)
    ensures Add(a, r) == Zero()
  {
    Dual2(-a.x0, -a.x1)
  }

  /** Truncated product: the `a1 * b1 * ε²` term vanishes. */
  function Mul(a: Dual2, b: Dual2): Dual2 {
    Dual2(a.x0 * b.x0, a.x0 * b.x1 + a.x1 * b.x0)
  }

  /** Division by a dual number with a non-zero real part; the quotient times the divisor is the dividend. */
  function Div(a: Dual2, b: Dual2): (r: Dual2)
    requires b.x0 != 0.0
    ensures Mul(r, b) == a
  {
    Scalar.SqNonZero(b.x0);
    var r := Dual2(a.x0 / b.x0, (a.x1 * b.x0 - a.x0 * b.x1) / Scalar.Sq(b.x0));
    assert r.x1 * b.x0 == (a.x1 * b.x0 - a.x0 * b.x1) / b.x0;
    r
  }

  /** Reciprocal of a dual number with a non-zero real part: a two-sided multiplicative inverse. */
  function Inv(a: Dual2): (r: Dual2)
    requires a.x0 != 0.0
    ensures Mul(a, r) == One() && Mul(r, a) == One()
  {
    Scalar.SqNonZero(a.x0);
    var r := Dual2(Scalar.Inv(a.x0), -a.x1 / Scalar.Sq(a.x0));
    assert a.x0 * r.x1 == -a.x1 / a.x0;
    r
  }

  /** Squared norm `x0²`: only the real part counts. */
  function NormSq(a: Dual2): (r: real)
    ensures r >= 0.0
  {
    Scalar.Sq(a.x0)
  }

  /** Determinant `x0²`, the same quantity as the squared norm. */
  function Det(a: Dual2): (r: real)
    ensures r == NormSq(a)
  {
    Scalar.Sq(a.x0)
  }

  /** Closeness: both components are within `eps` of each other. */
  function CloseEps(a: Dual2, b: Dual2, eps: real): (r: bool)
    ensures r <==> Scalar.Abs(a.x0 - b.x0) <= eps && Scalar.Abs(a.x1 - b.x1) <= eps
  {
    if !Scalar.CloseEps(a.x0, b.x0, eps) then
      false
    else if !Scalar.CloseEps(a.x1, b.x1, eps) then
      false
    else
      true
  }

  lemma AddZeroIdentity(a: Dual2)
    ensures Add(a, Zero()) == a && Add(Zero(), a) == a
  {
  }

  lemma NegInvolution(a: Dual2)
    ensures Neg(Neg(a)) == a
  {
  }

  lemma SubIsAddNeg(a: Dual2, b: Dual2)
    ensures Sub(a, b) == Add(a, Neg(b))
  {
  }

  lemma MulOneIdentity(a: Dual2)
    ensures Mul(a, One()) == a && Mul(One(), a) == a
  {
  }

  /** Multiplying by an embedded scalar scales both components. */
  lemma ScaleIsScalarMultiplication(factor: real, a: Dual2)
    ensures Mul(Scale(factor), a) == Dual2(factor * a.x0, factor * a.x1)
    ensures Mul(a, Scale(factor)) == Dual2(factor * a.x0, factor * a.x1)
  {
  }

  lemma ScaleOneIsOne()
    ensures Scale(1.0) == One() && Scale(0.0) == Zero()
  {
  }

  /** Dual multiplication is commutative and associative. */
  lemma MulCommutativeAssociative(a: Dual2, b: Dual2, c: Dual2)
    ensures Mul(a, b) == Mul(b, a)
    ensures Mul(Mul(a, b), c) == Mul(a, Mul(b, c))
  {
    var l, r := Mul(Mul(a, b), c), Mul(a, Mul(b, c));
    assert l.x1 == r.x1;
  }

  /** The squared norm is multiplicative. */
  lemma NormSqMultiplicative(a: Dual2, b: Dual2)
    ensures NormSq(Mul(a, b)) == NormSq(a) * NormSq(b)
  {
  }

  /** Division is multiplication by the inverse of the divisor. */
  lemma DivIsMulInv(a: Dual2, b: Dual2)
    requires b.x0 != 0.0
    ensures Div(a, b) == Mul(a, Inv(b))
  {
    var q, p := Div(a, b), Mul(a, Inv(b));
    assert q.x1 == p.x1 by {
      var b2 := b.x0 * b.x0;
      assert p.x1 == a.x0 * (-b.x1 / b2) + a.x1 * (1.0 / b.x0);
      assert a.x1 * (1.0 / b.x0) == a.x1 * b.x0 / b2;
    }
  }

  /** Inverting twice gives back the original value. */
  lemma InvInvolution(a: Dual2)
    requires a.x0 != 0.0
    ensures Inv(a).x0 != 0.0 && Inv(Inv(a)) == a
  {
    Scalar.InvInvolution(a.x0);
  }

  /** The determinant vanishes exactly when the real part does, i.e. exactly when `Inv` does not apply. */
  lemma DetZeroIff(a: Dual2)
    ensures Det(a) == 0.0 <==> a.x0 == 0.0
  {
    Scalar.SqZeroIff(a.x0);
  }

  /** A zero determinant rules out every multiplicative inverse. */
  lemma DetZeroNotInvertible(a: Dual2, b: Dual2)
    requires Det(a) == 0.0
    ensures Mul(a, b) != One() && Mul(b, a) != One()
  {
    DetZeroIff(a);
  }

  /** At tolerance zero closeness is equality, so changing any one component breaks it. */
  lemma CloseEpsZeroIsEquality(a: Dual2, b: Dual2)
    ensures CloseEps(a, b, 0.0) <==> a == b
  {
  }

  lemma CloseEpsReflexiveSymmetric(a: Dual2, b: Dual2, eps: real)
    requires eps >= 0.0
    ensures CloseEps(a, a, eps)
    ensures CloseEps(a, b, eps) <==> CloseEps(b, a, eps)
  {
  }

  /** Fixtures from the library's tests: scaling and the identity. */
  lemma ScaleOneFixtures()
    ensures Scale(2.0) == Dual2(2.0, 0.0)
    ensures One() == Dual2(1.0, 0.0)
  {
  }

  /** Fixtures from the library's tests: the additive operations. */
  lemma AdditiveFixtures()
    ensures Add(Dual2(1.0, 2.0), Dual2(2.0, 1.0)) == Dual2(3.0, 3.0)
    ensures Sub(Dual2(1.0, 2.0), Dual2(2.0, 1.0)) == Dual2(-1.0, 1.0)
    ensures Neg(Dual2(1.0, 2.0)) == Dual2(-1.0, -2.0)
  {
  }

  /** Fixtures from the library's tests: product and quotient. */
  lemma MultiplicativeFixtures()
    ensures Mul(Dual2(1.0, 2.0), Dual2(2.0, 1.0)) == Dual2(2.0, 5.0)
    ensures Div(Dual2(1.0, 2.0), Dual2(2.0, 1.0)) == Dual2(0.5, 0.75)
  {
  }

  /** Fixture from the library's tests: the inverse. */
  lemma InvFixture()
    ensures Inv(Dual2(1.0, 2.0)) == Dual2(1.0, -2.0)
  {
    assert Scalar.Inv(1.0) == 1.0;
    assert Scalar.Sq(1.0) == 1.0;
  }

  /** Fixtures from the library's tests: norm and determinant. */
  lemma NormDetFixtures()
    ensures NormSq(Dual2(1.0, 2.0)) == 1.0
    ensures Det(Dual2(0.0, 1.0)) == 0.0
  {
  }

  /** Fixtures from the library's tests: closeness at tolerance zero. */
  lemma CloseEpsFixtures()
    ensures CloseEps(Dual2(1.0, 2.0), Dual2(1.0, 2.0), 0.0)
    ensures !CloseEps(Dual2(1.0, 2.0), Dual2(2.0, 2.0), 0.0)
    ensures !CloseEps(Dual2(1.0, 2.0), Dual2(1.0, 0.0), 0.0)
  {
  }
}
