/**
 * 4x4 matrices with the sixteen entries `m11`..`m44` stored row by row
 * (`mij` is row `i`, column `j`), the library's representation of linear
 * transformations of 3D space.
 */
module Matrices {
  import Scalar
  import Minors

  datatype Matrix4 = Matrix4(
    m11: real, m12: real, m13: real, m14: real,
    m21: real, m22: real, m23: real, m24: real,
    m31: real, m32: real, m33: real, m34: real,
    m41: real, m42: real, m43: real, m44: real)

  /** The additive identity (the derived `Zero`). */
  function Zero(): Matrix4 {
    Matrix4(
      0.0, 0.0, 0.0, 0.0,
      0.0, 0.0, 0.0, 0.0,
      0.0, 0.0, 0.0, 0.0,
      0.0, 0.0, 0.0, 0.0)
  }

  /** The identity matrix. */
  const Identity := Matrix4(
      1.0, 0.0, 0.0, 0.0,
      0.0, 1.0, 0.0, 0.0,
      0.0, 0.0, 1.0, 0.0,
      0.0, 0.0, 0.0, 1.0)

  /** The multiplicative identity (the library's `one`). */
  function One(): Matrix4 {
    Identity
  }

  /** The scalar `factor` embedded as a matrix: `factor` on the diagonal, zero elsewhere. */
  function Scale(factor: real): Matrix4 {
    Matrix4(
      factor, 0.0, 0.0, 0.0,
      0.0, factor, 0.0, 0.0,
      0.0, 0.0, factor, 0.0,
      0.0, 0.0, 0.0, factor)
  }

  function Add(a: Matrix4, b: Matrix4): Matrix4 {
    Matrix4(
      a.m11 + b.m11, a.m12 + b.m12, a.m13 + b.m13, a.m14 + b.m14,
      a.m21 + b.m21, a.m22 + b.m22, a.m23 + b.m23, a.m24 + b.m24,
      a.m31 + b.m31, a.m32 + b.m32, a.m33 + b.m33, a.m34 + b.m34,
      a.m41 + b.m41, a.m42 + b.m42, a.m43 + b.m43, a.m44 + b.m44)
  }

  /** Subtraction undoes addition. */
  function Sub(a: Matrix4, b: Matrix4): (r: Matrix4)
    ensures Add(r, b) == a
  {
    Matrix4(
      a.m11 - b.m11, a.m12 - b.m12, a.m13 - b.m13, a.m14 - b.m14,
      a.m21 - b.m21, a.m22 - b.m22, a.m23 - b.m23, a.m24 - b.m24,
      a.m31 - b.m31, a.m32 - b.m32, a.m33 - b.m33, a.m34 - b.m34,
      a.m41 - b.m41, a.m42 - b.m42, a.m43 - b.m43, a.m44 - b.m44)
  }

  /** Negation gives the additive inverse. */
  function Neg(a: Matrix4): (r: Matrix4)
    ensures Add(a, r) == Zero()
  {
    Matrix4(
      -a.m11, -a.m12, -a.m13, -a.m14,
      -a.m21, -a.m22, -a.m23, -a.m24,
      -a.m31, -a.m32, -a.m33, -a.m34,
      -a.m41, -a.m42, -a.m43, -a.m44)
  }

  /** The matrix product, written out entry by entry as the library does. */
  function Mul(a: Matrix4, b: Matrix4): Matrix4 {
    Matrix4(
      a.m11 * b.m11 + a.m12 * b.m21 + a.m13 * b.m31 + a.m14 * b.m41,
      a.m11 * b.m12 + a.m12 * b.m22 + a.m13 * b.m32 + a.m14 * b.m42,
      a.m11 * b.m13 + a.m12 * b.m23 + a.m13 * b.m33 + a.m14 * b.m43,
      a.m11 * b.m14 + a.m12 * b.m24 + a.m13 * b.m34 + a.m14 * b.m44,
      a.m21 * b.m11 + a.m22 * b.m21 + a.m23 * b.m31 + a.m24 * b.m41,
      a.m21 * b.m12 + a.m22 * b.m22 + a.m23 * b.m32 + a.m24 * b.m42,
      a.m21 * b.m13 + a.m22 * b.m23 + a.m23 * b.m33 + a.m24 * b.m43,
      a.m21 * b.m14 + a.m22 * b.m24 + a.m23 * b.m34 + a.m24 * b.m44,
      a.m31 * b.m11 + a.m32 * b.m21 + a.m33 * b.m31 + a.m34 * b.m41,
      a.m31 * b.m12 + a.m32 * b.m22 + a.m33 * b.m32 + a.m34 * b.m42,
      a.m31 * b.m13 + a.m32 * b.m23 + a.m33 * b.m33 + a.m34 * b.m43,
      a.m31 * b.m14 + a.m32 * b.m24 + a.m33 * b.m34 + a.m34 * b.m44,
      a.m41 * b.m11 + a.m42 * b.m21 + a.m43 * b.m31 + a.m44 * b.m41,
      a.m41 * b.m12 + a.m42 * b.m22 + a.m43 * b.m32 + a.m44 * b.m42,
      a.m41 * b.m13 + a.m42 * b.m23 + a.m43 * b.m33 + a.m44 * b.m43,
      a.m41 * b.m14 + a.m42 * b.m24 + a.m43 * b.m34 + a.m44 * b.m44)
  }

  /** The determinant, as the library writes out its 24 terms. */
  function Det(a: Matrix4): real {
    a.m11 * a.m22 * a.m33 * a.m44 + a.m11 * a.m23 * a.m34 * a.m42 + a.m11 * a.m24 * a.m32 * a.m43
    + a.m12 * a.m21 * a.m34 * a.m43 + a.m12 * a.m23 * a.m31 * a.m44 + a.m12 * a.m24 * a.m33 * a.m41
    + a.m13 * a.m21 * a.m32 * a.m44 + a.m13 * a.m22 * a.m34 * a.m41 + a.m13 * a.m24 * a.m31 * a.m42
    + a.m14 * a.m21 * a.m33 * a.m42 + a.m14 * a.m22 * a.m31 * a.m43 + a.m14 * a.m23 * a.m32 * a.m41
    - a.m11 * a.m22 * a.m34 * a.m43 - a.m11 * a.m23 * a.m32 * a.m44 - a.m11 * a.m24 * a.m33 * a.m42
    - a.m12 * a.m21 * a.m33 * a.m44 - a.m12 * a.m23 * a.m34 * a.m41 - a.m12 * a.m24 * a.m31 * a.m43
    - a.m13 * a.m21 * a.m34 * a.m42 - a.m13 * a.m22 * a.m31 * a.m44 - a.m13 * a.m24 * a.m32 * a.m41
    - a.m14 * a.m21 * a.m32 * a.m43 - a.m14 * a.m22 * a.m33 * a.m41 - a.m14 * a.m23 * a.m31 * a.m42
  }

  /** The numerators of the library's inverse formula: the adjugate (transposed cofactor matrix). */
  function Adjugate(a: Matrix4): Matrix4 {
    Matrix4(
      a.m22 * a.m33 * a.m44 + a.m23 * a.m34 * a.m42 + a.m24 * a.m32 * a.m43
       - a.m22 * a.m34 * a.m43 - a.m23 * a.m32 * a.m44 - a.m24 * a.m33 * a.m42,
      a.m12 * a.m34 * a.m43 + a.m13 * a.m32 * a.m44 + a.m14 * a.m33 * a.m42
       - a.m12 * a.m33 * a.m44 - a.m13 * a.m34 * a.m42 - a.m14 * a.m32 * a.m43,
      a.m12 * a.m23 * a.m44 + a.m13 * a.m24 * a.m42 + a.m14 * a.m22 * a.m43
       - a.m12 * a.m24 * a.m43 - a.m13 * a.m22 * a.m44 - a.m14 * a.m23 * a.m42,
      a.m12 * a.m24 * a.m33 + a.m13 * a.m22 * a.m34 + a.m14 * a.m23 * a.m32
       - a.m12 * a.m23 * a.m34 - a.m13 * a.m24 * a.m32 - a.m14 * a.m22 * a.m33,
      a.m21 * a.m34 * a.m43 + a.m23 * a.m31 * a.m44 + a.m24 * a.m33 * a.m41
       - a.m21 * a.m33 * a.m44 - a.m23 * a.m34 * a.m41 - a.m24 * a.m31 * a.m43,
      a.m11 * a.m33 * a.m44 + a.m13 * a.m34 * a.m41 + a.m14 * a.m31 * a.m43
       - a.m11 * a.m34 * a.m43 - a.m13 * a.m31 * a.m44 - a.m14 * a.m33 * a.m41,
      a.m11 * a.m24 * a.m43 + a.m13 * a.m21 * a.m44 + a.m14 * a.m23 * a.m41
       - a.m11 * a.m23 * a.m44 - a.m13 * a.m24 * a.m41 - a.m14 * a.m21 * a.m43,
      a.m11 * a.m23 * a.m34 + a.m13 * a.m24 * a.m31 + a.m14 * a.m21 * a.m33
       - a.m11 * a.m24 * a.m33 - a.m13 * a.m21 * a.m34 - a.m14 * a.m23 * a.m31,
      a.m21 * a.m32 * a.m44 + a.m22 * a.m34 * a.m41 + a.m24 * a.m31 * a.m42
       - a.m21 * a.m34 * a.m42 - a.m22 * a.m31 * a.m44 - a.m24 * a.m32 * a.m41,
      a.m11 * a.m34 * a.m42 + a.m12 * a.m31 * a.m44 + a.m14 * a.m32 * a.m41
       - a.m11 * a.m32 * a.m44 - a.m12 * a.m34 * a.m41 - a.m14 * a.m31 * a.m42,
      a.m11 * a.m22 * a.m44 + a.m12 * a.m24 * a.m41 + a.m14 * a.m21 * a.m42
       - a.m11 * a.m24 * a.m42 - a.m12 * a.m21 * a.m44 - a.m14 * a.m22 * a.m41,
      a.m11 * a.m24 * a.m32 + a.m12 * a.m21 * a.m34 + a.m14 * a.m22 * a.m31
       - a.m11 * a.m22 * a.m34 - a.m12 * a.m24 * a.m31 - a.m14 * a.m21 * a.m32,
      a.m21 * a.m33 * a.m42 + a.m22 * a.m31 * a.m43 + a.m23 * a.m32 * a.m41
       - a.m21 * a.m32 * a.m43 - a.m22 * a.m33 * a.m41 - a.m23 * a.m31 * a.m42,
      a.m11 * a.m32 * a.m43 + a.m12 * a.m33 * a.m41 + a.m13 * a.m31 * a.m42
       - a.m11 * a.m33 * a.m42 - a.m12 * a.m31 * a.m43 - a.m13 * a.m32 * a.m41,
      a.m11 * a.m23 * a.m42 + a.m12 * a.m21 * a.m43 + a.m13 * a.m22 * a.m41
       - a.m11 * a.m22 * a.m43 - a.m12 * a.m23 * a.m41 - a.m13 * a.m21 * a.m42,
      a.m11 * a.m22 * a.m33 + a.m12 * a.m23 * a.m31 + a.m13 * a.m21 * a.m32
       - a.m11 * a.m23 * a.m32 - a.m12 * a.m21 * a.m33 - a.m13 * a.m22 * a.m31)
  }

  /** `b` is a two-sided multiplicative inverse of `a`. */
  predicate IsInverse(a: Matrix4, b: Matrix4) {
    Mul(a, b) == One() && Mul(b, a) == One()
  }

  /** Inverse of a matrix with non-zero determinant: every entry of the adjugate over the determinant. */
  function Inv(a: Matrix4): Matrix4
    requires Det(a) != 0.0
  {
    var det := Det(a);
    DivideEntries(Adjugate(a), det)
  }

  /** The library's inverse is a two-sided multiplicative inverse. */
  lemma InvIsInverse(a: Matrix4)
    requires Det(a) != 0.0
    ensures IsInverse(a, Inv(a))
  {
    var c, d := Adjugate(a), Det(a);
    DivideEntriesIsScaled(c, d);
    AdjugateIsAdjugate(a);
    InvCore(a, c, Inv(a), d);
  }

  /** Division is multiplication by the inverse of the divisor; the quotient times the divisor is the dividend. */
  function Div(a: Matrix4, b: Matrix4): (r: Matrix4)
    requires Det(b) != 0.0
    ensures Mul(r, b) == a
  {
    var inv := Inv(b);
    InvIsInverse(b);
    MulAssociative(a, inv, b);
    MulOneIdentity(a);
    Mul(a, inv)
  }

  /** Closeness: all sixteen entries are within `eps` of each other. */
  function CloseEps(a: Matrix4, b: Matrix4, eps: real): (r: bool)
    ensures r <==> (Scalar.Abs(a.m11 - b.m11) <= eps &&
                    Scalar.Abs(a.m12 - b.m12) <= eps &&
                    Scalar.Abs(a.m13 - b.m13) <= eps &&
                    Scalar.Abs(a.m14 - b.m14) <= eps &&
                    Scalar.Abs(a.m21 - b.m21) <= eps &&
                    Scalar.Abs(a.m22 - b.m22) <= eps &&
                    Scalar.Abs(a.m23 - b.m23) <= eps &&
                    Scalar.Abs(a.m24 - b.m24) <= eps &&
                    Scalar.Abs(a.m31 - b.m31) <= eps &&
                    Scalar.Abs(a.m32 - b.m32) <= eps &&
                    Scalar.Abs(a.m33 - b.m33) <= eps &&
                    Scalar.Abs(a.m34 - b.m34) <= eps &&
                    Scalar.Abs(a.m41 - b.m41) <= eps &&
                    Scalar.Abs(a.m42 - b.m42) <= eps &&
                    Scalar.Abs(a.m43 - b.m43) <= eps &&
                    Scalar.Abs(a.m44 - b.m44) <= eps)
  {
    Scalar.CloseEps(a.m11, b.m11, eps)
    && Scalar.CloseEps(a.m12, b.m12, eps)
    && Scalar.CloseEps(a.m13, b.m13, eps)
    && Scalar.CloseEps(a.m14, b.m14, eps)
    && Scalar.CloseEps(a.m21, b.m21, eps)
    && Scalar.CloseEps(a.m22, b.m22, eps)
    && Scalar.CloseEps(a.m23, b.m23, eps)
    && Scalar.CloseEps(a.m24, b.m24, eps)
    && Scalar.CloseEps(a.m31, b.m31, eps)
    && Scalar.CloseEps(a.m32, b.m32, eps)
    && Scalar.CloseEps(a.m33, b.m33, eps)
    && Scalar.CloseEps(a.m34, b.m34, eps)
    && Scalar.CloseEps(a.m41, b.m41, eps)
    && Scalar.CloseEps(a.m42, b.m42, eps)
    && Scalar.CloseEps(a.m43, b.m43, eps)
    && Scalar.CloseEps(a.m44, b.m44, eps)
  }

  /**
   * `p` is the product of `a` and `b`: entry `ij` is row `i` of `a` times column `j` of `b`.
   * This repeats `Mul` as sixteen equations the solver can use one at a time, so that
   * proofs about products need not unfold `Mul` itself; MulIsRowTimesColumn states the
   * product over symbolic indices instead.
   */
  predicate IsProduct(a: Matrix4, b: Matrix4, p: Matrix4) {
    a.m11 * b.m11 + a.m12 * b.m21 + a.m13 * b.m31 + a.m14 * b.m41 == p.m11 &&
    a.m11 * b.m12 + a.m12 * b.m22 + a.m13 * b.m32 + a.m14 * b.m42 == p.m12 &&
    a.m11 * b.m13 + a.m12 * b.m23 + a.m13 * b.m33 + a.m14 * b.m43 == p.m13 &&
    a.m11 * b.m14 + a.m12 * b.m24 + a.m13 * b.m34 + a.m14 * b.m44 == p.m14 &&
    a.m21 * b.m11 + a.m22 * b.m21 + a.m23 * b.m31 + a.m24 * b.m41 == p.m21 &&
    a.m21 * b.m12 + a.m22 * b.m22 + a.m23 * b.m32 + a.m24 * b.m42 == p.m22 &&
    a.m21 * b.m13 + a.m22 * b.m23 + a.m23 * b.m33 + a.m24 * b.m43 == p.m23 &&
    a.m21 * b.m14 + a.m22 * b.m24 + a.m23 * b.m34 + a.m24 * b.m44 == p.m24 &&
    a.m31 * b.m11 + a.m32 * b.m21 + a.m33 * b.m31 + a.m34 * b.m41 == p.m31 &&
    a.m31 * b.m12 + a.m32 * b.m22 + a.m33 * b.m32 + a.m34 * b.m42 == p.m32 &&
    a.m31 * b.m13 + a.m32 * b.m23 + a.m33 * b.m33 + a.m34 * b.m43 == p.m33 &&
    a.m31 * b.m14 + a.m32 * b.m24 + a.m33 * b.m34 + a.m34 * b.m44 == p.m34 &&
    a.m41 * b.m11 + a.m42 * b.m21 + a.m43 * b.m31 + a.m44 * b.m41 == p.m41 &&
    a.m41 * b.m12 + a.m42 * b.m22 + a.m43 * b.m32 + a.m44 * b.m42 == p.m42 &&
    a.m41 * b.m13 + a.m42 * b.m23 + a.m43 * b.m33 + a.m44 * b.m43 == p.m43 &&
    a.m41 * b.m14 + a.m42 * b.m24 + a.m43 * b.m34 + a.m44 * b.m44 == p.m44
  }

  /** `Mul` computes the row-by-column product, and nothing else does. */
  lemma MulIsProduct(a: Matrix4, b: Matrix4, p: Matrix4)
    ensures IsProduct(a, b, p) <==> Mul(a, b) == p
  {
  }

  lemma MulOneIdentity(a: Matrix4)
    ensures Mul(a, One()) == a && Mul(One(), a) == a
  {
  }

  /*
   * Associativity, entry by entry. TripleLeftIJ and TripleRightIJ expand
   * entry `ij` of `(a b) c` and of `a (b c)` into the same 16-term triple sum;
   * they are solver plumbing, one small obligation per entry, for
   * TripleLeft, TripleRight and MulAssociative below.
   */

  lemma TripleLeft11(a: Matrix4, b: Matrix4, c: Matrix4, p: Matrix4)
    requires IsProduct(a, b, p)
    ensures p.m11 * c.m11 + p.m12 * c.m21 + p.m13 * c.m31 + p.m14 * c.m41
         == a.m11 * b.m11 * c.m11 + a.m12 * b.m21 * c.m11 + a.m13 * b.m31 * c.m11 + a.m14 * b.m41 * c.m11
            + a.m11 * b.m12 * c.m21 + a.m12 * b.m22 * c.m21 + a.m13 * b.m32 * c.m21 + a.m14 * b.m42 * c.m21
            + a.m11 * b.m13 * c.m31 + a.m12 * b.m23 * c.m31 + a.m13 * b.m33 * c.m31 + a.m14 * b.m43 * c.m31
            + a.m11 * b.m14 * c.m41 + a.m12 * b.m24 * c.m41 + a.m13 * b.m34 * c.m41 + a.m14 * b.m44 * c.m41
  {
    assert (a.m11 * b.m11 + a.m12 * b.m21
        + a.m13 * b.m31 + a.m14 * b.m41) * c.m11
        + (a.m11 * b.m12 + a.m12 * b.m22
        + a.m13 * b.m32 + a.m14 * b.m42) * c.m21
        + (a.m11 * b.m13 + a.m12 * b.m23
        + a.m13 * b.m33 + a.m14 * b.m43) * c.m31
        + (a.m11 * b.m14 + a.m12 * b.m24
        + a.m13 * b.m34 + a.m14 * b.m44) * c.m41
        == a.m11 * b.m11 * c.m11 + a.m12 * b.m21 * c.m11 + a.m13 * b.m31 * c.m11 + a.m14 * b.m41 * c.m11
           + a.m11 * b.m12 * c.m21 + a.m12 * b.m22 * c.m21 + a.m13 * b.m32 * c.m21 + a.m14 * b.m42 * c.m21
           + a.m11 * b.m13 * c.m31 + a.m12 * b.m23 * c.m31 + a.m13 * b.m33 * c.m31 + a.m14 * b.m43 * c.m31
           + a.m11 * b.m14 * c.m41 + a.m12 * b.m24 * c.m41 + a.m13 * b.m34 * c.m41 + a.m14 * b.m44 * c.m41;
  }

  lemma TripleRight11(a: Matrix4, b: Matrix4, c: Matrix4, q: Matrix4)
    requires IsProduct(b, c, q)
    ensures a.m11 * q.m11 + a.m12 * q.m21 + a.m13 * q.m31 + a.m14 * q.m41
         == a.m11 * b.m11 * c.m11 + a.m12 * b.m21 * c.m11 + a.m13 * b.m31 * c.m11 + a.m14 * b.m41 * c.m11
            + a.m11 * b.m12 * c.m21 + a.m12 * b.m22 * c.m21 + a.m13 * b.m32 * c.m21 + a.m14 * b.m42 * c.m21
            + a.m11 * b.m13 * c.m31 + a.m12 * b.m23 * c.m31 + a.m13 * b.m33 * c.m31 + a.m14 * b.m43 * c.m31
            + a.m11 * b.m14 * c.m41 + a.m12 * b.m24 * c.m41 + a.m13 * b.m34 * c.m41 + a.m14 * b.m44 * c.m41
  {
    assert a.m11 * (b.m11 * c.m11 + b.m12 * c.m21
        + b.m13 * c.m31 + b.m14 * c.m41)
        + a.m12 * (b.m21 * c.m11 + b.m22 * c.m21
        + b.m23 * c.m31 + b.m24 * c.m41)
        + a.m13 * (b.m31 * c.m11 + b.m32 * c.m21
        + b.m33 * c.m31 + b.m34 * c.m41)
        + a.m14 * (b.m41 * c.m11 + b.m42 * c.m21
        + b.m43 * c.m31 + b.m44 * c.m41)
        == a.m11 * b.m11 * c.m11 + a.m12 * b.m21 * c.m11 + a.m13 * b.m31 * c.m11 + a.m14 * b.m41 * c.m11
           + a.m11 * b.m12 * c.m21 + a.m12 * b.m22 * c.m21 + a.m13 * b.m32 * c.m21 + a.m14 * b.m42 * c.m21
           + a.m11 * b.m13 * c.m31 + a.m12 * b.m23 * c.m31 + a.m13 * b.m33 * c.m31 + a.m14 * b.m43 * c.m31
           + a.m11 * b.m14 * c.m41 + a.m12 * b.m24 * c.m41 + a.m13 * b.m34 * c.m41 + a.m14 * b.m44 * c.m41;
  }

  lemma TripleLeft12(a: Matrix4, b: Matrix4, c: Matrix4, p: Matrix4)
    requires IsProduct(a, b, p)
    ensures p.m11 * c.m12 + p.m12 * c.m22 + p.m13 * c.m32 + p.m14 * c.m42
         == a.m11 * b.m11 * c.m12 + a.m12 * b.m21 * c.m12 + a.m13 * b.m31 * c.m12 + a.m14 * b.m41 * c.m12
            + a.m11 * b.m12 * c.m22 + a.m12 * b.m22 * c.m22 + a.m13 * b.m32 * c.m22 + a.m14 * b.m42 * c.m22
            + a.m11 * b.m13 * c.m32 + a.m12 * b.m23 * c.m32 + a.m13 * b.m33 * c.m32 + a.m14 * b.m43 * c.m32
            + a.m11 * b.m14 * c.m42 + a.m12 * b.m24 * c.m42 + a.m13 * b.m34 * c.m42 + a.m14 * b.m44 * c.m42
  {
    assert (a.m11 * b.m11 + a.m12 * b.m21
        + a.m13 * b.m31 + a.m14 * b.m41) * c.m12
        + (a.m11 * b.m12 + a.m12 * b.m22
        + a.m13 * b.m32 + a.m14 * b.m42) * c.m22
        + (a.m11 * b.m13 + a.m12 * b.m23
        + a.m13 * b.m33 + a.m14 * b.m43) * c.m32
        + (a.m11 * b.m14 + a.m12 * b.m24
        + a.m13 * b.m34 + a.m14 * b.m44) * c.m42
        == a.m11 * b.m11 * c.m12 + a.m12 * b.m21 * c.m12 + a.m13 * b.m31 * c.m12 + a.m14 * b.m41 * c.m12
           + a.m11 * b.m12 * c.m22 + a.m12 * b.m22 * c.m22 + a.m13 * b.m32 * c.m22 + a.m14 * b.m42 * c.m22
           + a.m11 * b.m13 * c.m32 + a.m12 * b.m23 * c.m32 + a.m13 * b.m33 * c.m32 + a.m14 * b.m43 * c.m32
           + a.m11 * b.m14 * c.m42 + a.m12 * b.m24 * c.m42 + a.m13 * b.m34 * c.m42 + a.m14 * b.m44 * c.m42;
  }

  lemma TripleRight12(a: Matrix4, b: Matrix4, c: Matrix4, q: Matrix4)
    requires IsProduct(b, c, q)
    ensures a.m11 * q.m12 + a.m12 * q.m22 + a.m13 * q.m32 + a.m14 * q.m42
         == a.m11 * b.m11 * c.m12 + a.m12 * b.m21 * c.m12 + a.m13 * b.m31 * c.m12 + a.m14 * b.m41 * c.m12
            + a.m11 * b.m12 * c.m22 + a.m12 * b.m22 * c.m22 + a.m13 * b.m32 * c.m22 + a.m14 * b.m42 * c.m22
            + a.m11 * b.m13 * c.m32 + a.m12 * b.m23 * c.m32 + a.m13 * b.m33 * c.m32 + a.m14 * b.m43 * c.m32
            + a.m11 * b.m14 * c.m42 + a.m12 * b.m24 * c.m42 + a.m13 * b.m34 * c.m42 + a.m14 * b.m44 * c.m42
  {
    assert a.m11 * (b.m11 * c.m12 + b.m12 * c.m22
        + b.m13 * c.m32 + b.m14 * c.m42)
        + a.m12 * (b.m21 * c.m12 + b.m22 * c.m22
        + b.m23 * c.m32 + b.m24 * c.m42)
        + a.m13 * (b.m31 * c.m12 + b.m32 * c.m22
        + b.m33 * c.m32 + b.m34 * c.m42)
        + a.m14 * (b.m41 * c.m12 + b.m42 * c.m22
        + b.m43 * c.m32 + b.m44 * c.m42)
        == a.m11 * b.m11 * c.m12 + a.m12 * b.m21 * c.m12 + a.m13 * b.m31 * c.m12 + a.m14 * b.m41 * c.m12
           + a.m11 * b.m12 * c.m22 + a.m12 * b.m22 * c.m22 + a.m13 * b.m32 * c.m22 + a.m14 * b.m42 * c.m22
           + a.m11 * b.m13 * c.m32 + a.m12 * b.m23 * c.m32 + a.m13 * b.m33 * c.m32 + a.m14 * b.m43 * c.m32
           + a.m11 * b.m14 * c.m42 + a.m12 * b.m24 * c.m42 + a.m13 * b.m34 * c.m42 + a.m14 * b.m44 * c.m42;
  }

  lemma TripleLeft13(a: Matrix4, b: Matrix4, c: Matrix4, p: Matrix4)
    requires IsProduct(a, b, p)
    ensures p.m11 * c.m13 + p.m12 * c.m23 + p.m13 * c.m33 + p.m14 * c.m43
         == a.m11 * b.m11 * c.m13 + a.m12 * b.m21 * c.m13 + a.m13 * b.m31 * c.m13 + a.m14 * b.m41 * c.m13
            + a.m11 * b.m12 * c.m23 + a.m12 * b.m22 * c.m23 + a.m13 * b.m32 * c.m23 + a.m14 * b.m42 * c.m23
            + a.m11 * b.m13 * c.m33 + a.m12 * b.m23 * c.m33 + a.m13 * b.m33 * c.m33 + a.m14 * b.m43 * c.m33
            + a.m11 * b.m14 * c.m43 + a.m12 * b.m24 * c.m43 + a.m13 * b.m34 * c.m43 + a.m14 * b.m44 * c.m43
  {
    assert (a.m11 * b.m11 + a.m12 * b.m21
        + a.m13 * b.m31 + a.m14 * b.m41) * c.m13
        + (a.m11 * b.m12 + a.m12 * b.m22
        + a.m13 * b.m32 + a.m14 * b.m42) * c.m23
        + (a.m11 * b.m13 + a.m12 * b.m23
        + a.m13 * b.m33 + a.m14 * b.m43) * c.m33
        + (a.m11 * b.m14 + a.m12 * b.m24
        + a.m13 * b.m34 + a.m14 * b.m44) * c.m43
        == a.m11 * b.m11 * c.m13 + a.m12 * b.m21 * c.m13 + a.m13 * b.m31 * c.m13 + a.m14 * b.m41 * c.m13
           + a.m11 * b.m12 * c.m23 + a.m12 * b.m22 * c.m23 + a.m13 * b.m32 * c.m23 + a.m14 * b.m42 * c.m23
           + a.m11 * b.m13 * c.m33 + a.m12 * b.m23 * c.m33 + a.m13 * b.m33 * c.m33 + a.m14 * b.m43 * c.m33
           + a.m11 * b.m14 * c.m43 + a.m12 * b.m24 * c.m43 + a.m13 * b.m34 * c.m43 + a.m14 * b.m44 * c.m43;
  }

  lemma TripleRight13(a: Matrix4, b: Matrix4, c: Matrix4, q: Matrix4)
    requires IsProduct(b, c, q)
    ensures a.m11 * q.m13 + a.m12 * q.m23 + a.m13 * q.m33 + a.m14 * q.m43
         == a.m11 * b.m11 * c.m13 + a.m12 * b.m21 * c.m13 + a.m13 * b.m31 * c.m13 + a.m14 * b.m41 * c.m13
            + a.m11 * b.m12 * c.m23 + a.m12 * b.m22 * c.m23 + a.m13 * b.m32 * c.m23 + a.m14 * b.m42 * c.m23
            + a.m11 * b.m13 * c.m33 + a.m12 * b.m23 * c.m33 + a.m13 * b.m33 * c.m33 + a.m14 * b.m43 * c.m33
            + a.m11 * b.m14 * c.m43 + a.m12 * b.m24 * c.m43 + a.m13 * b.m34 * c.m43 + a.m14 * b.m44 * c.m43
  {
    assert a.m11 * (b.m11 * c.m13 + b.m12 * c.m23
        + b.m13 * c.m33 + b.m14 * c.m43)
        + a.m12 * (b.m21 * c.m13 + b.m22 * c.m23
        + b.m23 * c.m33 + b.m24 * c.m43)
        + a.m13 * (b.m31 * c.m13 + b.m32 * c.m23
        + b.m33 * c.m33 + b.m34 * c.m43)
        + a.m14 * (b.m41 * c.m13 + b.m42 * c.m23
        + b.m43 * c.m33 + b.m44 * c.m43)
        == a.m11 * b.m11 * c.m13 + a.m12 * b.m21 * c.m13 + a.m13 * b.m31 * c.m13 + a.m14 * b.m41 * c.m13
           + a.m11 * b.m12 * c.m23 + a.m12 * b.m22 * c.m23 + a.m13 * b.m32 * c.m23 + a.m14 * b.m42 * c.m23
           + a.m11 * b.m13 * c.m33 + a.m12 * b.m23 * c.m33 + a.m13 * b.m33 * c.m33 + a.m14 * b.m43 * c.m33
           + a.m11 * b.m14 * c.m43 + a.m12 * b.m24 * c.m43 + a.m13 * b.m34 * c.m43 + a.m14 * b.m44 * c.m43;
  }

  lemma TripleLeft14(a: Matrix4, b: Matrix4, c: Matrix4, p: Matrix4)
    requires IsProduct(a, b, p)
    ensures p.m11 * c.m14 + p.m12 * c.m24 + p.m13 * c.m34 + p.m14 * c.m44
         == a.m11 * b.m11 * c.m14 + a.m12 * b.m21 * c.m14 + a.m13 * b.m31 * c.m14 + a.m14 * b.m41 * c.m14
            + a.m11 * b.m12 * c.m24 + a.m12 * b.m22 * c.m24 + a.m13 * b.m32 * c.m24 + a.m14 * b.m42 * c.m24
            + a.m11 * b.m13 * c.m34 + a.m12 * b.m23 * c.m34 + a.m13 * b.m33 * c.m34 + a.m14 * b.m43 * c.m34
            + a.m11 * b.m14 * c.m44 + a.m12 * b.m24 * c.m44 + a.m13 * b.m34 * c.m44 + a.m14 * b.m44 * c.m44
  {
    assert (a.m11 * b.m11 + a.m12 * b.m21
        + a.m13 * b.m31 + a.m14 * b.m41) * c.m14
        + (a.m11 * b.m12 + a.m12 * b.m22
        + a.m13 * b.m32 + a.m14 * b.m42) * c.m24
        + (a.m11 * b.m13 + a.m12 * b.m23
        + a.m13 * b.m33 + a.m14 * b.m43) * c.m34
        + (a.m11 * b.m14 + a.m12 * b.m24
        + a.m13 * b.m34 + a.m14 * b.m44) * c.m44
        == a.m11 * b.m11 * c.m14 + a.m12 * b.m21 * c.m14 + a.m13 * b.m31 * c.m14 + a.m14 * b.m41 * c.m14
           + a.m11 * b.m12 * c.m24 + a.m12 * b.m22 * c.m24 + a.m13 * b.m32 * c.m24 + a.m14 * b.m42 * c.m24
           + a.m11 * b.m13 * c.m34 + a.m12 * b.m23 * c.m34 + a.m13 * b.m33 * c.m34 + a.m14 * b.m43 * c.m34
           + a.m11 * b.m14 * c.m44 + a.m12 * b.m24 * c.m44 + a.m13 * b.m34 * c.m44 + a.m14 * b.m44 * c.m44;
  }

  lemma TripleRight14(a: Matrix4, b: Matrix4, c: Matrix4, q: Matrix4)
    requires IsProduct(b, c, q)
    ensures a.m11 * q.m14 + a.m12 * q.m24 + a.m13 * q.m34 + a.m14 * q.m44
         == a.m11 * b.m11 * c.m14 + a.m12 * b.m21 * c.m14 + a.m13 * b.m31 * c.m14 + a.m14 * b.m41 * c.m14
            + a.m11 * b.m12 * c.m24 + a.m12 * b.m22 * c.m24 + a.m13 * b.m32 * c.m24 + a.m14 * b.m42 * c.m24
            + a.m11 * b.m13 * c.m34 + a.m12 * b.m23 * c.m34 + a.m13 * b.m33 * c.m34 + a.m14 * b.m43 * c.m34
            + a.m11 * b.m14 * c.m44 + a.m12 * b.m24 * c.m44 + a.m13 * b.m34 * c.m44 + a.m14 * b.m44 * c.m44
  {
    assert a.m11 * (b.m11 * c.m14 + b.m12 * c.m24
        + b.m13 * c.m34 + b.m14 * c.m44)
        + a.m12 * (b.m21 * c.m14 + b.m22 * c.m24
        + b.m23 * c.m34 + b.m24 * c.m44)
        + a.m13 * (b.m31 * c.m14 + b.m32 * c.m24
        + b.m33 * c.m34 + b.m34 * c.m44)
        + a.m14 * (b.m41 * c.m14 + b.m42 * c.m24
        + b.m43 * c.m34 + b.m44 * c.m44)
        == a.m11 * b.m11 * c.m14 + a.m12 * b.m21 * c.m14 + a.m13 * b.m31 * c.m14 + a.m14 * b.m41 * c.m14
           + a.m11 * b.m12 * c.m24 + a.m12 * b.m22 * c.m24 + a.m13 * b.m32 * c.m24 + a.m14 * b.m42 * c.m24
           + a.m11 * b.m13 * c.m34 + a.m12 * b.m23 * c.m34 + a.m13 * b.m33 * c.m34 + a.m14 * b.m43 * c.m34
           + a.m11 * b.m14 * c.m44 + a.m12 * b.m24 * c.m44 + a.m13 * b.m34 * c.m44 + a.m14 * b.m44 * c.m44;
  }

  lemma TripleLeft21(a: Matrix4, b: Matrix4, c: Matrix4, p: Matrix4)
    requires IsProduct(a, b, p)
    ensures p.m21 * c.m11 + p.m22 * c.m21 + p.m23 * c.m31 + p.m24 * c.m41
         == a.m21 * b.m11 * c.m11 + a.m22 * b.m21 * c.m11 + a.m23 * b.m31 * c.m11 + a.m24 * b.m41 * c.m11
            + a.m21 * b.m12 * c.m21 + a.m22 * b.m22 * c.m21 + a.m23 * b.m32 * c.m21 + a.m24 * b.m42 * c.m21
            + a.m21 * b.m13 * c.m31 + a.m22 * b.m23 * c.m31 + a.m23 * b.m33 * c.m31 + a.m24 * b.m43 * c.m31
            + a.m21 * b.m14 * c.m41 + a.m22 * b.m24 * c.m41 + a.m23 * b.m34 * c.m41 + a.m24 * b.m44 * c.m41
  {
    assert (a.m21 * b.m11 + a.m22 * b.m21
        + a.m23 * b.m31 + a.m24 * b.m41) * c.m11
        + (a.m21 * b.m12 + a.m22 * b.m22
        + a.m23 * b.m32 + a.m24 * b.m42) * c.m21
        + (a.m21 * b.m13 + a.m22 * b.m23
        + a.m23 * b.m33 + a.m24 * b.m43) * c.m31
        + (a.m21 * b.m14 + a.m22 * b.m24
        + a.m23 * b.m34 + a.m24 * b.m44) * c.m41
        == a.m21 * b.m11 * c.m11 + a.m22 * b.m21 * c.m11 + a.m23 * b.m31 * c.m11 + a.m24 * b.m41 * c.m11
           + a.m21 * b.m12 * c.m21 + a.m22 * b.m22 * c.m21 + a.m23 * b.m32 * c.m21 + a.m24 * b.m42 * c.m21
           + a.m21 * b.m13 * c.m31 + a.m22 * b.m23 * c.m31 + a.m23 * b.m33 * c.m31 + a.m24 * b.m43 * c.m31
           + a.m21 * b.m14 * c.m41 + a.m22 * b.m24 * c.m41 + a.m23 * b.m34 * c.m41 + a.m24 * b.m44 * c.m41;
  }

  lemma TripleRight21(a: Matrix4, b: Matrix4, c: Matrix4, q: Matrix4)
    requires IsProduct(b, c, q)
    ensures a.m21 * q.m11 + a.m22 * q.m21 + a.m23 * q.m31 + a.m24 * q.m41
         == a.m21 * b.m11 * c.m11 + a.m22 * b.m21 * c.m11 + a.m23 * b.m31 * c.m11 + a.m24 * b.m41 * c.m11
            + a.m21 * b.m12 * c.m21 + a.m22 * b.m22 * c.m21 + a.m23 * b.m32 * c.m21 + a.m24 * b.m42 * c.m21
            + a.m21 * b.m13 * c.m31 + a.m22 * b.m23 * c.m31 + a.m23 * b.m33 * c.m31 + a.m24 * b.m43 * c.m31
            + a.m21 * b.m14 * c.m41 + a.m22 * b.m24 * c.m41 + a.m23 * b.m34 * c.m41 + a.m24 * b.m44 * c.m41
  {
    assert a.m21 * (b.m11 * c.m11 + b.m12 * c.m21
        + b.m13 * c.m31 + b.m14 * c.m41)
        + a.m22 * (b.m21 * c.m11 + b.m22 * c.m21
        + b.m23 * c.m31 + b.m24 * c.m41)
        + a.m23 * (b.m31 * c.m11 + b.m32 * c.m21
        + b.m33 * c.m31 + b.m34 * c.m41)
        + a.m24 * (b.m41 * c.m11 + b.m42 * c.m21
        + b.m43 * c.m31 + b.m44 * c.m41)
        == a.m21 * b.m11 * c.m11 + a.m22 * b.m21 * c.m11 + a.m23 * b.m31 * c.m11 + a.m24 * b.m41 * c.m11
           + a.m21 * b.m12 * c.m21 + a.m22 * b.m22 * c.m21 + a.m23 * b.m32 * c.m21 + a.m24 * b.m42 * c.m21
           + a.m21 * b.m13 * c.m31 + a.m22 * b.m23 * c.m31 + a.m23 * b.m33 * c.m31 + a.m24 * b.m43 * c.m31
           + a.m21 * b.m14 * c.m41 + a.m22 * b.m24 * c.m41 + a.m23 * b.m34 * c.m41 + a.m24 * b.m44 * c.m41;
  }

  lemma TripleLeft22(a: Matrix4, b: Matrix4, c: Matrix4, p: Matrix4)
    requires IsProduct(a, b, p)
    ensures p.m21 * c.m12 + p.m22 * c.m22 + p.m23 * c.m32 + p.m24 * c.m42
         == a.m21 * b.m11 * c.m12 + a.m22 * b.m21 * c.m12 + a.m23 * b.m31 * c.m12 + a.m24 * b.m41 * c.m12
            + a.m21 * b.m12 * c.m22 + a.m22 * b.m22 * c.m22 + a.m23 * b.m32 * c.m22 + a.m24 * b.m42 * c.m22
            + a.m21 * b.m13 * c.m32 + a.m22 * b.m23 * c.m32 + a.m23 * b.m33 * c.m32 + a.m24 * b.m43 * c.m32
            + a.m21 * b.m14 * c.m42 + a.m22 * b.m24 * c.m42 + a.m23 * b.m34 * c.m42 + a.m24 * b.m44 * c.m42
  {
    assert (a.m21 * b.m11 + a.m22 * b.m21
        + a.m23 * b.m31 + a.m24 * b.m41) * c.m12
        + (a.m21 * b.m12 + a.m22 * b.m22
        + a.m23 * b.m32 + a.m24 * b.m42) * c.m22
        + (a.m21 * b.m13 + a.m22 * b.m23
        + a.m23 * b.m33 + a.m24 * b.m43) * c.m32
        + (a.m21 * b.m14 + a.m22 * b.m24
        + a.m23 * b.m34 + a.m24 * b.m44) * c.m42
        == a.m21 * b.m11 * c.m12 + a.m22 * b.m21 * c.m12 + a.m23 * b.m31 * c.m12 + a.m24 * b.m41 * c.m12
           + a.m21 * b.m12 * c.m22 + a.m22 * b.m22 * c.m22 + a.m23 * b.m32 * c.m22 + a.m24 * b.m42 * c.m22
           + a.m21 * b.m13 * c.m32 + a.m22 * b.m23 * c.m32 + a.m23 * b.m33 * c.m32 + a.m24 * b.m43 * c.m32
           + a.m21 * b.m14 * c.m42 + a.m22 * b.m24 * c.m42 + a.m23 * b.m34 * c.m42 + a.m24 * b.m44 * c.m42;
  }

  lemma TripleRight22(a: Matrix4, b: Matrix4, c: Matrix4, q: Matrix4)
    requires IsProduct(b, c, q)
    ensures a.m21 * q.m12 + a.m22 * q.m22 + a.m23 * q.m32 + a.m24 * q.m42
         == a.m21 * b.m11 * c.m12 + a.m22 * b.m21 * c.m12 + a.m23 * b.m31 * c.m12 + a.m24 * b.m41 * c.m12
            + a.m21 * b.m12 * c.m22 + a.m22 * b.m22 * c.m22 + a.m23 * b.m32 * c.m22 + a.m24 * b.m42 * c.m22
            + a.m21 * b.m13 * c.m32 + a.m22 * b.m23 * c.m32 + a.m23 * b.m33 * c.m32 + a.m24 * b.m43 * c.m32
            + a.m21 * b.m14 * c.m42 + a.m22 * b.m24 * c.m42 + a.m23 * b.m34 * c.m42 + a.m24 * b.m44 * c.m42
  {
    assert a.m21 * (b.m11 * c.m12 + b.m12 * c.m22
        + b.m13 * c.m32 + b.m14 * c.m42)
        + a.m22 * (b.m21 * c.m12 + b.m22 * c.m22
        + b.m23 * c.m32 + b.m24 * c.m42)
        + a.m23 * (b.m31 * c.m12 + b.m32 * c.m22
        + b.m33 * c.m32 + b.m34 * c.m42)
        + a.m24 * (b.m41 * c.m12 + b.m42 * c.m22
        + b.m43 * c.m32 + b.m44 * c.m42)
        == a.m21 * b.m11 * c.m12 + a.m22 * b.m21 * c.m12 + a.m23 * b.m31 * c.m12 + a.m24 * b.m41 * c.m12
           + a.m21 * b.m12 * c.m22 + a.m22 * b.m22 * c.m22 + a.m23 * b.m32 * c.m22 + a.m24 * b.m42 * c.m22
           + a.m21 * b.m13 * c.m32 + a.m22 * b.m23 * c.m32 + a.m23 * b.m33 * c.m32 + a.m24 * b.m43 * c.m32
           + a.m21 * b.m14 * c.m42 + a.m22 * b.m24 * c.m42 + a.m23 * b.m34 * c.m42 + a.m24 * b.m44 * c.m42;
  }

  lemma TripleLeft23(a: Matrix4, b: Matrix4, c: Matrix4, p: Matrix4)
    requires IsProduct(a, b, p)
    ensures p.m21 * c.m13 + p.m22 * c.m23 + p.m23 * c.m33 + p.m24 * c.m43
         == a.m21 * b.m11 * c.m13 + a.m22 * b.m21 * c.m13 + a.m23 * b.m31 * c.m13 + a.m24 * b.m41 * c.m13
            + a.m21 * b.m12 * c.m23 + a.m22 * b.m22 * c.m23 + a.m23 * b.m32 * c.m23 + a.m24 * b.m42 * c.m23
            + a.m21 * b.m13 * c.m33 + a.m22 * b.m23 * c.m33 + a.m23 * b.m33 * c.m33 + a.m24 * b.m43 * c.m33
            + a.m21 * b.m14 * c.m43 + a.m22 * b.m24 * c.m43 + a.m23 * b.m34 * c.m43 + a.m24 * b.m44 * c.m43
  {
    assert (a.m21 * b.m11 + a.m22 * b.m21
        + a.m23 * b.m31 + a.m24 * b.m41) * c.m13
        + (a.m21 * b.m12 + a.m22 * b.m22
        + a.m23 * b.m32 + a.m24 * b.m42) * c.m23
        + (a.m21 * b.m13 + a.m22 * b.m23
        + a.m23 * b.m33 + a.m24 * b.m43) * c.m33
        + (a.m21 * b.m14 + a.m22 * b.m24
        + a.m23 * b.m34 + a.m24 * b.m44) * c.m43
        == a.m21 * b.m11 * c.m13 + a.m22 * b.m21 * c.m13 + a.m23 * b.m31 * c.m13 + a.m24 * b.m41 * c.m13
           + a.m21 * b.m12 * c.m23 + a.m22 * b.m22 * c.m23 + a.m23 * b.m32 * c.m23 + a.m24 * b.m42 * c.m23
           + a.m21 * b.m13 * c.m33 + a.m22 * b.m23 * c.m33 + a.m23 * b.m33 * c.m33 + a.m24 * b.m43 * c.m33
           + a.m21 * b.m14 * c.m43 + a.m22 * b.m24 * c.m43 + a.m23 * b.m34 * c.m43 + a.m24 * b.m44 * c.m43;
  }

  lemma TripleRight23(a: Matrix4, b: Matrix4, c: Matrix4, q: Matrix4)
    requires IsProduct(b, c, q)
    ensures a.m21 * q.m13 + a.m22 * q.m23 + a.m23 * q.m33 + a.m24 * q.m43
         == a.m21 * b.m11 * c.m13 + a.m22 * b.m21 * c.m13 + a.m23 * b.m31 * c.m13 + a.m24 * b.m41 * c.m13
            + a.m21 * b.m12 * c.m23 + a.m22 * b.m22 * c.m23 + a.m23 * b.m32 * c.m23 + a.m24 * b.m42 * c.m23
            + a.m21 * b.m13 * c.m33 + a.m22 * b.m23 * c.m33 + a.m23 * b.m33 * c.m33 + a.m24 * b.m43 * c.m33
            + a.m21 * b.m14 * c.m43 + a.m22 * b.m24 * c.m43 + a.m23 * b.m34 * c.m43 + a.m24 * b.m44 * c.m43
  {
    assert a.m21 * (b.m11 * c.m13 + b.m12 * c.m23
        + b.m13 * c.m33 + b.m14 * c.m43)
        + a.m22 * (b.m21 * c.m13 + b.m22 * c.m23
        + b.m23 * c.m33 + b.m24 * c.m43)
        + a.m23 * (b.m31 * c.m13 + b.m32 * c.m23
        + b.m33 * c.m33 + b.m34 * c.m43)
        + a.m24 * (b.m41 * c.m13 + b.m42 * c.m23
        + b.m43 * c.m33 + b.m44 * c.m43)
        == a.m21 * b.m11 * c.m13 + a.m22 * b.m21 * c.m13 + a.m23 * b.m31 * c.m13 + a.m24 * b.m41 * c.m13
           + a.m21 * b.m12 * c.m23 + a.m22 * b.m22 * c.m23 + a.m23 * b.m32 * c.m23 + a.m24 * b.m42 * c.m23
           + a.m21 * b.m13 * c.m33 + a.m22 * b.m23 * c.m33 + a.m23 * b.m33 * c.m33 + a.m24 * b.m43 * c.m33
           + a.m21 * b.m14 * c.m43 + a.m22 * b.m24 * c.m43 + a.m23 * b.m34 * c.m43 + a.m24 * b.m44 * c.m43;
  }

  lemma TripleLeft24(a: Matrix4, b: Matrix4, c: Matrix4, p: Matrix4)
    requires IsProduct(a, b, p)
    ensures p.m21 * c.m14 + p.m22 * c.m24 + p.m23 * c.m34 + p.m24 * c.m44
         == a.m21 * b.m11 * c.m14 + a.m22 * b.m21 * c.m14 + a.m23 * b.m31 * c.m14 + a.m24 * b.m41 * c.m14
            + a.m21 * b.m12 * c.m24 + a.m22 * b.m22 * c.m24 + a.m23 * b.m32 * c.m24 + a.m24 * b.m42 * c.m24
            + a.m21 * b.m13 * c.m34 + a.m22 * b.m23 * c.m34 + a.m23 * b.m33 * c.m34 + a.m24 * b.m43 * c.m34
            + a.m21 * b.m14 * c.m44 + a.m22 * b.m24 * c.m44 + a.m23 * b.m34 * c.m44 + a.m24 * b.m44 * c.m44
  {
    assert (a.m21 * b.m11 + a.m22 * b.m21
        + a.m23 * b.m31 + a.m24 * b.m41) * c.m14
        + (a.m21 * b.m12 + a.m22 * b.m22
        + a.m23 * b.m32 + a.m24 * b.m42) * c.m24
        + (a.m21 * b.m13 + a.m22 * b.m23
        + a.m23 * b.m33 + a.m24 * b.m43) * c.m34
        + (a.m21 * b.m14 + a.m22 * b.m24
        + a.m23 * b.m34 + a.m24 * b.m44) * c.m44
        == a.m21 * b.m11 * c.m14 + a.m22 * b.m21 * c.m14 + a.m23 * b.m31 * c.m14 + a.m24 * b.m41 * c.m14
           + a.m21 * b.m12 * c.m24 + a.m22 * b.m22 * c.m24 + a.m23 * b.m32 * c.m24 + a.m24 * b.m42 * c.m24
           + a.m21 * b.m13 * c.m34 + a.m22 * b.m23 * c.m34 + a.m23 * b.m33 * c.m34 + a.m24 * b.m43 * c.m34
           + a.m21 * b.m14 * c.m44 + a.m22 * b.m24 * c.m44 + a.m23 * b.m34 * c.m44 + a.m24 * b.m44 * c.m44;
  }

  lemma TripleRight24(a: Matrix4, b: Matrix4, c: Matrix4, q: Matrix4)
    requires IsProduct(b, c, q)
    ensures a.m21 * q.m14 + a.m22 * q.m24 + a.m23 * q.m34 + a.m24 * q.m44
         == a.m21 * b.m11 * c.m14 + a.m22 * b.m21 * c.m14 + a.m23 * b.m31 * c.m14 + a.m24 * b.m41 * c.m14
            + a.m21 * b.m12 * c.m24 + a.m22 * b.m22 * c.m24 + a.m23 * b.m32 * c.m24 + a.m24 * b.m42 * c.m24
            + a.m21 * b.m13 * c.m34 + a.m22 * b.m23 * c.m34 + a.m23 * b.m33 * c.m34 + a.m24 * b.m43 * c.m34
            + a.m21 * b.m14 * c.m44 + a.m22 * b.m24 * c.m44 + a.m23 * b.m34 * c.m44 + a.m24 * b.m44 * c.m44
  {
    assert a.m21 * (b.m11 * c.m14 + b.m12 * c.m24
        + b.m13 * c.m34 + b.m14 * c.m44)
        + a.m22 * (b.m21 * c.m14 + b.m22 * c.m24
        + b.m23 * c.m34 + b.m24 * c.m44)
        + a.m23 * (b.m31 * c.m14 + b.m32 * c.m24
        + b.m33 * c.m34 + b.m34 * c.m44)
        + a.m24 * (b.m41 * c.m14 + b.m42 * c.m24
        + b.m43 * c.m34 + b.m44 * c.m44)
        == a.m21 * b.m11 * c.m14 + a.m22 * b.m21 * c.m14 + a.m23 * b.m31 * c.m14 + a.m24 * b.m41 * c.m14
           + a.m21 * b.m12 * c.m24 + a.m22 * b.m22 * c.m24 + a.m23 * b.m32 * c.m24 + a.m24 * b.m42 * c.m24
           + a.m21 * b.m13 * c.m34 + a.m22 * b.m23 * c.m34 + a.m23 * b.m33 * c.m34 + a.m24 * b.m43 * c.m34
           + a.m21 * b.m14 * c.m44 + a.m22 * b.m24 * c.m44 + a.m23 * b.m34 * c.m44 + a.m24 * b.m44 * c.m44;
  }

  lemma TripleLeft31(a: Matrix4, b: Matrix4, c: Matrix4, p: Matrix4)
    requires IsProduct(a, b, p)
    ensures p.m31 * c.m11 + p.m32 * c.m21 + p.m33 * c.m31 + p.m34 * c.m41
         == a.m31 * b.m11 * c.m11 + a.m32 * b.m21 * c.m11 + a.m33 * b.m31 * c.m11 + a.m34 * b.m41 * c.m11
            + a.m31 * b.m12 * c.m21 + a.m32 * b.m22 * c.m21 + a.m33 * b.m32 * c.m21 + a.m34 * b.m42 * c.m21
            + a.m31 * b.m13 * c.m31 + a.m32 * b.m23 * c.m31 + a.m33 * b.m33 * c.m31 + a.m34 * b.m43 * c.m31
            + a.m31 * b.m14 * c.m41 + a.m32 * b.m24 * c.m41 + a.m33 * b.m34 * c.m41 + a.m34 * b.m44 * c.m41
  {
    assert (a.m31 * b.m11 + a.m32 * b.m21
        + a.m33 * b.m31 + a.m34 * b.m41) * c.m11
        + (a.m31 * b.m12 + a.m32 * b.m22
        + a.m33 * b.m32 + a.m34 * b.m42) * c.m21
        + (a.m31 * b.m13 + a.m32 * b.m23
        + a.m33 * b.m33 + a.m34 * b.m43) * c.m31
        + (a.m31 * b.m14 + a.m32 * b.m24
        + a.m33 * b.m34 + a.m34 * b.m44) * c.m41
        == a.m31 * b.m11 * c.m11 + a.m32 * b.m21 * c.m11 + a.m33 * b.m31 * c.m11 + a.m34 * b.m41 * c.m11
           + a.m31 * b.m12 * c.m21 + a.m32 * b.m22 * c.m21 + a.m33 * b.m32 * c.m21 + a.m34 * b.m42 * c.m21
           + a.m31 * b.m13 * c.m31 + a.m32 * b.m23 * c.m31 + a.m33 * b.m33 * c.m31 + a.m34 * b.m43 * c.m31
           + a.m31 * b.m14 * c.m41 + a.m32 * b.m24 * c.m41 + a.m33 * b.m34 * c.m41 + a.m34 * b.m44 * c.m41;
  }

  lemma TripleRight31(a: Matrix4, b: Matrix4, c: Matrix4, q: Matrix4)
    requires IsProduct(b, c, q)
    ensures a.m31 * q.m11 + a.m32 * q.m21 + a.m33 * q.m31 + a.m34 * q.m41
         == a.m31 * b.m11 * c.m11 + a.m32 * b.m21 * c.m11 + a.m33 * b.m31 * c.m11 + a.m34 * b.m41 * c.m11
            + a.m31 * b.m12 * c.m21 + a.m32 * b.m22 * c.m21 + a.m33 * b.m32 * c.m21 + a.m34 * b.m42 * c.m21
            + a.m31 * b.m13 * c.m31 + a.m32 * b.m23 * c.m31 + a.m33 * b.m33 * c.m31 + a.m34 * b.m43 * c.m31
            + a.m31 * b.m14 * c.m41 + a.m32 * b.m24 * c.m41 + a.m33 * b.m34 * c.m41 + a.m34 * b.m44 * c.m41
  {
    assert a.m31 * (b.m11 * c.m11 + b.m12 * c.m21
        + b.m13 * c.m31 + b.m14 * c.m41)
        + a.m32 * (b.m21 * c.m11 + b.m22 * c.m21
        + b.m23 * c.m31 + b.m24 * c.m41)
        + a.m33 * (b.m31 * c.m11 + b.m32 * c.m21
        + b.m33 * c.m31 + b.m34 * c.m41)
        + a.m34 * (b.m41 * c.m11 + b.m42 * c.m21
        + b.m43 * c.m31 + b.m44 * c.m41)
        == a.m31 * b.m11 * c.m11 + a.m32 * b.m21 * c.m11 + a.m33 * b.m31 * c.m11 + a.m34 * b.m41 * c.m11
           + a.m31 * b.m12 * c.m21 + a.m32 * b.m22 * c.m21 + a.m33 * b.m32 * c.m21 + a.m34 * b.m42 * c.m21
           + a.m31 * b.m13 * c.m31 + a.m32 * b.m23 * c.m31 + a.m33 * b.m33 * c.m31 + a.m34 * b.m43 * c.m31
           + a.m31 * b.m14 * c.m41 + a.m32 * b.m24 * c.m41 + a.m33 * b.m34 * c.m41 + a.m34 * b.m44 * c.m41;
  }

  lemma TripleLeft32(a: Matrix4, b: Matrix4, c: Matrix4, p: Matrix4)
    requires IsProduct(a, b, p)
    ensures p.m31 * c.m12 + p.m32 * c.m22 + p.m33 * c.m32 + p.m34 * c.m42
         == a.m31 * b.m11 * c.m12 + a.m32 * b.m21 * c.m12 + a.m33 * b.m31 * c.m12 + a.m34 * b.m41 * c.m12
            + a.m31 * b.m12 * c.m22 + a.m32 * b.m22 * c.m22 + a.m33 * b.m32 * c.m22 + a.m34 * b.m42 * c.m22
            + a.m31 * b.m13 * c.m32 + a.m32 * b.m23 * c.m32 + a.m33 * b.m33 * c.m32 + a.m34 * b.m43 * c.m32
            + a.m31 * b.m14 * c.m42 + a.m32 * b.m24 * c.m42 + a.m33 * b.m34 * c.m42 + a.m34 * b.m44 * c.m42
  {
    assert (a.m31 * b.m11 + a.m32 * b.m21
        + a.m33 * b.m31 + a.m34 * b.m41) * c.m12
        + (a.m31 * b.m12 + a.m32 * b.m22
        + a.m33 * b.m32 + a.m34 * b.m42) * c.m22
        + (a.m31 * b.m13 + a.m32 * b.m23
        + a.m33 * b.m33 + a.m34 * b.m43) * c.m32
        + (a.m31 * b.m14 + a.m32 * b.m24
        + a.m33 * b.m34 + a.m34 * b.m44) * c.m42
        == a.m31 * b.m11 * c.m12 + a.m32 * b.m21 * c.m12 + a.m33 * b.m31 * c.m12 + a.m34 * b.m41 * c.m12
           + a.m31 * b.m12 * c.m22 + a.m32 * b.m22 * c.m22 + a.m33 * b.m32 * c.m22 + a.m34 * b.m42 * c.m22
           + a.m31 * b.m13 * c.m32 + a.m32 * b.m23 * c.m32 + a.m33 * b.m33 * c.m32 + a.m34 * b.m43 * c.m32
           + a.m31 * b.m14 * c.m42 + a.m32 * b.m24 * c.m42 + a.m33 * b.m34 * c.m42 + a.m34 * b.m44 * c.m42;
  }

  lemma TripleRight32(a: Matrix4, b: Matrix4, c: Matrix4, q: Matrix4)
    requires IsProduct(b, c, q)
    ensures a.m31 * q.m12 + a.m32 * q.m22 + a.m33 * q.m32 + a.m34 * q.m42
         == a.m31 * b.m11 * c.m12 + a.m32 * b.m21 * c.m12 + a.m33 * b.m31 * c.m12 + a.m34 * b.m41 * c.m12
            + a.m31 * b.m12 * c.m22 + a.m32 * b.m22 * c.m22 + a.m33 * b.m32 * c.m22 + a.m34 * b.m42 * c.m22
            + a.m31 * b.m13 * c.m32 + a.m32 * b.m23 * c.m32 + a.m33 * b.m33 * c.m32 + a.m34 * b.m43 * c.m32
            + a.m31 * b.m14 * c.m42 + a.m32 * b.m24 * c.m42 + a.m33 * b.m34 * c.m42 + a.m34 * b.m44 * c.m42
  {
    assert a.m31 * (b.m11 * c.m12 + b.m12 * c.m22
        + b.m13 * c.m32 + b.m14 * c.m42)
        + a.m32 * (b.m21 * c.m12 + b.m22 * c.m22
        + b.m23 * c.m32 + b.m24 * c.m42)
        + a.m33 * (b.m31 * c.m12 + b.m32 * c.m22
        + b.m33 * c.m32 + b.m34 * c.m42)
        + a.m34 * (b.m41 * c.m12 + b.m42 * c.m22
        + b.m43 * c.m32 + b.m44 * c.m42)
        == a.m31 * b.m11 * c.m12 + a.m32 * b.m21 * c.m12 + a.m33 * b.m31 * c.m12 + a.m34 * b.m41 * c.m12
           + a.m31 * b.m12 * c.m22 + a.m32 * b.m22 * c.m22 + a.m33 * b.m32 * c.m22 + a.m34 * b.m42 * c.m22
           + a.m31 * b.m13 * c.m32 + a.m32 * b.m23 * c.m32 + a.m33 * b.m33 * c.m32 + a.m34 * b.m43 * c.m32
           + a.m31 * b.m14 * c.m42 + a.m32 * b.m24 * c.m42 + a.m33 * b.m34 * c.m42 + a.m34 * b.m44 * c.m42;
  }

  lemma TripleLeft33(a: Matrix4, b: Matrix4, c: Matrix4, p: Matrix4)
    requires IsProduct(a, b, p)
    ensures p.m31 * c.m13 + p.m32 * c.m23 + p.m33 * c.m33 + p.m34 * c.m43
         == a.m31 * b.m11 * c.m13 + a.m32 * b.m21 * c.m13 + a.m33 * b.m31 * c.m13 + a.m34 * b.m41 * c.m13
            + a.m31 * b.m12 * c.m23 + a.m32 * b.m22 * c.m23 + a.m33 * b.m32 * c.m23 + a.m34 * b.m42 * c.m23
            + a.m31 * b.m13 * c.m33 + a.m32 * b.m23 * c.m33 + a.m33 * b.m33 * c.m33 + a.m34 * b.m43 * c.m33
            + a.m31 * b.m14 * c.m43 + a.m32 * b.m24 * c.m43 + a.m33 * b.m34 * c.m43 + a.m34 * b.m44 * c.m43
  {
    assert (a.m31 * b.m11 + a.m32 * b.m21
        + a.m33 * b.m31 + a.m34 * b.m41) * c.m13
        + (a.m31 * b.m12 + a.m32 * b.m22
        + a.m33 * b.m32 + a.m34 * b.m42) * c.m23
        + (a.m31 * b.m13 + a.m32 * b.m23
        + a.m33 * b.m33 + a.m34 * b.m43) * c.m33
        + (a.m31 * b.m14 + a.m32 * b.m24
        + a.m33 * b.m34 + a.m34 * b.m44) * c.m43
        == a.m31 * b.m11 * c.m13 + a.m32 * b.m21 * c.m13 + a.m33 * b.m31 * c.m13 + a.m34 * b.m41 * c.m13
           + a.m31 * b.m12 * c.m23 + a.m32 * b.m22 * c.m23 + a.m33 * b.m32 * c.m23 + a.m34 * b.m42 * c.m23
           + a.m31 * b.m13 * c.m33 + a.m32 * b.m23 * c.m33 + a.m33 * b.m33 * c.m33 + a.m34 * b.m43 * c.m33
           + a.m31 * b.m14 * c.m43 + a.m32 * b.m24 * c.m43 + a.m33 * b.m34 * c.m43 + a.m34 * b.m44 * c.m43;
  }

  lemma TripleRight33(a: Matrix4, b: Matrix4, c: Matrix4, q: Matrix4)
    requires IsProduct(b, c, q)
    ensures a.m31 * q.m13 + a.m32 * q.m23 + a.m33 * q.m33 + a.m34 * q.m43
         == a.m31 * b.m11 * c.m13 + a.m32 * b.m21 * c.m13 + a.m33 * b.m31 * c.m13 + a.m34 * b.m41 * c.m13
            + a.m31 * b.m12 * c.m23 + a.m32 * b.m22 * c.m23 + a.m33 * b.m32 * c.m23 + a.m34 * b.m42 * c.m23
            + a.m31 * b.m13 * c.m33 + a.m32 * b.m23 * c.m33 + a.m33 * b.m33 * c.m33 + a.m34 * b.m43 * c.m33
            + a.m31 * b.m14 * c.m43 + a.m32 * b.m24 * c.m43 + a.m33 * b.m34 * c.m43 + a.m34 * b.m44 * c.m43
  {
    assert a.m31 * (b.m11 * c.m13 + b.m12 * c.m23
        + b.m13 * c.m33 + b.m14 * c.m43)
        + a.m32 * (b.m21 * c.m13 + b.m22 * c.m23
        + b.m23 * c.m33 + b.m24 * c.m43)
        + a.m33 * (b.m31 * c.m13 + b.m32 * c.m23
        + b.m33 * c.m33 + b.m34 * c.m43)
        + a.m34 * (b.m41 * c.m13 + b.m42 * c.m23
        + b.m43 * c.m33 + b.m44 * c.m43)
        == a.m31 * b.m11 * c.m13 + a.m32 * b.m21 * c.m13 + a.m33 * b.m31 * c.m13 + a.m34 * b.m41 * c.m13
           + a.m31 * b.m12 * c.m23 + a.m32 * b.m22 * c.m23 + a.m33 * b.m32 * c.m23 + a.m34 * b.m42 * c.m23
           + a.m31 * b.m13 * c.m33 + a.m32 * b.m23 * c.m33 + a.m33 * b.m33 * c.m33 + a.m34 * b.m43 * c.m33
           + a.m31 * b.m14 * c.m43 + a.m32 * b.m24 * c.m43 + a.m33 * b.m34 * c.m43 + a.m34 * b.m44 * c.m43;
  }

  lemma TripleLeft34(a: Matrix4, b: Matrix4, c: Matrix4, p: Matrix4)
    requires IsProduct(a, b, p)
    ensures p.m31 * c.m14 + p.m32 * c.m24 + p.m33 * c.m34 + p.m34 * c.m44
         == a.m31 * b.m11 * c.m14 + a.m32 * b.m21 * c.m14 + a.m33 * b.m31 * c.m14 + a.m34 * b.m41 * c.m14
            + a.m31 * b.m12 * c.m24 + a.m32 * b.m22 * c.m24 + a.m33 * b.m32 * c.m24 + a.m34 * b.m42 * c.m24
            + a.m31 * b.m13 * c.m34 + a.m32 * b.m23 * c.m34 + a.m33 * b.m33 * c.m34 + a.m34 * b.m43 * c.m34
            + a.m31 * b.m14 * c.m44 + a.m32 * b.m24 * c.m44 + a.m33 * b.m34 * c.m44 + a.m34 * b.m44 * c.m44
  {
    assert (a.m31 * b.m11 + a.m32 * b.m21
        + a.m33 * b.m31 + a.m34 * b.m41) * c.m14
        + (a.m31 * b.m12 + a.m32 * b.m22
        + a.m33 * b.m32 + a.m34 * b.m42) * c.m24
        + (a.m31 * b.m13 + a.m32 * b.m23
        + a.m33 * b.m33 + a.m34 * b.m43) * c.m34
        + (a.m31 * b.m14 + a.m32 * b.m24
        + a.m33 * b.m34 + a.m34 * b.m44) * c.m44
        == a.m31 * b.m11 * c.m14 + a.m32 * b.m21 * c.m14 + a.m33 * b.m31 * c.m14 + a.m34 * b.m41 * c.m14
           + a.m31 * b.m12 * c.m24 + a.m32 * b.m22 * c.m24 + a.m33 * b.m32 * c.m24 + a.m34 * b.m42 * c.m24
           + a.m31 * b.m13 * c.m34 + a.m32 * b.m23 * c.m34 + a.m33 * b.m33 * c.m34 + a.m34 * b.m43 * c.m34
           + a.m31 * b.m14 * c.m44 + a.m32 * b.m24 * c.m44 + a.m33 * b.m34 * c.m44 + a.m34 * b.m44 * c.m44;
  }

  lemma TripleRight34(a: Matrix4, b: Matrix4, c: Matrix4, q: Matrix4)
    requires IsProduct(b, c, q)
    ensures a.m31 * q.m14 + a.m32 * q.m24 + a.m33 * q.m34 + a.m34 * q.m44
         == a.m31 * b.m11 * c.m14 + a.m32 * b.m21 * c.m14 + a.m33 * b.m31 * c.m14 + a.m34 * b.m41 * c.m14
            + a.m31 * b.m12 * c.m24 + a.m32 * b.m22 * c.m24 + a.m33 * b.m32 * c.m24 + a.m34 * b.m42 * c.m24
            + a.m31 * b.m13 * c.m34 + a.m32 * b.m23 * c.m34 + a.m33 * b.m33 * c.m34 + a.m34 * b.m43 * c.m34
            + a.m31 * b.m14 * c.m44 + a.m32 * b.m24 * c.m44 + a.m33 * b.m34 * c.m44 + a.m34 * b.m44 * c.m44
  {
    assert a.m31 * (b.m11 * c.m14 + b.m12 * c.m24
        + b.m13 * c.m34 + b.m14 * c.m44)
        + a.m32 * (b.m21 * c.m14 + b.m22 * c.m24
        + b.m23 * c.m34 + b.m24 * c.m44)
        + a.m33 * (b.m31 * c.m14 + b.m32 * c.m24
        + b.m33 * c.m34 + b.m34 * c.m44)
        + a.m34 * (b.m41 * c.m14 + b.m42 * c.m24
        + b.m43 * c.m34 + b.m44 * c.m44)
        == a.m31 * b.m11 * c.m14 + a.m32 * b.m21 * c.m14 + a.m33 * b.m31 * c.m14 + a.m34 * b.m41 * c.m14
           + a.m31 * b.m12 * c.m24 + a.m32 * b.m22 * c.m24 + a.m33 * b.m32 * c.m24 + a.m34 * b.m42 * c.m24
           + a.m31 * b.m13 * c.m34 + a.m32 * b.m23 * c.m34 + a.m33 * b.m33 * c.m34 + a.m34 * b.m43 * c.m34
           + a.m31 * b.m14 * c.m44 + a.m32 * b.m24 * c.m44 + a.m33 * b.m34 * c.m44 + a.m34 * b.m44 * c.m44;
  }

  lemma TripleLeft41(a: Matrix4, b: Matrix4, c: Matrix4, p: Matrix4)
    requires IsProduct(a, b, p)
    ensures p.m41 * c.m11 + p.m42 * c.m21 + p.m43 * c.m31 + p.m44 * c.m41
         == a.m41 * b.m11 * c.m11 + a.m42 * b.m21 * c.m11 + a.m43 * b.m31 * c.m11 + a.m44 * b.m41 * c.m11
            + a.m41 * b.m12 * c.m21 + a.m42 * b.m22 * c.m21 + a.m43 * b.m32 * c.m21 + a.m44 * b.m42 * c.m21
            + a.m41 * b.m13 * c.m31 + a.m42 * b.m23 * c.m31 + a.m43 * b.m33 * c.m31 + a.m44 * b.m43 * c.m31
            + a.m41 * b.m14 * c.m41 + a.m42 * b.m24 * c.m41 + a.m43 * b.m34 * c.m41 + a.m44 * b.m44 * c.m41
  {
    assert (a.m41 * b.m11 + a.m42 * b.m21
        + a.m43 * b.m31 + a.m44 * b.m41) * c.m11
        + (a.m41 * b.m12 + a.m42 * b.m22
        + a.m43 * b.m32 + a.m44 * b.m42) * c.m21
        + (a.m41 * b.m13 + a.m42 * b.m23
        + a.m43 * b.m33 + a.m44 * b.m43) * c.m31
        + (a.m41 * b.m14 + a.m42 * b.m24
        + a.m43 * b.m34 + a.m44 * b.m44) * c.m41
        == a.m41 * b.m11 * c.m11 + a.m42 * b.m21 * c.m11 + a.m43 * b.m31 * c.m11 + a.m44 * b.m41 * c.m11
           + a.m41 * b.m12 * c.m21 + a.m42 * b.m22 * c.m21 + a.m43 * b.m32 * c.m21 + a.m44 * b.m42 * c.m21
           + a.m41 * b.m13 * c.m31 + a.m42 * b.m23 * c.m31 + a.m43 * b.m33 * c.m31 + a.m44 * b.m43 * c.m31
           + a.m41 * b.m14 * c.m41 + a.m42 * b.m24 * c.m41 + a.m43 * b.m34 * c.m41 + a.m44 * b.m44 * c.m41;
  }

  lemma TripleRight41(a: Matrix4, b: Matrix4, c: Matrix4, q: Matrix4)
    requires IsProduct(b, c, q)
    ensures a.m41 * q.m11 + a.m42 * q.m21 + a.m43 * q.m31 + a.m44 * q.m41
         == a.m41 * b.m11 * c.m11 + a.m42 * b.m21 * c.m11 + a.m43 * b.m31 * c.m11 + a.m44 * b.m41 * c.m11
            + a.m41 * b.m12 * c.m21 + a.m42 * b.m22 * c.m21 + a.m43 * b.m32 * c.m21 + a.m44 * b.m42 * c.m21
            + a.m41 * b.m13 * c.m31 + a.m42 * b.m23 * c.m31 + a.m43 * b.m33 * c.m31 + a.m44 * b.m43 * c.m31
            + a.m41 * b.m14 * c.m41 + a.m42 * b.m24 * c.m41 + a.m43 * b.m34 * c.m41 + a.m44 * b.m44 * c.m41
  {
    assert a.m41 * (b.m11 * c.m11 + b.m12 * c.m21
        + b.m13 * c.m31 + b.m14 * c.m41)
        + a.m42 * (b.m21 * c.m11 + b.m22 * c.m21
        + b.m23 * c.m31 + b.m24 * c.m41)
        + a.m43 * (b.m31 * c.m11 + b.m32 * c.m21
        + b.m33 * c.m31 + b.m34 * c.m41)
        + a.m44 * (b.m41 * c.m11 + b.m42 * c.m21
        + b.m43 * c.m31 + b.m44 * c.m41)
        == a.m41 * b.m11 * c.m11 + a.m42 * b.m21 * c.m11 + a.m43 * b.m31 * c.m11 + a.m44 * b.m41 * c.m11
           + a.m41 * b.m12 * c.m21 + a.m42 * b.m22 * c.m21 + a.m43 * b.m32 * c.m21 + a.m44 * b.m42 * c.m21
           + a.m41 * b.m13 * c.m31 + a.m42 * b.m23 * c.m31 + a.m43 * b.m33 * c.m31 + a.m44 * b.m43 * c.m31
           + a.m41 * b.m14 * c.m41 + a.m42 * b.m24 * c.m41 + a.m43 * b.m34 * c.m41 + a.m44 * b.m44 * c.m41;
  }

  lemma TripleLeft42(a: Matrix4, b: Matrix4, c: Matrix4, p: Matrix4)
    requires IsProduct(a, b, p)
    ensures p.m41 * c.m12 + p.m42 * c.m22 + p.m43 * c.m32 + p.m44 * c.m42
         == a.m41 * b.m11 * c.m12 + a.m42 * b.m21 * c.m12 + a.m43 * b.m31 * c.m12 + a.m44 * b.m41 * c.m12
            + a.m41 * b.m12 * c.m22 + a.m42 * b.m22 * c.m22 + a.m43 * b.m32 * c.m22 + a.m44 * b.m42 * c.m22
            + a.m41 * b.m13 * c.m32 + a.m42 * b.m23 * c.m32 + a.m43 * b.m33 * c.m32 + a.m44 * b.m43 * c.m32
            + a.m41 * b.m14 * c.m42 + a.m42 * b.m24 * c.m42 + a.m43 * b.m34 * c.m42 + a.m44 * b.m44 * c.m42
  {
    assert (a.m41 * b.m11 + a.m42 * b.m21
        + a.m43 * b.m31 + a.m44 * b.m41) * c.m12
        + (a.m41 * b.m12 + a.m42 * b.m22
        + a.m43 * b.m32 + a.m44 * b.m42) * c.m22
        + (a.m41 * b.m13 + a.m42 * b.m23
        + a.m43 * b.m33 + a.m44 * b.m43) * c.m32
        + (a.m41 * b.m14 + a.m42 * b.m24
        + a.m43 * b.m34 + a.m44 * b.m44) * c.m42
        == a.m41 * b.m11 * c.m12 + a.m42 * b.m21 * c.m12 + a.m43 * b.m31 * c.m12 + a.m44 * b.m41 * c.m12
           + a.m41 * b.m12 * c.m22 + a.m42 * b.m22 * c.m22 + a.m43 * b.m32 * c.m22 + a.m44 * b.m42 * c.m22
           + a.m41 * b.m13 * c.m32 + a.m42 * b.m23 * c.m32 + a.m43 * b.m33 * c.m32 + a.m44 * b.m43 * c.m32
           + a.m41 * b.m14 * c.m42 + a.m42 * b.m24 * c.m42 + a.m43 * b.m34 * c.m42 + a.m44 * b.m44 * c.m42;
  }

  lemma TripleRight42(a: Matrix4, b: Matrix4, c: Matrix4, q: Matrix4)
    requires IsProduct(b, c, q)
    ensures a.m41 * q.m12 + a.m42 * q.m22 + a.m43 * q.m32 + a.m44 * q.m42
         == a.m41 * b.m11 * c.m12 + a.m42 * b.m21 * c.m12 + a.m43 * b.m31 * c.m12 + a.m44 * b.m41 * c.m12
            + a.m41 * b.m12 * c.m22 + a.m42 * b.m22 * c.m22 + a.m43 * b.m32 * c.m22 + a.m44 * b.m42 * c.m22
            + a.m41 * b.m13 * c.m32 + a.m42 * b.m23 * c.m32 + a.m43 * b.m33 * c.m32 + a.m44 * b.m43 * c.m32
            + a.m41 * b.m14 * c.m42 + a.m42 * b.m24 * c.m42 + a.m43 * b.m34 * c.m42 + a.m44 * b.m44 * c.m42
  {
    assert a.m41 * (b.m11 * c.m12 + b.m12 * c.m22
        + b.m13 * c.m32 + b.m14 * c.m42)
        + a.m42 * (b.m21 * c.m12 + b.m22 * c.m22
        + b.m23 * c.m32 + b.m24 * c.m42)
        + a.m43 * (b.m31 * c.m12 + b.m32 * c.m22
        + b.m33 * c.m32 + b.m34 * c.m42)
        + a.m44 * (b.m41 * c.m12 + b.m42 * c.m22
        + b.m43 * c.m32 + b.m44 * c.m42)
        == a.m41 * b.m11 * c.m12 + a.m42 * b.m21 * c.m12 + a.m43 * b.m31 * c.m12 + a.m44 * b.m41 * c.m12
           + a.m41 * b.m12 * c.m22 + a.m42 * b.m22 * c.m22 + a.m43 * b.m32 * c.m22 + a.m44 * b.m42 * c.m22
           + a.m41 * b.m13 * c.m32 + a.m42 * b.m23 * c.m32 + a.m43 * b.m33 * c.m32 + a.m44 * b.m43 * c.m32
           + a.m41 * b.m14 * c.m42 + a.m42 * b.m24 * c.m42 + a.m43 * b.m34 * c.m42 + a.m44 * b.m44 * c.m42;
  }

  lemma TripleLeft43(a: Matrix4, b: Matrix4, c: Matrix4, p: Matrix4)
    requires IsProduct(a, b, p)
    ensures p.m41 * c.m13 + p.m42 * c.m23 + p.m43 * c.m33 + p.m44 * c.m43
         == a.m41 * b.m11 * c.m13 + a.m42 * b.m21 * c.m13 + a.m43 * b.m31 * c.m13 + a.m44 * b.m41 * c.m13
            + a.m41 * b.m12 * c.m23 + a.m42 * b.m22 * c.m23 + a.m43 * b.m32 * c.m23 + a.m44 * b.m42 * c.m23
            + a.m41 * b.m13 * c.m33 + a.m42 * b.m23 * c.m33 + a.m43 * b.m33 * c.m33 + a.m44 * b.m43 * c.m33
            + a.m41 * b.m14 * c.m43 + a.m42 * b.m24 * c.m43 + a.m43 * b.m34 * c.m43 + a.m44 * b.m44 * c.m43
  {
    assert (a.m41 * b.m11 + a.m42 * b.m21
        + a.m43 * b.m31 + a.m44 * b.m41) * c.m13
        + (a.m41 * b.m12 + a.m42 * b.m22
        + a.m43 * b.m32 + a.m44 * b.m42) * c.m23
        + (a.m41 * b.m13 + a.m42 * b.m23
        + a.m43 * b.m33 + a.m44 * b.m43) * c.m33
        + (a.m41 * b.m14 + a.m42 * b.m24
        + a.m43 * b.m34 + a.m44 * b.m44) * c.m43
        == a.m41 * b.m11 * c.m13 + a.m42 * b.m21 * c.m13 + a.m43 * b.m31 * c.m13 + a.m44 * b.m41 * c.m13
           + a.m41 * b.m12 * c.m23 + a.m42 * b.m22 * c.m23 + a.m43 * b.m32 * c.m23 + a.m44 * b.m42 * c.m23
           + a.m41 * b.m13 * c.m33 + a.m42 * b.m23 * c.m33 + a.m43 * b.m33 * c.m33 + a.m44 * b.m43 * c.m33
           + a.m41 * b.m14 * c.m43 + a.m42 * b.m24 * c.m43 + a.m43 * b.m34 * c.m43 + a.m44 * b.m44 * c.m43;
  }

  lemma TripleRight43(a: Matrix4, b: Matrix4, c: Matrix4, q: Matrix4)
    requires IsProduct(b, c, q)
    ensures a.m41 * q.m13 + a.m42 * q.m23 + a.m43 * q.m33 + a.m44 * q.m43
         == a.m41 * b.m11 * c.m13 + a.m42 * b.m21 * c.m13 + a.m43 * b.m31 * c.m13 + a.m44 * b.m41 * c.m13
            + a.m41 * b.m12 * c.m23 + a.m42 * b.m22 * c.m23 + a.m43 * b.m32 * c.m23 + a.m44 * b.m42 * c.m23
            + a.m41 * b.m13 * c.m33 + a.m42 * b.m23 * c.m33 + a.m43 * b.m33 * c.m33 + a.m44 * b.m43 * c.m33
            + a.m41 * b.m14 * c.m43 + a.m42 * b.m24 * c.m43 + a.m43 * b.m34 * c.m43 + a.m44 * b.m44 * c.m43
  {
    assert a.m41 * (b.m11 * c.m13 + b.m12 * c.m23
        + b.m13 * c.m33 + b.m14 * c.m43)
        + a.m42 * (b.m21 * c.m13 + b.m22 * c.m23
        + b.m23 * c.m33 + b.m24 * c.m43)
        + a.m43 * (b.m31 * c.m13 + b.m32 * c.m23
        + b.m33 * c.m33 + b.m34 * c.m43)
        + a.m44 * (b.m41 * c.m13 + b.m42 * c.m23
        + b.m43 * c.m33 + b.m44 * c.m43)
        == a.m41 * b.m11 * c.m13 + a.m42 * b.m21 * c.m13 + a.m43 * b.m31 * c.m13 + a.m44 * b.m41 * c.m13
           + a.m41 * b.m12 * c.m23 + a.m42 * b.m22 * c.m23 + a.m43 * b.m32 * c.m23 + a.m44 * b.m42 * c.m23
           + a.m41 * b.m13 * c.m33 + a.m42 * b.m23 * c.m33 + a.m43 * b.m33 * c.m33 + a.m44 * b.m43 * c.m33
           + a.m41 * b.m14 * c.m43 + a.m42 * b.m24 * c.m43 + a.m43 * b.m34 * c.m43 + a.m44 * b.m44 * c.m43;
  }

  lemma TripleLeft44(a: Matrix4, b: Matrix4, c: Matrix4, p: Matrix4)
    requires IsProduct(a, b, p)
    ensures p.m41 * c.m14 + p.m42 * c.m24 + p.m43 * c.m34 + p.m44 * c.m44
         == a.m41 * b.m11 * c.m14 + a.m42 * b.m21 * c.m14 + a.m43 * b.m31 * c.m14 + a.m44 * b.m41 * c.m14
            + a.m41 * b.m12 * c.m24 + a.m42 * b.m22 * c.m24 + a.m43 * b.m32 * c.m24 + a.m44 * b.m42 * c.m24
            + a.m41 * b.m13 * c.m34 + a.m42 * b.m23 * c.m34 + a.m43 * b.m33 * c.m34 + a.m44 * b.m43 * c.m34
            + a.m41 * b.m14 * c.m44 + a.m42 * b.m24 * c.m44 + a.m43 * b.m34 * c.m44 + a.m44 * b.m44 * c.m44
  {
    assert (a.m41 * b.m11 + a.m42 * b.m21
        + a.m43 * b.m31 + a.m44 * b.m41) * c.m14
        + (a.m41 * b.m12 + a.m42 * b.m22
        + a.m43 * b.m32 + a.m44 * b.m42) * c.m24
        + (a.m41 * b.m13 + a.m42 * b.m23
        + a.m43 * b.m33 + a.m44 * b.m43) * c.m34
        + (a.m41 * b.m14 + a.m42 * b.m24
        + a.m43 * b.m34 + a.m44 * b.m44) * c.m44
        == a.m41 * b.m11 * c.m14 + a.m42 * b.m21 * c.m14 + a.m43 * b.m31 * c.m14 + a.m44 * b.m41 * c.m14
           + a.m41 * b.m12 * c.m24 + a.m42 * b.m22 * c.m24 + a.m43 * b.m32 * c.m24 + a.m44 * b.m42 * c.m24
           + a.m41 * b.m13 * c.m34 + a.m42 * b.m23 * c.m34 + a.m43 * b.m33 * c.m34 + a.m44 * b.m43 * c.m34
           + a.m41 * b.m14 * c.m44 + a.m42 * b.m24 * c.m44 + a.m43 * b.m34 * c.m44 + a.m44 * b.m44 * c.m44;
  }

  lemma TripleRight44(a: Matrix4, b: Matrix4, c: Matrix4, q: Matrix4)
    requires IsProduct(b, c, q)
    ensures a.m41 * q.m14 + a.m42 * q.m24 + a.m43 * q.m34 + a.m44 * q.m44
         == a.m41 * b.m11 * c.m14 + a.m42 * b.m21 * c.m14 + a.m43 * b.m31 * c.m14 + a.m44 * b.m41 * c.m14
            + a.m41 * b.m12 * c.m24 + a.m42 * b.m22 * c.m24 + a.m43 * b.m32 * c.m24 + a.m44 * b.m42 * c.m24
            + a.m41 * b.m13 * c.m34 + a.m42 * b.m23 * c.m34 + a.m43 * b.m33 * c.m34 + a.m44 * b.m43 * c.m34
            + a.m41 * b.m14 * c.m44 + a.m42 * b.m24 * c.m44 + a.m43 * b.m34 * c.m44 + a.m44 * b.m44 * c.m44
  {
    assert a.m41 * (b.m11 * c.m14 + b.m12 * c.m24
        + b.m13 * c.m34 + b.m14 * c.m44)
        + a.m42 * (b.m21 * c.m14 + b.m22 * c.m24
        + b.m23 * c.m34 + b.m24 * c.m44)
        + a.m43 * (b.m31 * c.m14 + b.m32 * c.m24
        + b.m33 * c.m34 + b.m34 * c.m44)
        + a.m44 * (b.m41 * c.m14 + b.m42 * c.m24
        + b.m43 * c.m34 + b.m44 * c.m44)
        == a.m41 * b.m11 * c.m14 + a.m42 * b.m21 * c.m14 + a.m43 * b.m31 * c.m14 + a.m44 * b.m41 * c.m14
           + a.m41 * b.m12 * c.m24 + a.m42 * b.m22 * c.m24 + a.m43 * b.m32 * c.m24 + a.m44 * b.m42 * c.m24
           + a.m41 * b.m13 * c.m34 + a.m42 * b.m23 * c.m34 + a.m43 * b.m33 * c.m34 + a.m44 * b.m43 * c.m34
           + a.m41 * b.m14 * c.m44 + a.m42 * b.m24 * c.m44 + a.m43 * b.m34 * c.m44 + a.m44 * b.m44 * c.m44;
  }

  /** `p` times `c` has the entries of the triple product `a b c`. */
  predicate IsTripleLeft(a: Matrix4, b: Matrix4, c: Matrix4, p: Matrix4) {
    p.m11 * c.m11 + p.m12 * c.m21 + p.m13 * c.m31 + p.m14 * c.m41
      == a.m11 * b.m11 * c.m11 + a.m12 * b.m21 * c.m11 + a.m13 * b.m31 * c.m11 + a.m14 * b.m41 * c.m11
         + a.m11 * b.m12 * c.m21 + a.m12 * b.m22 * c.m21 + a.m13 * b.m32 * c.m21 + a.m14 * b.m42 * c.m21
         + a.m11 * b.m13 * c.m31 + a.m12 * b.m23 * c.m31 + a.m13 * b.m33 * c.m31 + a.m14 * b.m43 * c.m31
         + a.m11 * b.m14 * c.m41 + a.m12 * b.m24 * c.m41 + a.m13 * b.m34 * c.m41 + a.m14 * b.m44 * c.m41 &&
    p.m11 * c.m12 + p.m12 * c.m22 + p.m13 * c.m32 + p.m14 * c.m42
      == a.m11 * b.m11 * c.m12 + a.m12 * b.m21 * c.m12 + a.m13 * b.m31 * c.m12 + a.m14 * b.m41 * c.m12
         + a.m11 * b.m12 * c.m22 + a.m12 * b.m22 * c.m22 + a.m13 * b.m32 * c.m22 + a.m14 * b.m42 * c.m22
         + a.m11 * b.m13 * c.m32 + a.m12 * b.m23 * c.m32 + a.m13 * b.m33 * c.m32 + a.m14 * b.m43 * c.m32
         + a.m11 * b.m14 * c.m42 + a.m12 * b.m24 * c.m42 + a.m13 * b.m34 * c.m42 + a.m14 * b.m44 * c.m42 &&
    p.m11 * c.m13 + p.m12 * c.m23 + p.m13 * c.m33 + p.m14 * c.m43
      == a.m11 * b.m11 * c.m13 + a.m12 * b.m21 * c.m13 + a.m13 * b.m31 * c.m13 + a.m14 * b.m41 * c.m13
         + a.m11 * b.m12 * c.m23 + a.m12 * b.m22 * c.m23 + a.m13 * b.m32 * c.m23 + a.m14 * b.m42 * c.m23
         + a.m11 * b.m13 * c.m33 + a.m12 * b.m23 * c.m33 + a.m13 * b.m33 * c.m33 + a.m14 * b.m43 * c.m33
         + a.m11 * b.m14 * c.m43 + a.m12 * b.m24 * c.m43 + a.m13 * b.m34 * c.m43 + a.m14 * b.m44 * c.m43 &&
    p.m11 * c.m14 + p.m12 * c.m24 + p.m13 * c.m34 + p.m14 * c.m44
      == a.m11 * b.m11 * c.m14 + a.m12 * b.m21 * c.m14 + a.m13 * b.m31 * c.m14 + a.m14 * b.m41 * c.m14
         + a.m11 * b.m12 * c.m24 + a.m12 * b.m22 * c.m24 + a.m13 * b.m32 * c.m24 + a.m14 * b.m42 * c.m24
         + a.m11 * b.m13 * c.m34 + a.m12 * b.m23 * c.m34 + a.m13 * b.m33 * c.m34 + a.m14 * b.m43 * c.m34
         + a.m11 * b.m14 * c.m44 + a.m12 * b.m24 * c.m44 + a.m13 * b.m34 * c.m44 + a.m14 * b.m44 * c.m44 &&
    p.m21 * c.m11 + p.m22 * c.m21 + p.m23 * c.m31 + p.m24 * c.m41
      == a.m21 * b.m11 * c.m11 + a.m22 * b.m21 * c.m11 + a.m23 * b.m31 * c.m11 + a.m24 * b.m41 * c.m11
         + a.m21 * b.m12 * c.m21 + a.m22 * b.m22 * c.m21 + a.m23 * b.m32 * c.m21 + a.m24 * b.m42 * c.m21
         + a.m21 * b.m13 * c.m31 + a.m22 * b.m23 * c.m31 + a.m23 * b.m33 * c.m31 + a.m24 * b.m43 * c.m31
         + a.m21 * b.m14 * c.m41 + a.m22 * b.m24 * c.m41 + a.m23 * b.m34 * c.m41 + a.m24 * b.m44 * c.m41 &&
    p.m21 * c.m12 + p.m22 * c.m22 + p.m23 * c.m32 + p.m24 * c.m42
      == a.m21 * b.m11 * c.m12 + a.m22 * b.m21 * c.m12 + a.m23 * b.m31 * c.m12 + a.m24 * b.m41 * c.m12
         + a.m21 * b.m12 * c.m22 + a.m22 * b.m22 * c.m22 + a.m23 * b.m32 * c.m22 + a.m24 * b.m42 * c.m22
         + a.m21 * b.m13 * c.m32 + a.m22 * b.m23 * c.m32 + a.m23 * b.m33 * c.m32 + a.m24 * b.m43 * c.m32
         + a.m21 * b.m14 * c.m42 + a.m22 * b.m24 * c.m42 + a.m23 * b.m34 * c.m42 + a.m24 * b.m44 * c.m42 &&
    p.m21 * c.m13 + p.m22 * c.m23 + p.m23 * c.m33 + p.m24 * c.m43
      == a.m21 * b.m11 * c.m13 + a.m22 * b.m21 * c.m13 + a.m23 * b.m31 * c.m13 + a.m24 * b.m41 * c.m13
         + a.m21 * b.m12 * c.m23 + a.m22 * b.m22 * c.m23 + a.m23 * b.m32 * c.m23 + a.m24 * b.m42 * c.m23
         + a.m21 * b.m13 * c.m33 + a.m22 * b.m23 * c.m33 + a.m23 * b.m33 * c.m33 + a.m24 * b.m43 * c.m33
         + a.m21 * b.m14 * c.m43 + a.m22 * b.m24 * c.m43 + a.m23 * b.m34 * c.m43 + a.m24 * b.m44 * c.m43 &&
    p.m21 * c.m14 + p.m22 * c.m24 + p.m23 * c.m34 + p.m24 * c.m44
      == a.m21 * b.m11 * c.m14 + a.m22 * b.m21 * c.m14 + a.m23 * b.m31 * c.m14 + a.m24 * b.m41 * c.m14
         + a.m21 * b.m12 * c.m24 + a.m22 * b.m22 * c.m24 + a.m23 * b.m32 * c.m24 + a.m24 * b.m42 * c.m24
         + a.m21 * b.m13 * c.m34 + a.m22 * b.m23 * c.m34 + a.m23 * b.m33 * c.m34 + a.m24 * b.m43 * c.m34
         + a.m21 * b.m14 * c.m44 + a.m22 * b.m24 * c.m44 + a.m23 * b.m34 * c.m44 + a.m24 * b.m44 * c.m44 &&
    p.m31 * c.m11 + p.m32 * c.m21 + p.m33 * c.m31 + p.m34 * c.m41
      == a.m31 * b.m11 * c.m11 + a.m32 * b.m21 * c.m11 + a.m33 * b.m31 * c.m11 + a.m34 * b.m41 * c.m11
         + a.m31 * b.m12 * c.m21 + a.m32 * b.m22 * c.m21 + a.m33 * b.m32 * c.m21 + a.m34 * b.m42 * c.m21
         + a.m31 * b.m13 * c.m31 + a.m32 * b.m23 * c.m31 + a.m33 * b.m33 * c.m31 + a.m34 * b.m43 * c.m31
         + a.m31 * b.m14 * c.m41 + a.m32 * b.m24 * c.m41 + a.m33 * b.m34 * c.m41 + a.m34 * b.m44 * c.m41 &&
    p.m31 * c.m12 + p.m32 * c.m22 + p.m33 * c.m32 + p.m34 * c.m42
      == a.m31 * b.m11 * c.m12 + a.m32 * b.m21 * c.m12 + a.m33 * b.m31 * c.m12 + a.m34 * b.m41 * c.m12
         + a.m31 * b.m12 * c.m22 + a.m32 * b.m22 * c.m22 + a.m33 * b.m32 * c.m22 + a.m34 * b.m42 * c.m22
         + a.m31 * b.m13 * c.m32 + a.m32 * b.m23 * c.m32 + a.m33 * b.m33 * c.m32 + a.m34 * b.m43 * c.m32
         + a.m31 * b.m14 * c.m42 + a.m32 * b.m24 * c.m42 + a.m33 * b.m34 * c.m42 + a.m34 * b.m44 * c.m42 &&
    p.m31 * c.m13 + p.m32 * c.m23 + p.m33 * c.m33 + p.m34 * c.m43
      == a.m31 * b.m11 * c.m13 + a.m32 * b.m21 * c.m13 + a.m33 * b.m31 * c.m13 + a.m34 * b.m41 * c.m13
         + a.m31 * b.m12 * c.m23 + a.m32 * b.m22 * c.m23 + a.m33 * b.m32 * c.m23 + a.m34 * b.m42 * c.m23
         + a.m31 * b.m13 * c.m33 + a.m32 * b.m23 * c.m33 + a.m33 * b.m33 * c.m33 + a.m34 * b.m43 * c.m33
         + a.m31 * b.m14 * c.m43 + a.m32 * b.m24 * c.m43 + a.m33 * b.m34 * c.m43 + a.m34 * b.m44 * c.m43 &&
    p.m31 * c.m14 + p.m32 * c.m24 + p.m33 * c.m34 + p.m34 * c.m44
      == a.m31 * b.m11 * c.m14 + a.m32 * b.m21 * c.m14 + a.m33 * b.m31 * c.m14 + a.m34 * b.m41 * c.m14
         + a.m31 * b.m12 * c.m24 + a.m32 * b.m22 * c.m24 + a.m33 * b.m32 * c.m24 + a.m34 * b.m42 * c.m24
         + a.m31 * b.m13 * c.m34 + a.m32 * b.m23 * c.m34 + a.m33 * b.m33 * c.m34 + a.m34 * b.m43 * c.m34
         + a.m31 * b.m14 * c.m44 + a.m32 * b.m24 * c.m44 + a.m33 * b.m34 * c.m44 + a.m34 * b.m44 * c.m44 &&
    p.m41 * c.m11 + p.m42 * c.m21 + p.m43 * c.m31 + p.m44 * c.m41
      == a.m41 * b.m11 * c.m11 + a.m42 * b.m21 * c.m11 + a.m43 * b.m31 * c.m11 + a.m44 * b.m41 * c.m11
         + a.m41 * b.m12 * c.m21 + a.m42 * b.m22 * c.m21 + a.m43 * b.m32 * c.m21 + a.m44 * b.m42 * c.m21
         + a.m41 * b.m13 * c.m31 + a.m42 * b.m23 * c.m31 + a.m43 * b.m33 * c.m31 + a.m44 * b.m43 * c.m31
         + a.m41 * b.m14 * c.m41 + a.m42 * b.m24 * c.m41 + a.m43 * b.m34 * c.m41 + a.m44 * b.m44 * c.m41 &&
    p.m41 * c.m12 + p.m42 * c.m22 + p.m43 * c.m32 + p.m44 * c.m42
      == a.m41 * b.m11 * c.m12 + a.m42 * b.m21 * c.m12 + a.m43 * b.m31 * c.m12 + a.m44 * b.m41 * c.m12
         + a.m41 * b.m12 * c.m22 + a.m42 * b.m22 * c.m22 + a.m43 * b.m32 * c.m22 + a.m44 * b.m42 * c.m22
         + a.m41 * b.m13 * c.m32 + a.m42 * b.m23 * c.m32 + a.m43 * b.m33 * c.m32 + a.m44 * b.m43 * c.m32
         + a.m41 * b.m14 * c.m42 + a.m42 * b.m24 * c.m42 + a.m43 * b.m34 * c.m42 + a.m44 * b.m44 * c.m42 &&
    p.m41 * c.m13 + p.m42 * c.m23 + p.m43 * c.m33 + p.m44 * c.m43
      == a.m41 * b.m11 * c.m13 + a.m42 * b.m21 * c.m13 + a.m43 * b.m31 * c.m13 + a.m44 * b.m41 * c.m13
         + a.m41 * b.m12 * c.m23 + a.m42 * b.m22 * c.m23 + a.m43 * b.m32 * c.m23 + a.m44 * b.m42 * c.m23
         + a.m41 * b.m13 * c.m33 + a.m42 * b.m23 * c.m33 + a.m43 * b.m33 * c.m33 + a.m44 * b.m43 * c.m33
         + a.m41 * b.m14 * c.m43 + a.m42 * b.m24 * c.m43 + a.m43 * b.m34 * c.m43 + a.m44 * b.m44 * c.m43 &&
    p.m41 * c.m14 + p.m42 * c.m24 + p.m43 * c.m34 + p.m44 * c.m44
      == a.m41 * b.m11 * c.m14 + a.m42 * b.m21 * c.m14 + a.m43 * b.m31 * c.m14 + a.m44 * b.m41 * c.m14
         + a.m41 * b.m12 * c.m24 + a.m42 * b.m22 * c.m24 + a.m43 * b.m32 * c.m24 + a.m44 * b.m42 * c.m24
         + a.m41 * b.m13 * c.m34 + a.m42 * b.m23 * c.m34 + a.m43 * b.m33 * c.m34 + a.m44 * b.m43 * c.m34
         + a.m41 * b.m14 * c.m44 + a.m42 * b.m24 * c.m44 + a.m43 * b.m34 * c.m44 + a.m44 * b.m44 * c.m44
  }

  /** `p` = `a b` times `c` is the triple product. */
  lemma TripleLeft(a: Matrix4, b: Matrix4, c: Matrix4, p: Matrix4)
    requires IsProduct(a, b, p)
    ensures IsTripleLeft(a, b, c, p)
  {
    TripleLeft11(a, b, c, p);
    TripleLeft12(a, b, c, p);
    TripleLeft13(a, b, c, p);
    TripleLeft14(a, b, c, p);
    TripleLeft21(a, b, c, p);
    TripleLeft22(a, b, c, p);
    TripleLeft23(a, b, c, p);
    TripleLeft24(a, b, c, p);
    TripleLeft31(a, b, c, p);
    TripleLeft32(a, b, c, p);
    TripleLeft33(a, b, c, p);
    TripleLeft34(a, b, c, p);
    TripleLeft41(a, b, c, p);
    TripleLeft42(a, b, c, p);
    TripleLeft43(a, b, c, p);
    TripleLeft44(a, b, c, p);
  }

  /** `a` times `q` has the entries of the triple product `a b c`. */
  predicate IsTripleRight(a: Matrix4, b: Matrix4, c: Matrix4, q: Matrix4) {
    a.m11 * q.m11 + a.m12 * q.m21 + a.m13 * q.m31 + a.m14 * q.m41
      == a.m11 * b.m11 * c.m11 + a.m12 * b.m21 * c.m11 + a.m13 * b.m31 * c.m11 + a.m14 * b.m41 * c.m11
         + a.m11 * b.m12 * c.m21 + a.m12 * b.m22 * c.m21 + a.m13 * b.m32 * c.m21 + a.m14 * b.m42 * c.m21
         + a.m11 * b.m13 * c.m31 + a.m12 * b.m23 * c.m31 + a.m13 * b.m33 * c.m31 + a.m14 * b.m43 * c.m31
         + a.m11 * b.m14 * c.m41 + a.m12 * b.m24 * c.m41 + a.m13 * b.m34 * c.m41 + a.m14 * b.m44 * c.m41 &&
    a.m11 * q.m12 + a.m12 * q.m22 + a.m13 * q.m32 + a.m14 * q.m42
      == a.m11 * b.m11 * c.m12 + a.m12 * b.m21 * c.m12 + a.m13 * b.m31 * c.m12 + a.m14 * b.m41 * c.m12
         + a.m11 * b.m12 * c.m22 + a.m12 * b.m22 * c.m22 + a.m13 * b.m32 * c.m22 + a.m14 * b.m42 * c.m22
         + a.m11 * b.m13 * c.m32 + a.m12 * b.m23 * c.m32 + a.m13 * b.m33 * c.m32 + a.m14 * b.m43 * c.m32
         + a.m11 * b.m14 * c.m42 + a.m12 * b.m24 * c.m42 + a.m13 * b.m34 * c.m42 + a.m14 * b.m44 * c.m42 &&
    a.m11 * q.m13 + a.m12 * q.m23 + a.m13 * q.m33 + a.m14 * q.m43
      == a.m11 * b.m11 * c.m13 + a.m12 * b.m21 * c.m13 + a.m13 * b.m31 * c.m13 + a.m14 * b.m41 * c.m13
         + a.m11 * b.m12 * c.m23 + a.m12 * b.m22 * c.m23 + a.m13 * b.m32 * c.m23 + a.m14 * b.m42 * c.m23
         + a.m11 * b.m13 * c.m33 + a.m12 * b.m23 * c.m33 + a.m13 * b.m33 * c.m33 + a.m14 * b.m43 * c.m33
         + a.m11 * b.m14 * c.m43 + a.m12 * b.m24 * c.m43 + a.m13 * b.m34 * c.m43 + a.m14 * b.m44 * c.m43 &&
    a.m11 * q.m14 + a.m12 * q.m24 + a.m13 * q.m34 + a.m14 * q.m44
      == a.m11 * b.m11 * c.m14 + a.m12 * b.m21 * c.m14 + a.m13 * b.m31 * c.m14 + a.m14 * b.m41 * c.m14
         + a.m11 * b.m12 * c.m24 + a.m12 * b.m22 * c.m24 + a.m13 * b.m32 * c.m24 + a.m14 * b.m42 * c.m24
         + a.m11 * b.m13 * c.m34 + a.m12 * b.m23 * c.m34 + a.m13 * b.m33 * c.m34 + a.m14 * b.m43 * c.m34
         + a.m11 * b.m14 * c.m44 + a.m12 * b.m24 * c.m44 + a.m13 * b.m34 * c.m44 + a.m14 * b.m44 * c.m44 &&
    a.m21 * q.m11 + a.m22 * q.m21 + a.m23 * q.m31 + a.m24 * q.m41
      == a.m21 * b.m11 * c.m11 + a.m22 * b.m21 * c.m11 + a.m23 * b.m31 * c.m11 + a.m24 * b.m41 * c.m11
         + a.m21 * b.m12 * c.m21 + a.m22 * b.m22 * c.m21 + a.m23 * b.m32 * c.m21 + a.m24 * b.m42 * c.m21
         + a.m21 * b.m13 * c.m31 + a.m22 * b.m23 * c.m31 + a.m23 * b.m33 * c.m31 + a.m24 * b.m43 * c.m31
         + a.m21 * b.m14 * c.m41 + a.m22 * b.m24 * c.m41 + a.m23 * b.m34 * c.m41 + a.m24 * b.m44 * c.m41 &&
    a.m21 * q.m12 + a.m22 * q.m22 + a.m23 * q.m32 + a.m24 * q.m42
      == a.m21 * b.m11 * c.m12 + a.m22 * b.m21 * c.m12 + a.m23 * b.m31 * c.m12 + a.m24 * b.m41 * c.m12
         + a.m21 * b.m12 * c.m22 + a.m22 * b.m22 * c.m22 + a.m23 * b.m32 * c.m22 + a.m24 * b.m42 * c.m22
         + a.m21 * b.m13 * c.m32 + a.m22 * b.m23 * c.m32 + a.m23 * b.m33 * c.m32 + a.m24 * b.m43 * c.m32
         + a.m21 * b.m14 * c.m42 + a.m22 * b.m24 * c.m42 + a.m23 * b.m34 * c.m42 + a.m24 * b.m44 * c.m42 &&
    a.m21 * q.m13 + a.m22 * q.m23 + a.m23 * q.m33 + a.m24 * q.m43
      == a.m21 * b.m11 * c.m13 + a.m22 * b.m21 * c.m13 + a.m23 * b.m31 * c.m13 + a.m24 * b.m41 * c.m13
         + a.m21 * b.m12 * c.m23 + a.m22 * b.m22 * c.m23 + a.m23 * b.m32 * c.m23 + a.m24 * b.m42 * c.m23
         + a.m21 * b.m13 * c.m33 + a.m22 * b.m23 * c.m33 + a.m23 * b.m33 * c.m33 + a.m24 * b.m43 * c.m33
         + a.m21 * b.m14 * c.m43 + a.m22 * b.m24 * c.m43 + a.m23 * b.m34 * c.m43 + a.m24 * b.m44 * c.m43 &&
    a.m21 * q.m14 + a.m22 * q.m24 + a.m23 * q.m34 + a.m24 * q.m44
      == a.m21 * b.m11 * c.m14 + a.m22 * b.m21 * c.m14 + a.m23 * b.m31 * c.m14 + a.m24 * b.m41 * c.m14
         + a.m21 * b.m12 * c.m24 + a.m22 * b.m22 * c.m24 + a.m23 * b.m32 * c.m24 + a.m24 * b.m42 * c.m24
         + a.m21 * b.m13 * c.m34 + a.m22 * b.m23 * c.m34 + a.m23 * b.m33 * c.m34 + a.m24 * b.m43 * c.m34
         + a.m21 * b.m14 * c.m44 + a.m22 * b.m24 * c.m44 + a.m23 * b.m34 * c.m44 + a.m24 * b.m44 * c.m44 &&
    a.m31 * q.m11 + a.m32 * q.m21 + a.m33 * q.m31 + a.m34 * q.m41
      == a.m31 * b.m11 * c.m11 + a.m32 * b.m21 * c.m11 + a.m33 * b.m31 * c.m11 + a.m34 * b.m41 * c.m11
         + a.m31 * b.m12 * c.m21 + a.m32 * b.m22 * c.m21 + a.m33 * b.m32 * c.m21 + a.m34 * b.m42 * c.m21
         + a.m31 * b.m13 * c.m31 + a.m32 * b.m23 * c.m31 + a.m33 * b.m33 * c.m31 + a.m34 * b.m43 * c.m31
         + a.m31 * b.m14 * c.m41 + a.m32 * b.m24 * c.m41 + a.m33 * b.m34 * c.m41 + a.m34 * b.m44 * c.m41 &&
    a.m31 * q.m12 + a.m32 * q.m22 + a.m33 * q.m32 + a.m34 * q.m42
      == a.m31 * b.m11 * c.m12 + a.m32 * b.m21 * c.m12 + a.m33 * b.m31 * c.m12 + a.m34 * b.m41 * c.m12
         + a.m31 * b.m12 * c.m22 + a.m32 * b.m22 * c.m22 + a.m33 * b.m32 * c.m22 + a.m34 * b.m42 * c.m22
         + a.m31 * b.m13 * c.m32 + a.m32 * b.m23 * c.m32 + a.m33 * b.m33 * c.m32 + a.m34 * b.m43 * c.m32
         + a.m31 * b.m14 * c.m42 + a.m32 * b.m24 * c.m42 + a.m33 * b.m34 * c.m42 + a.m34 * b.m44 * c.m42 &&
    a.m31 * q.m13 + a.m32 * q.m23 + a.m33 * q.m33 + a.m34 * q.m43
      == a.m31 * b.m11 * c.m13 + a.m32 * b.m21 * c.m13 + a.m33 * b.m31 * c.m13 + a.m34 * b.m41 * c.m13
         + a.m31 * b.m12 * c.m23 + a.m32 * b.m22 * c.m23 + a.m33 * b.m32 * c.m23 + a.m34 * b.m42 * c.m23
         + a.m31 * b.m13 * c.m33 + a.m32 * b.m23 * c.m33 + a.m33 * b.m33 * c.m33 + a.m34 * b.m43 * c.m33
         + a.m31 * b.m14 * c.m43 + a.m32 * b.m24 * c.m43 + a.m33 * b.m34 * c.m43 + a.m34 * b.m44 * c.m43 &&
    a.m31 * q.m14 + a.m32 * q.m24 + a.m33 * q.m34 + a.m34 * q.m44
      == a.m31 * b.m11 * c.m14 + a.m32 * b.m21 * c.m14 + a.m33 * b.m31 * c.m14 + a.m34 * b.m41 * c.m14
         + a.m31 * b.m12 * c.m24 + a.m32 * b.m22 * c.m24 + a.m33 * b.m32 * c.m24 + a.m34 * b.m42 * c.m24
         + a.m31 * b.m13 * c.m34 + a.m32 * b.m23 * c.m34 + a.m33 * b.m33 * c.m34 + a.m34 * b.m43 * c.m34
         + a.m31 * b.m14 * c.m44 + a.m32 * b.m24 * c.m44 + a.m33 * b.m34 * c.m44 + a.m34 * b.m44 * c.m44 &&
    a.m41 * q.m11 + a.m42 * q.m21 + a.m43 * q.m31 + a.m44 * q.m41
      == a.m41 * b.m11 * c.m11 + a.m42 * b.m21 * c.m11 + a.m43 * b.m31 * c.m11 + a.m44 * b.m41 * c.m11
         + a.m41 * b.m12 * c.m21 + a.m42 * b.m22 * c.m21 + a.m43 * b.m32 * c.m21 + a.m44 * b.m42 * c.m21
         + a.m41 * b.m13 * c.m31 + a.m42 * b.m23 * c.m31 + a.m43 * b.m33 * c.m31 + a.m44 * b.m43 * c.m31
         + a.m41 * b.m14 * c.m41 + a.m42 * b.m24 * c.m41 + a.m43 * b.m34 * c.m41 + a.m44 * b.m44 * c.m41 &&
    a.m41 * q.m12 + a.m42 * q.m22 + a.m43 * q.m32 + a.m44 * q.m42
      == a.m41 * b.m11 * c.m12 + a.m42 * b.m21 * c.m12 + a.m43 * b.m31 * c.m12 + a.m44 * b.m41 * c.m12
         + a.m41 * b.m12 * c.m22 + a.m42 * b.m22 * c.m22 + a.m43 * b.m32 * c.m22 + a.m44 * b.m42 * c.m22
         + a.m41 * b.m13 * c.m32 + a.m42 * b.m23 * c.m32 + a.m43 * b.m33 * c.m32 + a.m44 * b.m43 * c.m32
         + a.m41 * b.m14 * c.m42 + a.m42 * b.m24 * c.m42 + a.m43 * b.m34 * c.m42 + a.m44 * b.m44 * c.m42 &&
    a.m41 * q.m13 + a.m42 * q.m23 + a.m43 * q.m33 + a.m44 * q.m43
      == a.m41 * b.m11 * c.m13 + a.m42 * b.m21 * c.m13 + a.m43 * b.m31 * c.m13 + a.m44 * b.m41 * c.m13
         + a.m41 * b.m12 * c.m23 + a.m42 * b.m22 * c.m23 + a.m43 * b.m32 * c.m23 + a.m44 * b.m42 * c.m23
         + a.m41 * b.m13 * c.m33 + a.m42 * b.m23 * c.m33 + a.m43 * b.m33 * c.m33 + a.m44 * b.m43 * c.m33
         + a.m41 * b.m14 * c.m43 + a.m42 * b.m24 * c.m43 + a.m43 * b.m34 * c.m43 + a.m44 * b.m44 * c.m43 &&
    a.m41 * q.m14 + a.m42 * q.m24 + a.m43 * q.m34 + a.m44 * q.m44
      == a.m41 * b.m11 * c.m14 + a.m42 * b.m21 * c.m14 + a.m43 * b.m31 * c.m14 + a.m44 * b.m41 * c.m14
         + a.m41 * b.m12 * c.m24 + a.m42 * b.m22 * c.m24 + a.m43 * b.m32 * c.m24 + a.m44 * b.m42 * c.m24
         + a.m41 * b.m13 * c.m34 + a.m42 * b.m23 * c.m34 + a.m43 * b.m33 * c.m34 + a.m44 * b.m43 * c.m34
         + a.m41 * b.m14 * c.m44 + a.m42 * b.m24 * c.m44 + a.m43 * b.m34 * c.m44 + a.m44 * b.m44 * c.m44
  }

  /** `a` times `q` = `b c` is the triple product. */
  lemma TripleRight(a: Matrix4, b: Matrix4, c: Matrix4, q: Matrix4)
    requires IsProduct(b, c, q)
    ensures IsTripleRight(a, b, c, q)
  {
    TripleRight11(a, b, c, q);
    TripleRight12(a, b, c, q);
    TripleRight13(a, b, c, q);
    TripleRight14(a, b, c, q);
    TripleRight21(a, b, c, q);
    TripleRight22(a, b, c, q);
    TripleRight23(a, b, c, q);
    TripleRight24(a, b, c, q);
    TripleRight31(a, b, c, q);
    TripleRight32(a, b, c, q);
    TripleRight33(a, b, c, q);
    TripleRight34(a, b, c, q);
    TripleRight41(a, b, c, q);
    TripleRight42(a, b, c, q);
    TripleRight43(a, b, c, q);
    TripleRight44(a, b, c, q);
  }

  /** Matrix multiplication is associative: both groupings are the triple product. */
  lemma MulAssociative(a: Matrix4, b: Matrix4, c: Matrix4)
    ensures Mul(Mul(a, b), c) == Mul(a, Mul(b, c))
  {
    var p, q := Mul(a, b), Mul(b, c);
    MulIsProduct(a, b, p);
    MulIsProduct(b, c, q);
    TripleLeft(a, b, c, p);
    TripleRight(a, b, c, q);
    MulIsProduct(p, c, Mul(a, q));
  }

  /**
   * `c` is the adjugate of `a`: its entries are the numerators of the library's inverse formula.
   * This repeats `Adjugate` as sixteen equations for the solver;
   * AdjugateIsTransposedCofactors states each entry as a signed minor instead.
   */
  predicate IsAdjugate(a: Matrix4, c: Matrix4) {
    c.m11 == a.m22 * a.m33 * a.m44 + a.m23 * a.m34 * a.m42 + a.m24 * a.m32 * a.m43 - a.m22 * a.m34 * a.m43 - a.m23 * a.m32 * a.m44 - a.m24 * a.m33 * a.m42 &&
    c.m12 == a.m12 * a.m34 * a.m43 + a.m13 * a.m32 * a.m44 + a.m14 * a.m33 * a.m42 - a.m12 * a.m33 * a.m44 - a.m13 * a.m34 * a.m42 - a.m14 * a.m32 * a.m43 &&
    c.m13 == a.m12 * a.m23 * a.m44 + a.m13 * a.m24 * a.m42 + a.m14 * a.m22 * a.m43 - a.m12 * a.m24 * a.m43 - a.m13 * a.m22 * a.m44 - a.m14 * a.m23 * a.m42 &&
    c.m14 == a.m12 * a.m24 * a.m33 + a.m13 * a.m22 * a.m34 + a.m14 * a.m23 * a.m32 - a.m12 * a.m23 * a.m34 - a.m13 * a.m24 * a.m32 - a.m14 * a.m22 * a.m33 &&
    c.m21 == a.m21 * a.m34 * a.m43 + a.m23 * a.m31 * a.m44 + a.m24 * a.m33 * a.m41 - a.m21 * a.m33 * a.m44 - a.m23 * a.m34 * a.m41 - a.m24 * a.m31 * a.m43 &&
    c.m22 == a.m11 * a.m33 * a.m44 + a.m13 * a.m34 * a.m41 + a.m14 * a.m31 * a.m43 - a.m11 * a.m34 * a.m43 - a.m13 * a.m31 * a.m44 - a.m14 * a.m33 * a.m41 &&
    c.m23 == a.m11 * a.m24 * a.m43 + a.m13 * a.m21 * a.m44 + a.m14 * a.m23 * a.m41 - a.m11 * a.m23 * a.m44 - a.m13 * a.m24 * a.m41 - a.m14 * a.m21 * a.m43 &&
    c.m24 == a.m11 * a.m23 * a.m34 + a.m13 * a.m24 * a.m31 + a.m14 * a.m21 * a.m33 - a.m11 * a.m24 * a.m33 - a.m13 * a.m21 * a.m34 - a.m14 * a.m23 * a.m31 &&
    c.m31 == a.m21 * a.m32 * a.m44 + a.m22 * a.m34 * a.m41 + a.m24 * a.m31 * a.m42 - a.m21 * a.m34 * a.m42 - a.m22 * a.m31 * a.m44 - a.m24 * a.m32 * a.m41 &&
    c.m32 == a.m11 * a.m34 * a.m42 + a.m12 * a.m31 * a.m44 + a.m14 * a.m32 * a.m41 - a.m11 * a.m32 * a.m44 - a.m12 * a.m34 * a.m41 - a.m14 * a.m31 * a.m42 &&
    c.m33 == a.m11 * a.m22 * a.m44 + a.m12 * a.m24 * a.m41 + a.m14 * a.m21 * a.m42 - a.m11 * a.m24 * a.m42 - a.m12 * a.m21 * a.m44 - a.m14 * a.m22 * a.m41 &&
    c.m34 == a.m11 * a.m24 * a.m32 + a.m12 * a.m21 * a.m34 + a.m14 * a.m22 * a.m31 - a.m11 * a.m22 * a.m34 - a.m12 * a.m24 * a.m31 - a.m14 * a.m21 * a.m32 &&
    c.m41 == a.m21 * a.m33 * a.m42 + a.m22 * a.m31 * a.m43 + a.m23 * a.m32 * a.m41 - a.m21 * a.m32 * a.m43 - a.m22 * a.m33 * a.m41 - a.m23 * a.m31 * a.m42 &&
    c.m42 == a.m11 * a.m32 * a.m43 + a.m12 * a.m33 * a.m41 + a.m13 * a.m31 * a.m42 - a.m11 * a.m33 * a.m42 - a.m12 * a.m31 * a.m43 - a.m13 * a.m32 * a.m41 &&
    c.m43 == a.m11 * a.m23 * a.m42 + a.m12 * a.m21 * a.m43 + a.m13 * a.m22 * a.m41 - a.m11 * a.m22 * a.m43 - a.m12 * a.m23 * a.m41 - a.m13 * a.m21 * a.m42 &&
    c.m44 == a.m11 * a.m22 * a.m33 + a.m12 * a.m23 * a.m31 + a.m13 * a.m21 * a.m32 - a.m11 * a.m23 * a.m32 - a.m12 * a.m21 * a.m33 - a.m13 * a.m22 * a.m31
  }

  lemma AdjugateIsAdjugate(a: Matrix4)
    ensures IsAdjugate(a, Adjugate(a))
  {
  }

  /*
   * The adjugate theorem, entry by entry. CofactorRowIJ and CofactorColumnIJ
   * state entry `ij` of `a · adj(a)` and of `adj(a) · a` (the determinant on the
   * diagonal, zero elsewhere); they are solver plumbing, one degree-4 identity
   * per entry, for AdjugateRight and AdjugateLeft.
   */

  lemma CofactorRow11(a: Matrix4, c: Matrix4)
    requires IsAdjugate(a, c)
    ensures a.m11 * c.m11 + a.m12 * c.m21 + a.m13 * c.m31 + a.m14 * c.m41 == Det(a)
  {
    assert a.m11 * (a.m22 * a.m33 * a.m44 + a.m23 * a.m34 * a.m42 + a.m24 * a.m32 * a.m43 - a.m22 * a.m34 * a.m43 - a.m23 * a.m32 * a.m44 - a.m24 * a.m33 * a.m42)
        + a.m12 * (a.m21 * a.m34 * a.m43 + a.m23 * a.m31 * a.m44 + a.m24 * a.m33 * a.m41 - a.m21 * a.m33 * a.m44 - a.m23 * a.m34 * a.m41 - a.m24 * a.m31 * a.m43)
        + a.m13 * (a.m21 * a.m32 * a.m44 + a.m22 * a.m34 * a.m41 + a.m24 * a.m31 * a.m42 - a.m21 * a.m34 * a.m42 - a.m22 * a.m31 * a.m44 - a.m24 * a.m32 * a.m41)
        + a.m14 * (a.m21 * a.m33 * a.m42 + a.m22 * a.m31 * a.m43 + a.m23 * a.m32 * a.m41 - a.m21 * a.m32 * a.m43 - a.m22 * a.m33 * a.m41 - a.m23 * a.m31 * a.m42)
        == Det(a);
  }

  lemma CofactorColumn11(a: Matrix4, c: Matrix4)
    requires IsAdjugate(a, c)
    ensures c.m11 * a.m11 + c.m12 * a.m21 + c.m13 * a.m31 + c.m14 * a.m41 == Det(a)
  {
    assert (a.m22 * a.m33 * a.m44 + a.m23 * a.m34 * a.m42 + a.m24 * a.m32 * a.m43 - a.m22 * a.m34 * a.m43 - a.m23 * a.m32 * a.m44 - a.m24 * a.m33 * a.m42) * a.m11
        + (a.m12 * a.m34 * a.m43 + a.m13 * a.m32 * a.m44 + a.m14 * a.m33 * a.m42 - a.m12 * a.m33 * a.m44 - a.m13 * a.m34 * a.m42 - a.m14 * a.m32 * a.m43) * a.m21
        + (a.m12 * a.m23 * a.m44 + a.m13 * a.m24 * a.m42 + a.m14 * a.m22 * a.m43 - a.m12 * a.m24 * a.m43 - a.m13 * a.m22 * a.m44 - a.m14 * a.m23 * a.m42) * a.m31
        + (a.m12 * a.m24 * a.m33 + a.m13 * a.m22 * a.m34 + a.m14 * a.m23 * a.m32 - a.m12 * a.m23 * a.m34 - a.m13 * a.m24 * a.m32 - a.m14 * a.m22 * a.m33) * a.m41
        == Det(a);
  }

  lemma CofactorRow12(a: Matrix4, c: Matrix4)
    requires IsAdjugate(a, c)
    ensures a.m11 * c.m12 + a.m12 * c.m22 + a.m13 * c.m32 + a.m14 * c.m42 == 0.0
  {
    assert a.m11 * (a.m12 * a.m34 * a.m43 + a.m13 * a.m32 * a.m44 + a.m14 * a.m33 * a.m42 - a.m12 * a.m33 * a.m44 - a.m13 * a.m34 * a.m42 - a.m14 * a.m32 * a.m43)
        + a.m12 * (a.m11 * a.m33 * a.m44 + a.m13 * a.m34 * a.m41 + a.m14 * a.m31 * a.m43 - a.m11 * a.m34 * a.m43 - a.m13 * a.m31 * a.m44 - a.m14 * a.m33 * a.m41)
        + a.m13 * (a.m11 * a.m34 * a.m42 + a.m12 * a.m31 * a.m44 + a.m14 * a.m32 * a.m41 - a.m11 * a.m32 * a.m44 - a.m12 * a.m34 * a.m41 - a.m14 * a.m31 * a.m42)
        + a.m14 * (a.m11 * a.m32 * a.m43 + a.m12 * a.m33 * a.m41 + a.m13 * a.m31 * a.m42 - a.m11 * a.m33 * a.m42 - a.m12 * a.m31 * a.m43 - a.m13 * a.m32 * a.m41)
        == 0.0;
  }

  lemma CofactorColumn12(a: Matrix4, c: Matrix4)
    requires IsAdjugate(a, c)
    ensures c.m11 * a.m12 + c.m12 * a.m22 + c.m13 * a.m32 + c.m14 * a.m42 == 0.0
  {
    assert (a.m22 * a.m33 * a.m44 + a.m23 * a.m34 * a.m42 + a.m24 * a.m32 * a.m43 - a.m22 * a.m34 * a.m43 - a.m23 * a.m32 * a.m44 - a.m24 * a.m33 * a.m42) * a.m12
        + (a.m12 * a.m34 * a.m43 + a.m13 * a.m32 * a.m44 + a.m14 * a.m33 * a.m42 - a.m12 * a.m33 * a.m44 - a.m13 * a.m34 * a.m42 - a.m14 * a.m32 * a.m43) * a.m22
        + (a.m12 * a.m23 * a.m44 + a.m13 * a.m24 * a.m42 + a.m14 * a.m22 * a.m43 - a.m12 * a.m24 * a.m43 - a.m13 * a.m22 * a.m44 - a.m14 * a.m23 * a.m42) * a.m32
        + (a.m12 * a.m24 * a.m33 + a.m13 * a.m22 * a.m34 + a.m14 * a.m23 * a.m32 - a.m12 * a.m23 * a.m34 - a.m13 * a.m24 * a.m32 - a.m14 * a.m22 * a.m33) * a.m42
        == 0.0;
  }

  lemma CofactorRow13(a: Matrix4, c: Matrix4)
    requires IsAdjugate(a, c)
    ensures a.m11 * c.m13 + a.m12 * c.m23 + a.m13 * c.m33 + a.m14 * c.m43 == 0.0
  {
    assert a.m11 * (a.m12 * a.m23 * a.m44 + a.m13 * a.m24 * a.m42 + a.m14 * a.m22 * a.m43 - a.m12 * a.m24 * a.m43 - a.m13 * a.m22 * a.m44 - a.m14 * a.m23 * a.m42)
        + a.m12 * (a.m11 * a.m24 * a.m43 + a.m13 * a.m21 * a.m44 + a.m14 * a.m23 * a.m41 - a.m11 * a.m23 * a.m44 - a.m13 * a.m24 * a.m41 - a.m14 * a.m21 * a.m43)
        + a.m13 * (a.m11 * a.m22 * a.m44 + a.m12 * a.m24 * a.m41 + a.m14 * a.m21 * a.m42 - a.m11 * a.m24 * a.m42 - a.m12 * a.m21 * a.m44 - a.m14 * a.m22 * a.m41)
        + a.m14 * (a.m11 * a.m23 * a.m42 + a.m12 * a.m21 * a.m43 + a.m13 * a.m22 * a.m41 - a.m11 * a.m22 * a.m43 - a.m12 * a.m23 * a.m41 - a.m13 * a.m21 * a.m42)
        == 0.0;
  }

  lemma CofactorColumn13(a: Matrix4, c: Matrix4)
    requires IsAdjugate(a, c)
    ensures c.m11 * a.m13 + c.m12 * a.m23 + c.m13 * a.m33 + c.m14 * a.m43 == 0.0
  {
    assert (a.m22 * a.m33 * a.m44 + a.m23 * a.m34 * a.m42 + a.m24 * a.m32 * a.m43 - a.m22 * a.m34 * a.m43 - a.m23 * a.m32 * a.m44 - a.m24 * a.m33 * a.m42) * a.m13
        + (a.m12 * a.m34 * a.m43 + a.m13 * a.m32 * a.m44 + a.m14 * a.m33 * a.m42 - a.m12 * a.m33 * a.m44 - a.m13 * a.m34 * a.m42 - a.m14 * a.m32 * a.m43) * a.m23
        + (a.m12 * a.m23 * a.m44 + a.m13 * a.m24 * a.m42 + a.m14 * a.m22 * a.m43 - a.m12 * a.m24 * a.m43 - a.m13 * a.m22 * a.m44 - a.m14 * a.m23 * a.m42) * a.m33
        + (a.m12 * a.m24 * a.m33 + a.m13 * a.m22 * a.m34 + a.m14 * a.m23 * a.m32 - a.m12 * a.m23 * a.m34 - a.m13 * a.m24 * a.m32 - a.m14 * a.m22 * a.m33) * a.m43
        == 0.0;
  }

  lemma CofactorRow14(a: Matrix4, c: Matrix4)
    requires IsAdjugate(a, c)
    ensures a.m11 * c.m14 + a.m12 * c.m24 + a.m13 * c.m34 + a.m14 * c.m44 == 0.0
  {
    assert a.m11 * (a.m12 * a.m24 * a.m33 + a.m13 * a.m22 * a.m34 + a.m14 * a.m23 * a.m32 - a.m12 * a.m23 * a.m34 - a.m13 * a.m24 * a.m32 - a.m14 * a.m22 * a.m33)
        + a.m12 * (a.m11 * a.m23 * a.m34 + a.m13 * a.m24 * a.m31 + a.m14 * a.m21 * a.m33 - a.m11 * a.m24 * a.m33 - a.m13 * a.m21 * a.m34 - a.m14 * a.m23 * a.m31)
        + a.m13 * (a.m11 * a.m24 * a.m32 + a.m12 * a.m21 * a.m34 + a.m14 * a.m22 * a.m31 - a.m11 * a.m22 * a.m34 - a.m12 * a.m24 * a.m31 - a.m14 * a.m21 * a.m32)
        + a.m14 * (a.m11 * a.m22 * a.m33 + a.m12 * a.m23 * a.m31 + a.m13 * a.m21 * a.m32 - a.m11 * a.m23 * a.m32 - a.m12 * a.m21 * a.m33 - a.m13 * a.m22 * a.m31)
        == 0.0;
  }

  lemma CofactorColumn14(a: Matrix4, c: Matrix4)
    requires IsAdjugate(a, c)
    ensures c.m11 * a.m14 + c.m12 * a.m24 + c.m13 * a.m34 + c.m14 * a.m44 == 0.0
  {
    assert (a.m22 * a.m33 * a.m44 + a.m23 * a.m34 * a.m42 + a.m24 * a.m32 * a.m43 - a.m22 * a.m34 * a.m43 - a.m23 * a.m32 * a.m44 - a.m24 * a.m33 * a.m42) * a.m14
        + (a.m12 * a.m34 * a.m43 + a.m13 * a.m32 * a.m44 + a.m14 * a.m33 * a.m42 - a.m12 * a.m33 * a.m44 - a.m13 * a.m34 * a.m42 - a.m14 * a.m32 * a.m43) * a.m24
        + (a.m12 * a.m23 * a.m44 + a.m13 * a.m24 * a.m42 + a.m14 * a.m22 * a.m43 - a.m12 * a.m24 * a.m43 - a.m13 * a.m22 * a.m44 - a.m14 * a.m23 * a.m42) * a.m34
        + (a.m12 * a.m24 * a.m33 + a.m13 * a.m22 * a.m34 + a.m14 * a.m23 * a.m32 - a.m12 * a.m23 * a.m34 - a.m13 * a.m24 * a.m32 - a.m14 * a.m22 * a.m33) * a.m44
        == 0.0;
  }

  lemma CofactorRow21(a: Matrix4, c: Matrix4)
    requires IsAdjugate(a, c)
    ensures a.m21 * c.m11 + a.m22 * c.m21 + a.m23 * c.m31 + a.m24 * c.m41 == 0.0
  {
    assert a.m21 * (a.m22 * a.m33 * a.m44 + a.m23 * a.m34 * a.m42 + a.m24 * a.m32 * a.m43 - a.m22 * a.m34 * a.m43 - a.m23 * a.m32 * a.m44 - a.m24 * a.m33 * a.m42)
        + a.m22 * (a.m21 * a.m34 * a.m43 + a.m23 * a.m31 * a.m44 + a.m24 * a.m33 * a.m41 - a.m21 * a.m33 * a.m44 - a.m23 * a.m34 * a.m41 - a.m24 * a.m31 * a.m43)
        + a.m23 * (a.m21 * a.m32 * a.m44 + a.m22 * a.m34 * a.m41 + a.m24 * a.m31 * a.m42 - a.m21 * a.m34 * a.m42 - a.m22 * a.m31 * a.m44 - a.m24 * a.m32 * a.m41)
        + a.m24 * (a.m21 * a.m33 * a.m42 + a.m22 * a.m31 * a.m43 + a.m23 * a.m32 * a.m41 - a.m21 * a.m32 * a.m43 - a.m22 * a.m33 * a.m41 - a.m23 * a.m31 * a.m42)
        == 0.0;
  }

  lemma CofactorColumn21(a: Matrix4, c: Matrix4)
    requires IsAdjugate(a, c)
    ensures c.m21 * a.m11 + c.m22 * a.m21 + c.m23 * a.m31 + c.m24 * a.m41 == 0.0
  {
    assert (a.m21 * a.m34 * a.m43 + a.m23 * a.m31 * a.m44 + a.m24 * a.m33 * a.m41 - a.m21 * a.m33 * a.m44 - a.m23 * a.m34 * a.m41 - a.m24 * a.m31 * a.m43) * a.m11
        + (a.m11 * a.m33 * a.m44 + a.m13 * a.m34 * a.m41 + a.m14 * a.m31 * a.m43 - a.m11 * a.m34 * a.m43 - a.m13 * a.m31 * a.m44 - a.m14 * a.m33 * a.m41) * a.m21
        + (a.m11 * a.m24 * a.m43 + a.m13 * a.m21 * a.m44 + a.m14 * a.m23 * a.m41 - a.m11 * a.m23 * a.m44 - a.m13 * a.m24 * a.m41 - a.m14 * a.m21 * a.m43) * a.m31
        + (a.m11 * a.m23 * a.m34 + a.m13 * a.m24 * a.m31 + a.m14 * a.m21 * a.m33 - a.m11 * a.m24 * a.m33 - a.m13 * a.m21 * a.m34 - a.m14 * a.m23 * a.m31) * a.m41
        == 0.0;
  }

  lemma CofactorRow22(a: Matrix4, c: Matrix4)
    requires IsAdjugate(a, c)
    ensures a.m21 * c.m12 + a.m22 * c.m22 + a.m23 * c.m32 + a.m24 * c.m42 == Det(a)
  {
    assert a.m21 * (a.m12 * a.m34 * a.m43 + a.m13 * a.m32 * a.m44 + a.m14 * a.m33 * a.m42 - a.m12 * a.m33 * a.m44 - a.m13 * a.m34 * a.m42 - a.m14 * a.m32 * a.m43)
        + a.m22 * (a.m11 * a.m33 * a.m44 + a.m13 * a.m34 * a.m41 + a.m14 * a.m31 * a.m43 - a.m11 * a.m34 * a.m43 - a.m13 * a.m31 * a.m44 - a.m14 * a.m33 * a.m41)
        + a.m23 * (a.m11 * a.m34 * a.m42 + a.m12 * a.m31 * a.m44 + a.m14 * a.m32 * a.m41 - a.m11 * a.m32 * a.m44 - a.m12 * a.m34 * a.m41 - a.m14 * a.m31 * a.m42)
        + a.m24 * (a.m11 * a.m32 * a.m43 + a.m12 * a.m33 * a.m41 + a.m13 * a.m31 * a.m42 - a.m11 * a.m33 * a.m42 - a.m12 * a.m31 * a.m43 - a.m13 * a.m32 * a.m41)
        == Det(a);
  }

  lemma CofactorColumn22(a: Matrix4, c: Matrix4)
    requires IsAdjugate(a, c)
    ensures c.m21 * a.m12 + c.m22 * a.m22 + c.m23 * a.m32 + c.m24 * a.m42 == Det(a)
  {
    assert (a.m21 * a.m34 * a.m43 + a.m23 * a.m31 * a.m44 + a.m24 * a.m33 * a.m41 - a.m21 * a.m33 * a.m44 - a.m23 * a.m34 * a.m41 - a.m24 * a.m31 * a.m43) * a.m12
        + (a.m11 * a.m33 * a.m44 + a.m13 * a.m34 * a.m41 + a.m14 * a.m31 * a.m43 - a.m11 * a.m34 * a.m43 - a.m13 * a.m31 * a.m44 - a.m14 * a.m33 * a.m41) * a.m22
        + (a.m11 * a.m24 * a.m43 + a.m13 * a.m21 * a.m44 + a.m14 * a.m23 * a.m41 - a.m11 * a.m23 * a.m44 - a.m13 * a.m24 * a.m41 - a.m14 * a.m21 * a.m43) * a.m32
        + (a.m11 * a.m23 * a.m34 + a.m13 * a.m24 * a.m31 + a.m14 * a.m21 * a.m33 - a.m11 * a.m24 * a.m33 - a.m13 * a.m21 * a.m34 - a.m14 * a.m23 * a.m31) * a.m42
        == Det(a);
  }

  lemma CofactorRow23(a: Matrix4, c: Matrix4)
    requires IsAdjugate(a, c)
    ensures a.m21 * c.m13 + a.m22 * c.m23 + a.m23 * c.m33 + a.m24 * c.m43 == 0.0
  {
    assert a.m21 * (a.m12 * a.m23 * a.m44 + a.m13 * a.m24 * a.m42 + a.m14 * a.m22 * a.m43 - a.m12 * a.m24 * a.m43 - a.m13 * a.m22 * a.m44 - a.m14 * a.m23 * a.m42)
        + a.m22 * (a.m11 * a.m24 * a.m43 + a.m13 * a.m21 * a.m44 + a.m14 * a.m23 * a.m41 - a.m11 * a.m23 * a.m44 - a.m13 * a.m24 * a.m41 - a.m14 * a.m21 * a.m43)
        + a.m23 * (a.m11 * a.m22 * a.m44 + a.m12 * a.m24 * a.m41 + a.m14 * a.m21 * a.m42 - a.m11 * a.m24 * a.m42 - a.m12 * a.m21 * a.m44 - a.m14 * a.m22 * a.m41)
        + a.m24 * (a.m11 * a.m23 * a.m42 + a.m12 * a.m21 * a.m43 + a.m13 * a.m22 * a.m41 - a.m11 * a.m22 * a.m43 - a.m12 * a.m23 * a.m41 - a.m13 * a.m21 * a.m42)
        == 0.0;
  }

  lemma CofactorColumn23(a: Matrix4, c: Matrix4)
    requires IsAdjugate(a, c)
    ensures c.m21 * a.m13 + c.m22 * a.m23 + c.m23 * a.m33 + c.m24 * a.m43 == 0.0
  {
    assert (a.m21 * a.m34 * a.m43 + a.m23 * a.m31 * a.m44 + a.m24 * a.m33 * a.m41 - a.m21 * a.m33 * a.m44 - a.m23 * a.m34 * a.m41 - a.m24 * a.m31 * a.m43) * a.m13
        + (a.m11 * a.m33 * a.m44 + a.m13 * a.m34 * a.m41 + a.m14 * a.m31 * a.m43 - a.m11 * a.m34 * a.m43 - a.m13 * a.m31 * a.m44 - a.m14 * a.m33 * a.m41) * a.m23
        + (a.m11 * a.m24 * a.m43 + a.m13 * a.m21 * a.m44 + a.m14 * a.m23 * a.m41 - a.m11 * a.m23 * a.m44 - a.m13 * a.m24 * a.m41 - a.m14 * a.m21 * a.m43) * a.m33
        + (a.m11 * a.m23 * a.m34 + a.m13 * a.m24 * a.m31 + a.m14 * a.m21 * a.m33 - a.m11 * a.m24 * a.m33 - a.m13 * a.m21 * a.m34 - a.m14 * a.m23 * a.m31) * a.m43
        == 0.0;
  }

  lemma CofactorRow24(a: Matrix4, c: Matrix4)
    requires IsAdjugate(a, c)
    ensures a.m21 * c.m14 + a.m22 * c.m24 + a.m23 * c.m34 + a.m24 * c.m44 == 0.0
  {
    assert a.m21 * (a.m12 * a.m24 * a.m33 + a.m13 * a.m22 * a.m34 + a.m14 * a.m23 * a.m32 - a.m12 * a.m23 * a.m34 - a.m13 * a.m24 * a.m32 - a.m14 * a.m22 * a.m33)
        + a.m22 * (a.m11 * a.m23 * a.m34 + a.m13 * a.m24 * a.m31 + a.m14 * a.m21 * a.m33 - a.m11 * a.m24 * a.m33 - a.m13 * a.m21 * a.m34 - a.m14 * a.m23 * a.m31)
        + a.m23 * (a.m11 * a.m24 * a.m32 + a.m12 * a.m21 * a.m34 + a.m14 * a.m22 * a.m31 - a.m11 * a.m22 * a.m34 - a.m12 * a.m24 * a.m31 - a.m14 * a.m21 * a.m32)
        + a.m24 * (a.m11 * a.m22 * a.m33 + a.m12 * a.m23 * a.m31 + a.m13 * a.m21 * a.m32 - a.m11 * a.m23 * a.m32 - a.m12 * a.m21 * a.m33 - a.m13 * a.m22 * a.m31)
        == 0.0;
  }

  lemma CofactorColumn24(a: Matrix4, c: Matrix4)
    requires IsAdjugate(a, c)
    ensures c.m21 * a.m14 + c.m22 * a.m24 + c.m23 * a.m34 + c.m24 * a.m44 == 0.0
  {
    assert (a.m21 * a.m34 * a.m43 + a.m23 * a.m31 * a.m44 + a.m24 * a.m33 * a.m41 - a.m21 * a.m33 * a.m44 - a.m23 * a.m34 * a.m41 - a.m24 * a.m31 * a.m43) * a.m14
        + (a.m11 * a.m33 * a.m44 + a.m13 * a.m34 * a.m41 + a.m14 * a.m31 * a.m43 - a.m11 * a.m34 * a.m43 - a.m13 * a.m31 * a.m44 - a.m14 * a.m33 * a.m41) * a.m24
        + (a.m11 * a.m24 * a.m43 + a.m13 * a.m21 * a.m44 + a.m14 * a.m23 * a.m41 - a.m11 * a.m23 * a.m44 - a.m13 * a.m24 * a.m41 - a.m14 * a.m21 * a.m43) * a.m34
        + (a.m11 * a.m23 * a.m34 + a.m13 * a.m24 * a.m31 + a.m14 * a.m21 * a.m33 - a.m11 * a.m24 * a.m33 - a.m13 * a.m21 * a.m34 - a.m14 * a.m23 * a.m31) * a.m44
        == 0.0;
  }

  lemma CofactorRow31(a: Matrix4, c: Matrix4)
    requires IsAdjugate(a, c)
    ensures a.m31 * c.m11 + a.m32 * c.m21 + a.m33 * c.m31 + a.m34 * c.m41 == 0.0
  {
    assert a.m31 * (a.m22 * a.m33 * a.m44 + a.m23 * a.m34 * a.m42 + a.m24 * a.m32 * a.m43 - a.m22 * a.m34 * a.m43 - a.m23 * a.m32 * a.m44 - a.m24 * a.m33 * a.m42)
        + a.m32 * (a.m21 * a.m34 * a.m43 + a.m23 * a.m31 * a.m44 + a.m24 * a.m33 * a.m41 - a.m21 * a.m33 * a.m44 - a.m23 * a.m34 * a.m41 - a.m24 * a.m31 * a.m43)
        + a.m33 * (a.m21 * a.m32 * a.m44 + a.m22 * a.m34 * a.m41 + a.m24 * a.m31 * a.m42 - a.m21 * a.m34 * a.m42 - a.m22 * a.m31 * a.m44 - a.m24 * a.m32 * a.m41)
        + a.m34 * (a.m21 * a.m33 * a.m42 + a.m22 * a.m31 * a.m43 + a.m23 * a.m32 * a.m41 - a.m21 * a.m32 * a.m43 - a.m22 * a.m33 * a.m41 - a.m23 * a.m31 * a.m42)
        == 0.0;
  }

  lemma CofactorColumn31(a: Matrix4, c: Matrix4)
    requires IsAdjugate(a, c)
    ensures c.m31 * a.m11 + c.m32 * a.m21 + c.m33 * a.m31 + c.m34 * a.m41 == 0.0
  {
    assert (a.m21 * a.m32 * a.m44 + a.m22 * a.m34 * a.m41 + a.m24 * a.m31 * a.m42 - a.m21 * a.m34 * a.m42 - a.m22 * a.m31 * a.m44 - a.m24 * a.m32 * a.m41) * a.m11
        + (a.m11 * a.m34 * a.m42 + a.m12 * a.m31 * a.m44 + a.m14 * a.m32 * a.m41 - a.m11 * a.m32 * a.m44 - a.m12 * a.m34 * a.m41 - a.m14 * a.m31 * a.m42) * a.m21
        + (a.m11 * a.m22 * a.m44 + a.m12 * a.m24 * a.m41 + a.m14 * a.m21 * a.m42 - a.m11 * a.m24 * a.m42 - a.m12 * a.m21 * a.m44 - a.m14 * a.m22 * a.m41) * a.m31
        + (a.m11 * a.m24 * a.m32 + a.m12 * a.m21 * a.m34 + a.m14 * a.m22 * a.m31 - a.m11 * a.m22 * a.m34 - a.m12 * a.m24 * a.m31 - a.m14 * a.m21 * a.m32) * a.m41
        == 0.0;
  }

  lemma CofactorRow32(a: Matrix4, c: Matrix4)
    requires IsAdjugate(a, c)
    ensures a.m31 * c.m12 + a.m32 * c.m22 + a.m33 * c.m32 + a.m34 * c.m42 == 0.0
  {
    assert a.m31 * (a.m12 * a.m34 * a.m43 + a.m13 * a.m32 * a.m44 + a.m14 * a.m33 * a.m42 - a.m12 * a.m33 * a.m44 - a.m13 * a.m34 * a.m42 - a.m14 * a.m32 * a.m43)
        + a.m32 * (a.m11 * a.m33 * a.m44 + a.m13 * a.m34 * a.m41 + a.m14 * a.m31 * a.m43 - a.m11 * a.m34 * a.m43 - a.m13 * a.m31 * a.m44 - a.m14 * a.m33 * a.m41)
        + a.m33 * (a.m11 * a.m34 * a.m42 + a.m12 * a.m31 * a.m44 + a.m14 * a.m32 * a.m41 - a.m11 * a.m32 * a.m44 - a.m12 * a.m34 * a.m41 - a.m14 * a.m31 * a.m42)
        + a.m34 * (a.m11 * a.m32 * a.m43 + a.m12 * a.m33 * a.m41 + a.m13 * a.m31 * a.m42 - a.m11 * a.m33 * a.m42 - a.m12 * a.m31 * a.m43 - a.m13 * a.m32 * a.m41)
        == 0.0;
  }

  lemma CofactorColumn32(a: Matrix4, c: Matrix4)
    requires IsAdjugate(a, c)
    ensures c.m31 * a.m12 + c.m32 * a.m22 + c.m33 * a.m32 + c.m34 * a.m42 == 0.0
  {
    assert (a.m21 * a.m32 * a.m44 + a.m22 * a.m34 * a.m41 + a.m24 * a.m31 * a.m42 - a.m21 * a.m34 * a.m42 - a.m22 * a.m31 * a.m44 - a.m24 * a.m32 * a.m41) * a.m12
        + (a.m11 * a.m34 * a.m42 + a.m12 * a.m31 * a.m44 + a.m14 * a.m32 * a.m41 - a.m11 * a.m32 * a.m44 - a.m12 * a.m34 * a.m41 - a.m14 * a.m31 * a.m42) * a.m22
        + (a.m11 * a.m22 * a.m44 + a.m12 * a.m24 * a.m41 + a.m14 * a.m21 * a.m42 - a.m11 * a.m24 * a.m42 - a.m12 * a.m21 * a.m44 - a.m14 * a.m22 * a.m41) * a.m32
        + (a.m11 * a.m24 * a.m32 + a.m12 * a.m21 * a.m34 + a.m14 * a.m22 * a.m31 - a.m11 * a.m22 * a.m34 - a.m12 * a.m24 * a.m31 - a.m14 * a.m21 * a.m32) * a.m42
        == 0.0;
  }

  lemma CofactorRow33(a: Matrix4, c: Matrix4)
    requires IsAdjugate(a, c)
    ensures a.m31 * c.m13 + a.m32 * c.m23 + a.m33 * c.m33 + a.m34 * c.m43 == Det(a)
  {
    assert a.m31 * (a.m12 * a.m23 * a.m44 + a.m13 * a.m24 * a.m42 + a.m14 * a.m22 * a.m43 - a.m12 * a.m24 * a.m43 - a.m13 * a.m22 * a.m44 - a.m14 * a.m23 * a.m42)
        + a.m32 * (a.m11 * a.m24 * a.m43 + a.m13 * a.m21 * a.m44 + a.m14 * a.m23 * a.m41 - a.m11 * a.m23 * a.m44 - a.m13 * a.m24 * a.m41 - a.m14 * a.m21 * a.m43)
        + a.m33 * (a.m11 * a.m22 * a.m44 + a.m12 * a.m24 * a.m41 + a.m14 * a.m21 * a.m42 - a.m11 * a.m24 * a.m42 - a.m12 * a.m21 * a.m44 - a.m14 * a.m22 * a.m41)
        + a.m34 * (a.m11 * a.m23 * a.m42 + a.m12 * a.m21 * a.m43 + a.m13 * a.m22 * a.m41 - a.m11 * a.m22 * a.m43 - a.m12 * a.m23 * a.m41 - a.m13 * a.m21 * a.m42)
        == Det(a);
  }

  lemma CofactorColumn33(a: Matrix4, c: Matrix4)
    requires IsAdjugate(a, c)
    ensures c.m31 * a.m13 + c.m32 * a.m23 + c.m33 * a.m33 + c.m34 * a.m43 == Det(a)
  {
    assert (a.m21 * a.m32 * a.m44 + a.m22 * a.m34 * a.m41 + a.m24 * a.m31 * a.m42 - a.m21 * a.m34 * a.m42 - a.m22 * a.m31 * a.m44 - a.m24 * a.m32 * a.m41) * a.m13
        + (a.m11 * a.m34 * a.m42 + a.m12 * a.m31 * a.m44 + a.m14 * a.m32 * a.m41 - a.m11 * a.m32 * a.m44 - a.m12 * a.m34 * a.m41 - a.m14 * a.m31 * a.m42) * a.m23
        + (a.m11 * a.m22 * a.m44 + a.m12 * a.m24 * a.m41 + a.m14 * a.m21 * a.m42 - a.m11 * a.m24 * a.m42 - a.m12 * a.m21 * a.m44 - a.m14 * a.m22 * a.m41) * a.m33
        + (a.m11 * a.m24 * a.m32 + a.m12 * a.m21 * a.m34 + a.m14 * a.m22 * a.m31 - a.m11 * a.m22 * a.m34 - a.m12 * a.m24 * a.m31 - a.m14 * a.m21 * a.m32) * a.m43
        == Det(a);
  }

  lemma CofactorRow34(a: Matrix4, c: Matrix4)
    requires IsAdjugate(a, c)
    ensures a.m31 * c.m14 + a.m32 * c.m24 + a.m33 * c.m34 + a.m34 * c.m44 == 0.0
  {
    assert a.m31 * (a.m12 * a.m24 * a.m33 + a.m13 * a.m22 * a.m34 + a.m14 * a.m23 * a.m32 - a.m12 * a.m23 * a.m34 - a.m13 * a.m24 * a.m32 - a.m14 * a.m22 * a.m33)
        + a.m32 * (a.m11 * a.m23 * a.m34 + a.m13 * a.m24 * a.m31 + a.m14 * a.m21 * a.m33 - a.m11 * a.m24 * a.m33 - a.m13 * a.m21 * a.m34 - a.m14 * a.m23 * a.m31)
        + a.m33 * (a.m11 * a.m24 * a.m32 + a.m12 * a.m21 * a.m34 + a.m14 * a.m22 * a.m31 - a.m11 * a.m22 * a.m34 - a.m12 * a.m24 * a.m31 - a.m14 * a.m21 * a.m32)
        + a.m34 * (a.m11 * a.m22 * a.m33 + a.m12 * a.m23 * a.m31 + a.m13 * a.m21 * a.m32 - a.m11 * a.m23 * a.m32 - a.m12 * a.m21 * a.m33 - a.m13 * a.m22 * a.m31)
        == 0.0;
  }

  lemma CofactorColumn34(a: Matrix4, c: Matrix4)
    requires IsAdjugate(a, c)
    ensures c.m31 * a.m14 + c.m32 * a.m24 + c.m33 * a.m34 + c.m34 * a.m44 == 0.0
  {
    assert (a.m21 * a.m32 * a.m44 + a.m22 * a.m34 * a.m41 + a.m24 * a.m31 * a.m42 - a.m21 * a.m34 * a.m42 - a.m22 * a.m31 * a.m44 - a.m24 * a.m32 * a.m41) * a.m14
        + (a.m11 * a.m34 * a.m42 + a.m12 * a.m31 * a.m44 + a.m14 * a.m32 * a.m41 - a.m11 * a.m32 * a.m44 - a.m12 * a.m34 * a.m41 - a.m14 * a.m31 * a.m42) * a.m24
        + (a.m11 * a.m22 * a.m44 + a.m12 * a.m24 * a.m41 + a.m14 * a.m21 * a.m42 - a.m11 * a.m24 * a.m42 - a.m12 * a.m21 * a.m44 - a.m14 * a.m22 * a.m41) * a.m34
        + (a.m11 * a.m24 * a.m32 + a.m12 * a.m21 * a.m34 + a.m14 * a.m22 * a.m31 - a.m11 * a.m22 * a.m34 - a.m12 * a.m24 * a.m31 - a.m14 * a.m21 * a.m32) * a.m44
        == 0.0;
  }

  lemma CofactorRow41(a: Matrix4, c: Matrix4)
    requires IsAdjugate(a, c)
    ensures a.m41 * c.m11 + a.m42 * c.m21 + a.m43 * c.m31 + a.m44 * c.m41 == 0.0
  {
    assert a.m41 * (a.m22 * a.m33 * a.m44 + a.m23 * a.m34 * a.m42 + a.m24 * a.m32 * a.m43 - a.m22 * a.m34 * a.m43 - a.m23 * a.m32 * a.m44 - a.m24 * a.m33 * a.m42)
        + a.m42 * (a.m21 * a.m34 * a.m43 + a.m23 * a.m31 * a.m44 + a.m24 * a.m33 * a.m41 - a.m21 * a.m33 * a.m44 - a.m23 * a.m34 * a.m41 - a.m24 * a.m31 * a.m43)
        + a.m43 * (a.m21 * a.m32 * a.m44 + a.m22 * a.m34 * a.m41 + a.m24 * a.m31 * a.m42 - a.m21 * a.m34 * a.m42 - a.m22 * a.m31 * a.m44 - a.m24 * a.m32 * a.m41)
        + a.m44 * (a.m21 * a.m33 * a.m42 + a.m22 * a.m31 * a.m43 + a.m23 * a.m32 * a.m41 - a.m21 * a.m32 * a.m43 - a.m22 * a.m33 * a.m41 - a.m23 * a.m31 * a.m42)
        == 0.0;
  }

  lemma CofactorColumn41(a: Matrix4, c: Matrix4)
    requires IsAdjugate(a, c)
    ensures c.m41 * a.m11 + c.m42 * a.m21 + c.m43 * a.m31 + c.m44 * a.m41 == 0.0
  {
    assert (a.m21 * a.m33 * a.m42 + a.m22 * a.m31 * a.m43 + a.m23 * a.m32 * a.m41 - a.m21 * a.m32 * a.m43 - a.m22 * a.m33 * a.m41 - a.m23 * a.m31 * a.m42) * a.m11
        + (a.m11 * a.m32 * a.m43 + a.m12 * a.m33 * a.m41 + a.m13 * a.m31 * a.m42 - a.m11 * a.m33 * a.m42 - a.m12 * a.m31 * a.m43 - a.m13 * a.m32 * a.m41) * a.m21
        + (a.m11 * a.m23 * a.m42 + a.m12 * a.m21 * a.m43 + a.m13 * a.m22 * a.m41 - a.m11 * a.m22 * a.m43 - a.m12 * a.m23 * a.m41 - a.m13 * a.m21 * a.m42) * a.m31
        + (a.m11 * a.m22 * a.m33 + a.m12 * a.m23 * a.m31 + a.m13 * a.m21 * a.m32 - a.m11 * a.m23 * a.m32 - a.m12 * a.m21 * a.m33 - a.m13 * a.m22 * a.m31) * a.m41
        == 0.0;
  }

  lemma CofactorRow42(a: Matrix4, c: Matrix4)
    requires IsAdjugate(a, c)
    ensures a.m41 * c.m12 + a.m42 * c.m22 + a.m43 * c.m32 + a.m44 * c.m42 == 0.0
  {
    assert a.m41 * (a.m12 * a.m34 * a.m43 + a.m13 * a.m32 * a.m44 + a.m14 * a.m33 * a.m42 - a.m12 * a.m33 * a.m44 - a.m13 * a.m34 * a.m42 - a.m14 * a.m32 * a.m43)
        + a.m42 * (a.m11 * a.m33 * a.m44 + a.m13 * a.m34 * a.m41 + a.m14 * a.m31 * a.m43 - a.m11 * a.m34 * a.m43 - a.m13 * a.m31 * a.m44 - a.m14 * a.m33 * a.m41)
        + a.m43 * (a.m11 * a.m34 * a.m42 + a.m12 * a.m31 * a.m44 + a.m14 * a.m32 * a.m41 - a.m11 * a.m32 * a.m44 - a.m12 * a.m34 * a.m41 - a.m14 * a.m31 * a.m42)
        + a.m44 * (a.m11 * a.m32 * a.m43 + a.m12 * a.m33 * a.m41 + a.m13 * a.m31 * a.m42 - a.m11 * a.m33 * a.m42 - a.m12 * a.m31 * a.m43 - a.m13 * a.m32 * a.m41)
        == 0.0;
  }

  lemma CofactorColumn42(a: Matrix4, c: Matrix4)
    requires IsAdjugate(a, c)
    ensures c.m41 * a.m12 + c.m42 * a.m22 + c.m43 * a.m32 + c.m44 * a.m42 == 0.0
  {
    assert (a.m21 * a.m33 * a.m42 + a.m22 * a.m31 * a.m43 + a.m23 * a.m32 * a.m41 - a.m21 * a.m32 * a.m43 - a.m22 * a.m33 * a.m41 - a.m23 * a.m31 * a.m42) * a.m12
        + (a.m11 * a.m32 * a.m43 + a.m12 * a.m33 * a.m41 + a.m13 * a.m31 * a.m42 - a.m11 * a.m33 * a.m42 - a.m12 * a.m31 * a.m43 - a.m13 * a.m32 * a.m41) * a.m22
        + (a.m11 * a.m23 * a.m42 + a.m12 * a.m21 * a.m43 + a.m13 * a.m22 * a.m41 - a.m11 * a.m22 * a.m43 - a.m12 * a.m23 * a.m41 - a.m13 * a.m21 * a.m42) * a.m32
        + (a.m11 * a.m22 * a.m33 + a.m12 * a.m23 * a.m31 + a.m13 * a.m21 * a.m32 - a.m11 * a.m23 * a.m32 - a.m12 * a.m21 * a.m33 - a.m13 * a.m22 * a.m31) * a.m42
        == 0.0;
  }

  lemma CofactorRow43(a: Matrix4, c: Matrix4)
    requires IsAdjugate(a, c)
    ensures a.m41 * c.m13 + a.m42 * c.m23 + a.m43 * c.m33 + a.m44 * c.m43 == 0.0
  {
    assert a.m41 * (a.m12 * a.m23 * a.m44 + a.m13 * a.m24 * a.m42 + a.m14 * a.m22 * a.m43 - a.m12 * a.m24 * a.m43 - a.m13 * a.m22 * a.m44 - a.m14 * a.m23 * a.m42)
        + a.m42 * (a.m11 * a.m24 * a.m43 + a.m13 * a.m21 * a.m44 + a.m14 * a.m23 * a.m41 - a.m11 * a.m23 * a.m44 - a.m13 * a.m24 * a.m41 - a.m14 * a.m21 * a.m43)
        + a.m43 * (a.m11 * a.m22 * a.m44 + a.m12 * a.m24 * a.m41 + a.m14 * a.m21 * a.m42 - a.m11 * a.m24 * a.m42 - a.m12 * a.m21 * a.m44 - a.m14 * a.m22 * a.m41)
        + a.m44 * (a.m11 * a.m23 * a.m42 + a.m12 * a.m21 * a.m43 + a.m13 * a.m22 * a.m41 - a.m11 * a.m22 * a.m43 - a.m12 * a.m23 * a.m41 - a.m13 * a.m21 * a.m42)
        == 0.0;
  }

  lemma CofactorColumn43(a: Matrix4, c: Matrix4)
    requires IsAdjugate(a, c)
    ensures c.m41 * a.m13 + c.m42 * a.m23 + c.m43 * a.m33 + c.m44 * a.m43 == 0.0
  {
    assert (a.m21 * a.m33 * a.m42 + a.m22 * a.m31 * a.m43 + a.m23 * a.m32 * a.m41 - a.m21 * a.m32 * a.m43 - a.m22 * a.m33 * a.m41 - a.m23 * a.m31 * a.m42) * a.m13
        + (a.m11 * a.m32 * a.m43 + a.m12 * a.m33 * a.m41 + a.m13 * a.m31 * a.m42 - a.m11 * a.m33 * a.m42 - a.m12 * a.m31 * a.m43 - a.m13 * a.m32 * a.m41) * a.m23
        + (a.m11 * a.m23 * a.m42 + a.m12 * a.m21 * a.m43 + a.m13 * a.m22 * a.m41 - a.m11 * a.m22 * a.m43 - a.m12 * a.m23 * a.m41 - a.m13 * a.m21 * a.m42) * a.m33
        + (a.m11 * a.m22 * a.m33 + a.m12 * a.m23 * a.m31 + a.m13 * a.m21 * a.m32 - a.m11 * a.m23 * a.m32 - a.m12 * a.m21 * a.m33 - a.m13 * a.m22 * a.m31) * a.m43
        == 0.0;
  }

  lemma CofactorRow44(a: Matrix4, c: Matrix4)
    requires IsAdjugate(a, c)
    ensures a.m41 * c.m14 + a.m42 * c.m24 + a.m43 * c.m34 + a.m44 * c.m44 == Det(a)
  {
    assert a.m41 * (a.m12 * a.m24 * a.m33 + a.m13 * a.m22 * a.m34 + a.m14 * a.m23 * a.m32 - a.m12 * a.m23 * a.m34 - a.m13 * a.m24 * a.m32 - a.m14 * a.m22 * a.m33)
        + a.m42 * (a.m11 * a.m23 * a.m34 + a.m13 * a.m24 * a.m31 + a.m14 * a.m21 * a.m33 - a.m11 * a.m24 * a.m33 - a.m13 * a.m21 * a.m34 - a.m14 * a.m23 * a.m31)
        + a.m43 * (a.m11 * a.m24 * a.m32 + a.m12 * a.m21 * a.m34 + a.m14 * a.m22 * a.m31 - a.m11 * a.m22 * a.m34 - a.m12 * a.m24 * a.m31 - a.m14 * a.m21 * a.m32)
        + a.m44 * (a.m11 * a.m22 * a.m33 + a.m12 * a.m23 * a.m31 + a.m13 * a.m21 * a.m32 - a.m11 * a.m23 * a.m32 - a.m12 * a.m21 * a.m33 - a.m13 * a.m22 * a.m31)
        == Det(a);
  }

  lemma CofactorColumn44(a: Matrix4, c: Matrix4)
    requires IsAdjugate(a, c)
    ensures c.m41 * a.m14 + c.m42 * a.m24 + c.m43 * a.m34 + c.m44 * a.m44 == Det(a)
  {
    assert (a.m21 * a.m33 * a.m42 + a.m22 * a.m31 * a.m43 + a.m23 * a.m32 * a.m41 - a.m21 * a.m32 * a.m43 - a.m22 * a.m33 * a.m41 - a.m23 * a.m31 * a.m42) * a.m14
        + (a.m11 * a.m32 * a.m43 + a.m12 * a.m33 * a.m41 + a.m13 * a.m31 * a.m42 - a.m11 * a.m33 * a.m42 - a.m12 * a.m31 * a.m43 - a.m13 * a.m32 * a.m41) * a.m24
        + (a.m11 * a.m23 * a.m42 + a.m12 * a.m21 * a.m43 + a.m13 * a.m22 * a.m41 - a.m11 * a.m22 * a.m43 - a.m12 * a.m23 * a.m41 - a.m13 * a.m21 * a.m42) * a.m34
        + (a.m11 * a.m22 * a.m33 + a.m12 * a.m23 * a.m31 + a.m13 * a.m21 * a.m32 - a.m11 * a.m23 * a.m32 - a.m12 * a.m21 * a.m33 - a.m13 * a.m22 * a.m31) * a.m44
        == Det(a);
  }

  /** Cofactor expansion: a row of `a` times a column of the adjugate is the determinant on the diagonal and zero off it. */
  lemma AdjugateRight(a: Matrix4, c: Matrix4)
    requires IsAdjugate(a, c)
    ensures IsProduct(a, c, Scale(Det(a)))
  {
    CofactorRow11(a, c);
    CofactorRow12(a, c);
    CofactorRow13(a, c);
    CofactorRow14(a, c);
    CofactorRow21(a, c);
    CofactorRow22(a, c);
    CofactorRow23(a, c);
    CofactorRow24(a, c);
    CofactorRow31(a, c);
    CofactorRow32(a, c);
    CofactorRow33(a, c);
    CofactorRow34(a, c);
    CofactorRow41(a, c);
    CofactorRow42(a, c);
    CofactorRow43(a, c);
    CofactorRow44(a, c);
  }

  /** Cofactor expansion: a row of the adjugate times a column of `a` is the determinant on the diagonal and zero off it. */
  lemma AdjugateLeft(a: Matrix4, c: Matrix4)
    requires IsAdjugate(a, c)
    ensures IsProduct(c, a, Scale(Det(a)))
  {
    CofactorColumn11(a, c);
    CofactorColumn12(a, c);
    CofactorColumn13(a, c);
    CofactorColumn14(a, c);
    CofactorColumn21(a, c);
    CofactorColumn22(a, c);
    CofactorColumn23(a, c);
    CofactorColumn24(a, c);
    CofactorColumn31(a, c);
    CofactorColumn32(a, c);
    CofactorColumn33(a, c);
    CofactorColumn34(a, c);
    CofactorColumn41(a, c);
    CofactorColumn42(a, c);
    CofactorColumn43(a, c);
    CofactorColumn44(a, c);
  }

  /** The adjugate times the matrix, on either side, is the determinant on the diagonal. */
  lemma MulAdjugate(a: Matrix4)
    ensures Mul(a, Adjugate(a)) == Scale(Det(a))
    ensures Mul(Adjugate(a), a) == Scale(Det(a))
  {
    var c := Adjugate(a);
    AdjugateIsAdjugate(a);
    AdjugateRight(a, c);
    AdjugateLeft(a, c);
    MulIsProduct(a, c, Scale(Det(a)));
    MulIsProduct(c, a, Scale(Det(a)));
  }

  /** `r` times `n` is `f`, entry by entry. */
  predicate IsScaled(r: Matrix4, n: real, f: Matrix4) {
    r.m11 * n == f.m11 &&
    r.m12 * n == f.m12 &&
    r.m13 * n == f.m13 &&
    r.m14 * n == f.m14 &&
    r.m21 * n == f.m21 &&
    r.m22 * n == f.m22 &&
    r.m23 * n == f.m23 &&
    r.m24 * n == f.m24 &&
    r.m31 * n == f.m31 &&
    r.m32 * n == f.m32 &&
    r.m33 * n == f.m33 &&
    r.m34 * n == f.m34 &&
    r.m41 * n == f.m41 &&
    r.m42 * n == f.m42 &&
    r.m43 * n == f.m43 &&
    r.m44 * n == f.m44
  }

  /** Every entry of `f` divided by the non-zero `n`. */
  function DivideEntries(f: Matrix4, n: real): Matrix4
    requires n != 0.0
  {
    Matrix4(
      f.m11 / n, f.m12 / n, f.m13 / n, f.m14 / n,
      f.m21 / n, f.m22 / n, f.m23 / n, f.m24 / n,
      f.m31 / n, f.m32 / n, f.m33 / n, f.m34 / n,
      f.m41 / n, f.m42 / n, f.m43 / n, f.m44 / n)
  }

  /** Dividing by `n` is undone by multiplying by `n` again. */
  lemma DivideEntriesIsScaled(f: Matrix4, n: real)
    requires n != 0.0
    ensures IsScaled(DivideEntries(f, n), n, f)
  {
  }

  /**
   * Dividing a column by a non-zero `n` divides its product with a row by `n`:
   * if `r_k n = f_k` and `x . f = t n` then `x . r = t`.
   */
  lemma ScaledRow(x1: real, x2: real, x3: real, x4: real,
                  r1: real, r2: real, r3: real, r4: real,
                  f1: real, f2: real, f3: real, f4: real, n: real, t: real)
    requires n != 0.0
    requires r1 * n == f1 && r2 * n == f2 && r3 * n == f3 && r4 * n == f4
    requires x1 * f1 + x2 * f2 + x3 * f3 + x4 * f4 == t * n
    ensures x1 * r1 + x2 * r2 + x3 * r3 + x4 * r4 == t
  {
    assert n * (x1 * r1 + x2 * r2 + x3 * r3 + x4 * r4)
        == x1 * (r1 * n) + x2 * (r2 * n) + x3 * (r3 * n) + x4 * (r4 * n);
    Scalar.CancelNonZero(n, x1 * r1 + x2 * r2 + x3 * r3 + x4 * r4, t);
  }

  /** The same for a row divided by `n` times a column `x`. */
  lemma ScaledColumn(x1: real, x2: real, x3: real, x4: real,
                     r1: real, r2: real, r3: real, r4: real,
                     f1: real, f2: real, f3: real, f4: real, n: real, t: real)
    requires n != 0.0
    requires r1 * n == f1 && r2 * n == f2 && r3 * n == f3 && r4 * n == f4
    requires f1 * x1 + f2 * x2 + f3 * x3 + f4 * x4 == t * n
    ensures r1 * x1 + r2 * x2 + r3 * x3 + r4 * x4 == t
  {
    assert n * (r1 * x1 + r2 * x2 + r3 * x3 + r4 * x4)
        == (r1 * n) * x1 + (r2 * n) * x2 + (r3 * n) * x3 + (r4 * n) * x4;
    Scalar.CancelNonZero(n, r1 * x1 + r2 * x2 + r3 * x3 + r4 * x4, t);
  }

  /*
   * The inverse, entry by entry. UnitRowIJ and UnitColumnIJ show that entry
   * `ij` of `a · r` and of `r · a` is that of the identity, where `r` is the
   * adjugate with every entry divided by the determinant; they are solver
   * plumbing for UnitRight and UnitLeft.
   */

  lemma UnitRow11(a: Matrix4, c: Matrix4, r: Matrix4, d: real)
    requires d != 0.0 && IsScaled(r, d, c) && IsProduct(a, c, Scale(d))
    ensures a.m11 * r.m11 + a.m12 * r.m21 + a.m13 * r.m31 + a.m14 * r.m41 == 1.0
  {
    ScaledRow(a.m11, a.m12, a.m13, a.m14,
              r.m11, r.m21, r.m31, r.m41,
              c.m11, c.m21, c.m31, c.m41, d, 1.0);
  }

  lemma UnitColumn11(a: Matrix4, c: Matrix4, r: Matrix4, d: real)
    requires d != 0.0 && IsScaled(r, d, c) && IsProduct(c, a, Scale(d))
    ensures r.m11 * a.m11 + r.m12 * a.m21 + r.m13 * a.m31 + r.m14 * a.m41 == 1.0
  {
    ScaledColumn(a.m11, a.m21, a.m31, a.m41,
                 r.m11, r.m12, r.m13, r.m14,
                 c.m11, c.m12, c.m13, c.m14, d, 1.0);
  }

  lemma UnitRow12(a: Matrix4, c: Matrix4, r: Matrix4, d: real)
    requires d != 0.0 && IsScaled(r, d, c) && IsProduct(a, c, Scale(d))
    ensures a.m11 * r.m12 + a.m12 * r.m22 + a.m13 * r.m32 + a.m14 * r.m42 == 0.0
  {
    ScaledRow(a.m11, a.m12, a.m13, a.m14,
              r.m12, r.m22, r.m32, r.m42,
              c.m12, c.m22, c.m32, c.m42, d, 0.0);
  }

  lemma UnitColumn12(a: Matrix4, c: Matrix4, r: Matrix4, d: real)
    requires d != 0.0 && IsScaled(r, d, c) && IsProduct(c, a, Scale(d))
    ensures r.m11 * a.m12 + r.m12 * a.m22 + r.m13 * a.m32 + r.m14 * a.m42 == 0.0
  {
    ScaledColumn(a.m12, a.m22, a.m32, a.m42,
                 r.m11, r.m12, r.m13, r.m14,
                 c.m11, c.m12, c.m13, c.m14, d, 0.0);
  }

  lemma UnitRow13(a: Matrix4, c: Matrix4, r: Matrix4, d: real)
    requires d != 0.0 && IsScaled(r, d, c) && IsProduct(a, c, Scale(d))
    ensures a.m11 * r.m13 + a.m12 * r.m23 + a.m13 * r.m33 + a.m14 * r.m43 == 0.0
  {
    ScaledRow(a.m11, a.m12, a.m13, a.m14,
              r.m13, r.m23, r.m33, r.m43,
              c.m13, c.m23, c.m33, c.m43, d, 0.0);
  }

  lemma UnitColumn13(a: Matrix4, c: Matrix4, r: Matrix4, d: real)
    requires d != 0.0 && IsScaled(r, d, c) && IsProduct(c, a, Scale(d))
    ensures r.m11 * a.m13 + r.m12 * a.m23 + r.m13 * a.m33 + r.m14 * a.m43 == 0.0
  {
    ScaledColumn(a.m13, a.m23, a.m33, a.m43,
                 r.m11, r.m12, r.m13, r.m14,
                 c.m11, c.m12, c.m13, c.m14, d, 0.0);
  }

  lemma UnitRow14(a: Matrix4, c: Matrix4, r: Matrix4, d: real)
    requires d != 0.0 && IsScaled(r, d, c) && IsProduct(a, c, Scale(d))
    ensures a.m11 * r.m14 + a.m12 * r.m24 + a.m13 * r.m34 + a.m14 * r.m44 == 0.0
  {
    ScaledRow(a.m11, a.m12, a.m13, a.m14,
              r.m14, r.m24, r.m34, r.m44,
              c.m14, c.m24, c.m34, c.m44, d, 0.0);
  }

  lemma UnitColumn14(a: Matrix4, c: Matrix4, r: Matrix4, d: real)
    requires d != 0.0 && IsScaled(r, d, c) && IsProduct(c, a, Scale(d))
    ensures r.m11 * a.m14 + r.m12 * a.m24 + r.m13 * a.m34 + r.m14 * a.m44 == 0.0
  {
    ScaledColumn(a.m14, a.m24, a.m34, a.m44,
                 r.m11, r.m12, r.m13, r.m14,
                 c.m11, c.m12, c.m13, c.m14, d, 0.0);
  }

  lemma UnitRow21(a: Matrix4, c: Matrix4, r: Matrix4, d: real)
    requires d != 0.0 && IsScaled(r, d, c) && IsProduct(a, c, Scale(d))
    ensures a.m21 * r.m11 + a.m22 * r.m21 + a.m23 * r.m31 + a.m24 * r.m41 == 0.0
  {
    ScaledRow(a.m21, a.m22, a.m23, a.m24,
              r.m11, r.m21, r.m31, r.m41,
              c.m11, c.m21, c.m31, c.m41, d, 0.0);
  }

  lemma UnitColumn21(a: Matrix4, c: Matrix4, r: Matrix4, d: real)
    requires d != 0.0 && IsScaled(r, d, c) && IsProduct(c, a, Scale(d))
    ensures r.m21 * a.m11 + r.m22 * a.m21 + r.m23 * a.m31 + r.m24 * a.m41 == 0.0
  {
    ScaledColumn(a.m11, a.m21, a.m31, a.m41,
                 r.m21, r.m22, r.m23, r.m24,
                 c.m21, c.m22, c.m23, c.m24, d, 0.0);
  }

  lemma UnitRow22(a: Matrix4, c: Matrix4, r: Matrix4, d: real)
    requires d != 0.0 && IsScaled(r, d, c) && IsProduct(a, c, Scale(d))
    ensures a.m21 * r.m12 + a.m22 * r.m22 + a.m23 * r.m32 + a.m24 * r.m42 == 1.0
  {
    ScaledRow(a.m21, a.m22, a.m23, a.m24,
              r.m12, r.m22, r.m32, r.m42,
              c.m12, c.m22, c.m32, c.m42, d, 1.0);
  }

  lemma UnitColumn22(a: Matrix4, c: Matrix4, r: Matrix4, d: real)
    requires d != 0.0 && IsScaled(r, d, c) && IsProduct(c, a, Scale(d))
    ensures r.m21 * a.m12 + r.m22 * a.m22 + r.m23 * a.m32 + r.m24 * a.m42 == 1.0
  {
    ScaledColumn(a.m12, a.m22, a.m32, a.m42,
                 r.m21, r.m22, r.m23, r.m24,
                 c.m21, c.m22, c.m23, c.m24, d, 1.0);
  }

  lemma UnitRow23(a: Matrix4, c: Matrix4, r: Matrix4, d: real)
    requires d != 0.0 && IsScaled(r, d, c) && IsProduct(a, c, Scale(d))
    ensures a.m21 * r.m13 + a.m22 * r.m23 + a.m23 * r.m33 + a.m24 * r.m43 == 0.0
  {
    ScaledRow(a.m21, a.m22, a.m23, a.m24,
              r.m13, r.m23, r.m33, r.m43,
              c.m13, c.m23, c.m33, c.m43, d, 0.0);
  }

  lemma UnitColumn23(a: Matrix4, c: Matrix4, r: Matrix4, d: real)
    requires d != 0.0 && IsScaled(r, d, c) && IsProduct(c, a, Scale(d))
    ensures r.m21 * a.m13 + r.m22 * a.m23 + r.m23 * a.m33 + r.m24 * a.m43 == 0.0
  {
    ScaledColumn(a.m13, a.m23, a.m33, a.m43,
                 r.m21, r.m22, r.m23, r.m24,
                 c.m21, c.m22, c.m23, c.m24, d, 0.0);
  }

  lemma UnitRow24(a: Matrix4, c: Matrix4, r: Matrix4, d: real)
    requires d != 0.0 && IsScaled(r, d, c) && IsProduct(a, c, Scale(d))
    ensures a.m21 * r.m14 + a.m22 * r.m24 + a.m23 * r.m34 + a.m24 * r.m44 == 0.0
  {
    ScaledRow(a.m21, a.m22, a.m23, a.m24,
              r.m14, r.m24, r.m34, r.m44,
              c.m14, c.m24, c.m34, c.m44, d, 0.0);
  }

  lemma UnitColumn24(a: Matrix4, c: Matrix4, r: Matrix4, d: real)
    requires d != 0.0 && IsScaled(r, d, c) && IsProduct(c, a, Scale(d))
    ensures r.m21 * a.m14 + r.m22 * a.m24 + r.m23 * a.m34 + r.m24 * a.m44 == 0.0
  {
    ScaledColumn(a.m14, a.m24, a.m34, a.m44,
                 r.m21, r.m22, r.m23, r.m24,
                 c.m21, c.m22, c.m23, c.m24, d, 0.0);
  }

  lemma UnitRow31(a: Matrix4, c: Matrix4, r: Matrix4, d: real)
    requires d != 0.0 && IsScaled(r, d, c) && IsProduct(a, c, Scale(d))
    ensures a.m31 * r.m11 + a.m32 * r.m21 + a.m33 * r.m31 + a.m34 * r.m41 == 0.0
  {
    ScaledRow(a.m31, a.m32, a.m33, a.m34,
              r.m11, r.m21, r.m31, r.m41,
              c.m11, c.m21, c.m31, c.m41, d, 0.0);
  }

  lemma UnitColumn31(a: Matrix4, c: Matrix4, r: Matrix4, d: real)
    requires d != 0.0 && IsScaled(r, d, c) && IsProduct(c, a, Scale(d))
    ensures r.m31 * a.m11 + r.m32 * a.m21 + r.m33 * a.m31 + r.m34 * a.m41 == 0.0
  {
    ScaledColumn(a.m11, a.m21, a.m31, a.m41,
                 r.m31, r.m32, r.m33, r.m34,
                 c.m31, c.m32, c.m33, c.m34, d, 0.0);
  }

  lemma UnitRow32(a: Matrix4, c: Matrix4, r: Matrix4, d: real)
    requires d != 0.0 && IsScaled(r, d, c) && IsProduct(a, c, Scale(d))
    ensures a.m31 * r.m12 + a.m32 * r.m22 + a.m33 * r.m32 + a.m34 * r.m42 == 0.0
  {
    ScaledRow(a.m31, a.m32, a.m33, a.m34,
              r.m12, r.m22, r.m32, r.m42,
              c.m12, c.m22, c.m32, c.m42, d, 0.0);
  }

  lemma UnitColumn32(a: Matrix4, c: Matrix4, r: Matrix4, d: real)
    requires d != 0.0 && IsScaled(r, d, c) && IsProduct(c, a, Scale(d))
    ensures r.m31 * a.m12 + r.m32 * a.m22 + r.m33 * a.m32 + r.m34 * a.m42 == 0.0
  {
    ScaledColumn(a.m12, a.m22, a.m32, a.m42,
                 r.m31, r.m32, r.m33, r.m34,
                 c.m31, c.m32, c.m33, c.m34, d, 0.0);
  }

  lemma UnitRow33(a: Matrix4, c: Matrix4, r: Matrix4, d: real)
    requires d != 0.0 && IsScaled(r, d, c) && IsProduct(a, c, Scale(d))
    ensures a.m31 * r.m13 + a.m32 * r.m23 + a.m33 * r.m33 + a.m34 * r.m43 == 1.0
  {
    ScaledRow(a.m31, a.m32, a.m33, a.m34,
              r.m13, r.m23, r.m33, r.m43,
              c.m13, c.m23, c.m33, c.m43, d, 1.0);
  }

  lemma UnitColumn33(a: Matrix4, c: Matrix4, r: Matrix4, d: real)
    requires d != 0.0 && IsScaled(r, d, c) && IsProduct(c, a, Scale(d))
    ensures r.m31 * a.m13 + r.m32 * a.m23 + r.m33 * a.m33 + r.m34 * a.m43 == 1.0
  {
    ScaledColumn(a.m13, a.m23, a.m33, a.m43,
                 r.m31, r.m32, r.m33, r.m34,
                 c.m31, c.m32, c.m33, c.m34, d, 1.0);
  }

  lemma UnitRow34(a: Matrix4, c: Matrix4, r: Matrix4, d: real)
    requires d != 0.0 && IsScaled(r, d, c) && IsProduct(a, c, Scale(d))
    ensures a.m31 * r.m14 + a.m32 * r.m24 + a.m33 * r.m34 + a.m34 * r.m44 == 0.0
  {
    ScaledRow(a.m31, a.m32, a.m33, a.m34,
              r.m14, r.m24, r.m34, r.m44,
              c.m14, c.m24, c.m34, c.m44, d, 0.0);
  }

  lemma UnitColumn34(a: Matrix4, c: Matrix4, r: Matrix4, d: real)
    requires d != 0.0 && IsScaled(r, d, c) && IsProduct(c, a, Scale(d))
    ensures r.m31 * a.m14 + r.m32 * a.m24 + r.m33 * a.m34 + r.m34 * a.m44 == 0.0
  {
    ScaledColumn(a.m14, a.m24, a.m34, a.m44,
                 r.m31, r.m32, r.m33, r.m34,
                 c.m31, c.m32, c.m33, c.m34, d, 0.0);
  }

  lemma UnitRow41(a: Matrix4, c: Matrix4, r: Matrix4, d: real)
    requires d != 0.0 && IsScaled(r, d, c) && IsProduct(a, c, Scale(d))
    ensures a.m41 * r.m11 + a.m42 * r.m21 + a.m43 * r.m31 + a.m44 * r.m41 == 0.0
  {
    ScaledRow(a.m41, a.m42, a.m43, a.m44,
              r.m11, r.m21, r.m31, r.m41,
              c.m11, c.m21, c.m31, c.m41, d, 0.0);
  }

  lemma UnitColumn41(a: Matrix4, c: Matrix4, r: Matrix4, d: real)
    requires d != 0.0 && IsScaled(r, d, c) && IsProduct(c, a, Scale(d))
    ensures r.m41 * a.m11 + r.m42 * a.m21 + r.m43 * a.m31 + r.m44 * a.m41 == 0.0
  {
    ScaledColumn(a.m11, a.m21, a.m31, a.m41,
                 r.m41, r.m42, r.m43, r.m44,
                 c.m41, c.m42, c.m43, c.m44, d, 0.0);
  }

  lemma UnitRow42(a: Matrix4, c: Matrix4, r: Matrix4, d: real)
    requires d != 0.0 && IsScaled(r, d, c) && IsProduct(a, c, Scale(d))
    ensures a.m41 * r.m12 + a.m42 * r.m22 + a.m43 * r.m32 + a.m44 * r.m42 == 0.0
  {
    ScaledRow(a.m41, a.m42, a.m43, a.m44,
              r.m12, r.m22, r.m32, r.m42,
              c.m12, c.m22, c.m32, c.m42, d, 0.0);
  }

  lemma UnitColumn42(a: Matrix4, c: Matrix4, r: Matrix4, d: real)
    requires d != 0.0 && IsScaled(r, d, c) && IsProduct(c, a, Scale(d))
    ensures r.m41 * a.m12 + r.m42 * a.m22 + r.m43 * a.m32 + r.m44 * a.m42 == 0.0
  {
    ScaledColumn(a.m12, a.m22, a.m32, a.m42,
                 r.m41, r.m42, r.m43, r.m44,
                 c.m41, c.m42, c.m43, c.m44, d, 0.0);
  }

  lemma UnitRow43(a: Matrix4, c: Matrix4, r: Matrix4, d: real)
    requires d != 0.0 && IsScaled(r, d, c) && IsProduct(a, c, Scale(d))
    ensures a.m41 * r.m13 + a.m42 * r.m23 + a.m43 * r.m33 + a.m44 * r.m43 == 0.0
  {
    ScaledRow(a.m41, a.m42, a.m43, a.m44,
              r.m13, r.m23, r.m33, r.m43,
              c.m13, c.m23, c.m33, c.m43, d, 0.0);
  }

  lemma UnitColumn43(a: Matrix4, c: Matrix4, r: Matrix4, d: real)
    requires d != 0.0 && IsScaled(r, d, c) && IsProduct(c, a, Scale(d))
    ensures r.m41 * a.m13 + r.m42 * a.m23 + r.m43 * a.m33 + r.m44 * a.m43 == 0.0
  {
    ScaledColumn(a.m13, a.m23, a.m33, a.m43,
                 r.m41, r.m42, r.m43, r.m44,
                 c.m41, c.m42, c.m43, c.m44, d, 0.0);
  }

  lemma UnitRow44(a: Matrix4, c: Matrix4, r: Matrix4, d: real)
    requires d != 0.0 && IsScaled(r, d, c) && IsProduct(a, c, Scale(d))
    ensures a.m41 * r.m14 + a.m42 * r.m24 + a.m43 * r.m34 + a.m44 * r.m44 == 1.0
  {
    ScaledRow(a.m41, a.m42, a.m43, a.m44,
              r.m14, r.m24, r.m34, r.m44,
              c.m14, c.m24, c.m34, c.m44, d, 1.0);
  }

  lemma UnitColumn44(a: Matrix4, c: Matrix4, r: Matrix4, d: real)
    requires d != 0.0 && IsScaled(r, d, c) && IsProduct(c, a, Scale(d))
    ensures r.m41 * a.m14 + r.m42 * a.m24 + r.m43 * a.m34 + r.m44 * a.m44 == 1.0
  {
    ScaledColumn(a.m14, a.m24, a.m34, a.m44,
                 r.m41, r.m42, r.m43, r.m44,
                 c.m41, c.m42, c.m43, c.m44, d, 1.0);
  }

  /** If `a c` is `d` on the diagonal, then `c` over `d` is an inverse of `a` on the right. */
  lemma UnitRight(a: Matrix4, c: Matrix4, r: Matrix4, d: real)
    requires d != 0.0 && IsScaled(r, d, c) && IsProduct(a, c, Scale(d))
    ensures IsProduct(a, r, One())
  {
    UnitRow11(a, c, r, d);
    UnitRow12(a, c, r, d);
    UnitRow13(a, c, r, d);
    UnitRow14(a, c, r, d);
    UnitRow21(a, c, r, d);
    UnitRow22(a, c, r, d);
    UnitRow23(a, c, r, d);
    UnitRow24(a, c, r, d);
    UnitRow31(a, c, r, d);
    UnitRow32(a, c, r, d);
    UnitRow33(a, c, r, d);
    UnitRow34(a, c, r, d);
    UnitRow41(a, c, r, d);
    UnitRow42(a, c, r, d);
    UnitRow43(a, c, r, d);
    UnitRow44(a, c, r, d);
  }

  /** If `a c` is `d` on the diagonal, then `c` over `d` is an inverse of `a` on the left. */
  lemma UnitLeft(a: Matrix4, c: Matrix4, r: Matrix4, d: real)
    requires d != 0.0 && IsScaled(r, d, c) && IsProduct(c, a, Scale(d))
    ensures IsProduct(r, a, One())
  {
    UnitColumn11(a, c, r, d);
    UnitColumn12(a, c, r, d);
    UnitColumn13(a, c, r, d);
    UnitColumn14(a, c, r, d);
    UnitColumn21(a, c, r, d);
    UnitColumn22(a, c, r, d);
    UnitColumn23(a, c, r, d);
    UnitColumn24(a, c, r, d);
    UnitColumn31(a, c, r, d);
    UnitColumn32(a, c, r, d);
    UnitColumn33(a, c, r, d);
    UnitColumn34(a, c, r, d);
    UnitColumn41(a, c, r, d);
    UnitColumn42(a, c, r, d);
    UnitColumn43(a, c, r, d);
    UnitColumn44(a, c, r, d);
  }

  /** The adjugate over the non-zero determinant is a two-sided inverse. */
  lemma InvCore(a: Matrix4, c: Matrix4, r: Matrix4, d: real)
    requires d == Det(a) && d != 0.0
    requires IsAdjugate(a, c) && IsScaled(r, d, c)
    ensures IsInverse(a, r)
  {
    AdjugateRight(a, c);
    AdjugateLeft(a, c);
    UnitRight(a, c, r, d);
    UnitLeft(a, c, r, d);
    MulIsProduct(a, r, One());
    MulIsProduct(r, a, One());
  }

  lemma AddZeroIdentity(a: Matrix4)
    ensures Add(a, Zero()) == a && Add(Zero(), a) == a
  {
  }

  lemma NegInvolution(a: Matrix4)
    ensures Neg(Neg(a)) == a
  {
  }

  lemma SubIsAddNeg(a: Matrix4, b: Matrix4)
    ensures Sub(a, b) == Add(a, Neg(b))
  {
  }

  lemma ScaleOneIsOne()
    ensures Scale(1.0) == One() && Scale(0.0) == Zero()
  {
  }

  /** The determinant of an embedded scalar is its fourth power; the identity has determinant one. */
  lemma DetScale(factor: real)
    ensures Det(Scale(factor)) == factor * factor * factor * factor
    ensures Det(One()) == 1.0
  {
  }

  /** Row and column numbers, as in the entry names `m11`..`m44`. */
  type Index = i: int | 1 <= i <= 4 witness 1

  /** The entry in row `i`, column `j`. */
  function Entry(a: Matrix4, i: Index, j: Index): real {
    if i == 1 then
      (if j == 1 then a.m11 else if j == 2 then a.m12 else if j == 3 then a.m13 else a.m14)
    else if i == 2 then
      (if j == 1 then a.m21 else if j == 2 then a.m22 else if j == 3 then a.m23 else a.m24)
    else if i == 3 then
      (if j == 1 then a.m31 else if j == 2 then a.m32 else if j == 3 then a.m33 else a.m34)
    else
      (if j == 1 then a.m41 else if j == 2 then a.m42 else if j == 3 then a.m43 else a.m44)
  }

  /** Row `i` of `a` times column `j` of `b`: the sum over `k` of `a(i, k) b(k, j)`. */
  function RowTimesColumn(a: Matrix4, b: Matrix4, i: Index, j: Index): real {
    Entry(a, i, 1) * Entry(b, 1, j) + Entry(a, i, 2) * Entry(b, 2, j)
    + Entry(a, i, 3) * Entry(b, 3, j) + Entry(a, i, 4) * Entry(b, 4, j)
  }

  /** The entries of a product given by sixteen sums are row-by-column products. */
  lemma ProductEntry(a: Matrix4, b: Matrix4, p: Matrix4, i: Index, j: Index)
    requires IsProduct(a, b, p)
    ensures Entry(p, i, j) == RowTimesColumn(a, b, i, j)
  {
    if i == 1 {
      if j == 1 {
        assert Entry(p, 1, 1) == p.m11;
      }
      else if j == 2 {
        assert Entry(p, 1, 2) == p.m12;
      }
      else if j == 3 {
        assert Entry(p, 1, 3) == p.m13;
      }
      else {
        assert Entry(p, 1, 4) == p.m14;
      }
    }
    else if i == 2 {
      if j == 1 {
        assert Entry(p, 2, 1) == p.m21;
      }
      else if j == 2 {
        assert Entry(p, 2, 2) == p.m22;
      }
      else if j == 3 {
        assert Entry(p, 2, 3) == p.m23;
      }
      else {
        assert Entry(p, 2, 4) == p.m24;
      }
    }
    else if i == 3 {
      if j == 1 {
        assert Entry(p, 3, 1) == p.m31;
      }
      else if j == 2 {
        assert Entry(p, 3, 2) == p.m32;
      }
      else if j == 3 {
        assert Entry(p, 3, 3) == p.m33;
      }
      else {
        assert Entry(p, 3, 4) == p.m34;
      }
    }
    else {
      if j == 1 {
        assert Entry(p, 4, 1) == p.m41;
      }
      else if j == 2 {
        assert Entry(p, 4, 2) == p.m42;
      }
      else if j == 3 {
        assert Entry(p, 4, 3) == p.m43;
      }
      else {
        assert Entry(p, 4, 4) == p.m44;
      }
    }
  }

  /** Each of the library's sixteen sums is a row of `a` times a column of `b`. */
  lemma MulIsRowTimesColumn(a: Matrix4, b: Matrix4, i: Index, j: Index)
    ensures Entry(Mul(a, b), i, j) == RowTimesColumn(a, b, i, j)
  {
    MulIsProduct(a, b, Mul(a, b));
    ProductEntry(a, b, Mul(a, b), i, j);
  }

  /** The `t`-th of the three row or column numbers other than `r`, in increasing order. */
  function Skip(r: Index, t: int): Index
    requires 1 <= t <= 3
  {
    if t < r then t else t + 1
  }

  /** The determinant of what is left of `a` once row `r` and column `c` are struck out. */
  function MinorDet(a: Matrix4, r: Index, c: Index): real {
    Minors.Det3(
      Entry(a, Skip(r, 1), Skip(c, 1)), Entry(a, Skip(r, 1), Skip(c, 2)), Entry(a, Skip(r, 1), Skip(c, 3)),
      Entry(a, Skip(r, 2), Skip(c, 1)), Entry(a, Skip(r, 2), Skip(c, 2)), Entry(a, Skip(r, 2), Skip(c, 3)),
      Entry(a, Skip(r, 3), Skip(c, 1)), Entry(a, Skip(r, 3), Skip(c, 2)), Entry(a, Skip(r, 3), Skip(c, 3)))
  }

  predicate Odd(i: Index) {
    i == 1 || i == 3
  }

  /** The cofactor of entry `(r, c)`: its minor with the sign `(-1)^(r + c)`, which is one when `r` and `c` are both odd or both even. */
  function Cofactor(a: Matrix4, r: Index, c: Index): real {
    if Odd(r) == Odd(c) then MinorDet(a, r, c) else -MinorDet(a, r, c)
  }

  /** The cofactors of row 1, with the struck-out row and column written out. */
  lemma CofactorsRow1(a: Matrix4)
    ensures Cofactor(a, 1, 1) == Minors.Det3(a.m22, a.m23, a.m24, a.m32, a.m33, a.m34, a.m42, a.m43, a.m44)
    ensures Cofactor(a, 1, 2) == -Minors.Det3(a.m21, a.m23, a.m24, a.m31, a.m33, a.m34, a.m41, a.m43, a.m44)
    ensures Cofactor(a, 1, 3) == Minors.Det3(a.m21, a.m22, a.m24, a.m31, a.m32, a.m34, a.m41, a.m42, a.m44)
    ensures Cofactor(a, 1, 4) == -Minors.Det3(a.m21, a.m22, a.m23, a.m31, a.m32, a.m33, a.m41, a.m42, a.m43)
  {
  }

  /** The cofactors of row 2, with the struck-out row and column written out. */
  lemma CofactorsRow2(a: Matrix4)
    ensures Cofactor(a, 2, 1) == -Minors.Det3(a.m12, a.m13, a.m14, a.m32, a.m33, a.m34, a.m42, a.m43, a.m44)
    ensures Cofactor(a, 2, 2) == Minors.Det3(a.m11, a.m13, a.m14, a.m31, a.m33, a.m34, a.m41, a.m43, a.m44)
    ensures Cofactor(a, 2, 3) == -Minors.Det3(a.m11, a.m12, a.m14, a.m31, a.m32, a.m34, a.m41, a.m42, a.m44)
    ensures Cofactor(a, 2, 4) == Minors.Det3(a.m11, a.m12, a.m13, a.m31, a.m32, a.m33, a.m41, a.m42, a.m43)
  {
  }

  /** The cofactors of row 3, with the struck-out row and column written out. */
  lemma CofactorsRow3(a: Matrix4)
    ensures Cofactor(a, 3, 1) == Minors.Det3(a.m12, a.m13, a.m14, a.m22, a.m23, a.m24, a.m42, a.m43, a.m44)
    ensures Cofactor(a, 3, 2) == -Minors.Det3(a.m11, a.m13, a.m14, a.m21, a.m23, a.m24, a.m41, a.m43, a.m44)
    ensures Cofactor(a, 3, 3) == Minors.Det3(a.m11, a.m12, a.m14, a.m21, a.m22, a.m24, a.m41, a.m42, a.m44)
    ensures Cofactor(a, 3, 4) == -Minors.Det3(a.m11, a.m12, a.m13, a.m21, a.m22, a.m23, a.m41, a.m42, a.m43)
  {
  }

  /** The cofactors of row 4, with the struck-out row and column written out. */
  lemma CofactorsRow4(a: Matrix4)
    ensures Cofactor(a, 4, 1) == -Minors.Det3(a.m12, a.m13, a.m14, a.m22, a.m23, a.m24, a.m32, a.m33, a.m34)
    ensures Cofactor(a, 4, 2) == Minors.Det3(a.m11, a.m13, a.m14, a.m21, a.m23, a.m24, a.m31, a.m33, a.m34)
    ensures Cofactor(a, 4, 3) == -Minors.Det3(a.m11, a.m12, a.m14, a.m21, a.m22, a.m24, a.m31, a.m32, a.m34)
    ensures Cofactor(a, 4, 4) == Minors.Det3(a.m11, a.m12, a.m13, a.m21, a.m22, a.m23, a.m31, a.m32, a.m33)
  {
  }

  lemma AdjugateRow1(a: Matrix4, c: Matrix4)
    requires IsAdjugate(a, c)
    ensures c.m11 == Minors.Det3(a.m22, a.m23, a.m24, a.m32, a.m33, a.m34, a.m42, a.m43, a.m44)
    ensures c.m12 == -Minors.Det3(a.m12, a.m13, a.m14, a.m32, a.m33, a.m34, a.m42, a.m43, a.m44)
    ensures c.m13 == Minors.Det3(a.m12, a.m13, a.m14, a.m22, a.m23, a.m24, a.m42, a.m43, a.m44)
    ensures c.m14 == -Minors.Det3(a.m12, a.m13, a.m14, a.m22, a.m23, a.m24, a.m32, a.m33, a.m34)
  {
    Minors.IsMinor(c.m11, a.m22, a.m23, a.m24, a.m32, a.m33, a.m34, a.m42, a.m43, a.m44);
    Minors.IsNegatedMinor(c.m12, a.m12, a.m13, a.m14, a.m32, a.m33, a.m34, a.m42, a.m43, a.m44);
    Minors.IsMinor(c.m13, a.m12, a.m13, a.m14, a.m22, a.m23, a.m24, a.m42, a.m43, a.m44);
    Minors.IsNegatedMinor(c.m14, a.m12, a.m13, a.m14, a.m22, a.m23, a.m24, a.m32, a.m33, a.m34);
  }

  lemma AdjugateRow2(a: Matrix4, c: Matrix4)
    requires IsAdjugate(a, c)
    ensures c.m21 == -Minors.Det3(a.m21, a.m23, a.m24, a.m31, a.m33, a.m34, a.m41, a.m43, a.m44)
    ensures c.m22 == Minors.Det3(a.m11, a.m13, a.m14, a.m31, a.m33, a.m34, a.m41, a.m43, a.m44)
    ensures c.m23 == -Minors.Det3(a.m11, a.m13, a.m14, a.m21, a.m23, a.m24, a.m41, a.m43, a.m44)
    ensures c.m24 == Minors.Det3(a.m11, a.m13, a.m14, a.m21, a.m23, a.m24, a.m31, a.m33, a.m34)
  {
    Minors.IsNegatedMinor(c.m21, a.m21, a.m23, a.m24, a.m31, a.m33, a.m34, a.m41, a.m43, a.m44);
    Minors.IsMinor(c.m22, a.m11, a.m13, a.m14, a.m31, a.m33, a.m34, a.m41, a.m43, a.m44);
    Minors.IsNegatedMinor(c.m23, a.m11, a.m13, a.m14, a.m21, a.m23, a.m24, a.m41, a.m43, a.m44);
    Minors.IsMinor(c.m24, a.m11, a.m13, a.m14, a.m21, a.m23, a.m24, a.m31, a.m33, a.m34);
  }

  lemma AdjugateRow3(a: Matrix4, c: Matrix4)
    requires IsAdjugate(a, c)
    ensures c.m31 == Minors.Det3(a.m21, a.m22, a.m24, a.m31, a.m32, a.m34, a.m41, a.m42, a.m44)
    ensures c.m32 == -Minors.Det3(a.m11, a.m12, a.m14, a.m31, a.m32, a.m34, a.m41, a.m42, a.m44)
    ensures c.m33 == Minors.Det3(a.m11, a.m12, a.m14, a.m21, a.m22, a.m24, a.m41, a.m42, a.m44)
    ensures c.m34 == -Minors.Det3(a.m11, a.m12, a.m14, a.m21, a.m22, a.m24, a.m31, a.m32, a.m34)
  {
    Minors.IsMinor(c.m31, a.m21, a.m22, a.m24, a.m31, a.m32, a.m34, a.m41, a.m42, a.m44);
    Minors.IsNegatedMinor(c.m32, a.m11, a.m12, a.m14, a.m31, a.m32, a.m34, a.m41, a.m42, a.m44);
    Minors.IsMinor(c.m33, a.m11, a.m12, a.m14, a.m21, a.m22, a.m24, a.m41, a.m42, a.m44);
    Minors.IsNegatedMinor(c.m34, a.m11, a.m12, a.m14, a.m21, a.m22, a.m24, a.m31, a.m32, a.m34);
  }

  lemma AdjugateRow4(a: Matrix4, c: Matrix4)
    requires IsAdjugate(a, c)
    ensures c.m41 == -Minors.Det3(a.m21, a.m22, a.m23, a.m31, a.m32, a.m33, a.m41, a.m42, a.m43)
    ensures c.m42 == Minors.Det3(a.m11, a.m12, a.m13, a.m31, a.m32, a.m33, a.m41, a.m42, a.m43)
    ensures c.m43 == -Minors.Det3(a.m11, a.m12, a.m13, a.m21, a.m22, a.m23, a.m41, a.m42, a.m43)
    ensures c.m44 == Minors.Det3(a.m11, a.m12, a.m13, a.m21, a.m22, a.m23, a.m31, a.m32, a.m33)
  {
    Minors.IsNegatedMinor(c.m41, a.m21, a.m22, a.m23, a.m31, a.m32, a.m33, a.m41, a.m42, a.m43);
    Minors.IsMinor(c.m42, a.m11, a.m12, a.m13, a.m31, a.m32, a.m33, a.m41, a.m42, a.m43);
    Minors.IsNegatedMinor(c.m43, a.m11, a.m12, a.m13, a.m21, a.m22, a.m23, a.m41, a.m42, a.m43);
    Minors.IsMinor(c.m44, a.m11, a.m12, a.m13, a.m21, a.m22, a.m23, a.m31, a.m32, a.m33);
  }

  /** The entries of a matrix satisfying `IsAdjugate` are the transposed cofactors. */
  lemma AdjugateEntry(a: Matrix4, c: Matrix4, i: Index, j: Index)
    requires IsAdjugate(a, c)
    ensures Entry(c, i, j) == Cofactor(a, j, i)
  {
    if i == 1 {
      if j == 1 {
        assert Entry(c, 1, 1) == c.m11;
        AdjugateRow1(a, c);
        CofactorsRow1(a);
      }
      else if j == 2 {
        assert Entry(c, 1, 2) == c.m12;
        AdjugateRow1(a, c);
        CofactorsRow2(a);
      }
      else if j == 3 {
        assert Entry(c, 1, 3) == c.m13;
        AdjugateRow1(a, c);
        CofactorsRow3(a);
      }
      else {
        assert Entry(c, 1, 4) == c.m14;
        AdjugateRow1(a, c);
        CofactorsRow4(a);
      }
    }
    else if i == 2 {
      if j == 1 {
        assert Entry(c, 2, 1) == c.m21;
        AdjugateRow2(a, c);
        CofactorsRow1(a);
      }
      else if j == 2 {
        assert Entry(c, 2, 2) == c.m22;
        AdjugateRow2(a, c);
        CofactorsRow2(a);
      }
      else if j == 3 {
        assert Entry(c, 2, 3) == c.m23;
        AdjugateRow2(a, c);
        CofactorsRow3(a);
      }
      else {
        assert Entry(c, 2, 4) == c.m24;
        AdjugateRow2(a, c);
        CofactorsRow4(a);
      }
    }
    else if i == 3 {
      if j == 1 {
        assert Entry(c, 3, 1) == c.m31;
        AdjugateRow3(a, c);
        CofactorsRow1(a);
      }
      else if j == 2 {
        assert Entry(c, 3, 2) == c.m32;
        AdjugateRow3(a, c);
        CofactorsRow2(a);
      }
      else if j == 3 {
        assert Entry(c, 3, 3) == c.m33;
        AdjugateRow3(a, c);
        CofactorsRow3(a);
      }
      else {
        assert Entry(c, 3, 4) == c.m34;
        AdjugateRow3(a, c);
        CofactorsRow4(a);
      }
    }
    else {
      if j == 1 {
        assert Entry(c, 4, 1) == c.m41;
        AdjugateRow4(a, c);
        CofactorsRow1(a);
      }
      else if j == 2 {
        assert Entry(c, 4, 2) == c.m42;
        AdjugateRow4(a, c);
        CofactorsRow2(a);
      }
      else if j == 3 {
        assert Entry(c, 4, 3) == c.m43;
        AdjugateRow4(a, c);
        CofactorsRow3(a);
      }
      else {
        assert Entry(c, 4, 4) == c.m44;
        AdjugateRow4(a, c);
        CofactorsRow4(a);
      }
    }
  }

  /** The library's sixteen numerators form the adjugate: entry `(i, j)` is the cofactor of `(j, i)`. */
  lemma AdjugateIsTransposedCofactors(a: Matrix4, i: Index, j: Index)
    ensures Entry(Adjugate(a), i, j) == Cofactor(a, j, i)
  {
    AdjugateIsAdjugate(a);
    AdjugateEntry(a, Adjugate(a), i, j);
  }

  lemma DetRow1(a: Matrix4)
    ensures Det(a) == a.m11 * (Minors.Det3(a.m22, a.m23, a.m24, a.m32, a.m33, a.m34, a.m42, a.m43, a.m44))
      + a.m12 * (-Minors.Det3(a.m21, a.m23, a.m24, a.m31, a.m33, a.m34, a.m41, a.m43, a.m44))
      + a.m13 * (Minors.Det3(a.m21, a.m22, a.m24, a.m31, a.m32, a.m34, a.m41, a.m42, a.m44))
      + a.m14 * (-Minors.Det3(a.m21, a.m22, a.m23, a.m31, a.m32, a.m33, a.m41, a.m42, a.m43))
  {
  }

  /** The library's 24 terms are the cofactor expansion of the determinant along the first row. */
  lemma DetIsCofactorExpansion(a: Matrix4)
    ensures Det(a) == Entry(a, 1, 1) * Cofactor(a, 1, 1)
      + Entry(a, 1, 2) * Cofactor(a, 1, 2)
      + Entry(a, 1, 3) * Cofactor(a, 1, 3)
      + Entry(a, 1, 4) * Cofactor(a, 1, 4)
  {
    DetRow1(a);
    CofactorsRow1(a);
    SubstituteTerms(
      Det(a),
      a.m11, a.m12, a.m13, a.m14,
      Minors.Det3(a.m22, a.m23, a.m24, a.m32, a.m33, a.m34, a.m42, a.m43, a.m44),
      -Minors.Det3(a.m21, a.m23, a.m24, a.m31, a.m33, a.m34, a.m41, a.m43, a.m44),
      Minors.Det3(a.m21, a.m22, a.m24, a.m31, a.m32, a.m34, a.m41, a.m42, a.m44),
      -Minors.Det3(a.m21, a.m22, a.m23, a.m31, a.m32, a.m33, a.m41, a.m42, a.m43),
      Entry(a, 1, 1), Entry(a, 1, 2), Entry(a, 1, 3), Entry(a, 1, 4),
      Cofactor(a, 1, 1), Cofactor(a, 1, 2), Cofactor(a, 1, 3), Cofactor(a, 1, 4));
  }

  lemma SubstituteTerms(
    d: real,
    x1: real, x2: real, x3: real, x4: real, y1: real, y2: real, y3: real, y4: real,
    e1: real, e2: real, e3: real, e4: real, k1: real, k2: real, k3: real, k4: real)
    requires d == x1 * y1 + x2 * y2 + x3 * y3 + x4 * y4
    requires e1 == x1 && e2 == x2 && e3 == x3 && e4 == x4
    requires k1 == y1 && k2 == y2 && k3 == y3 && k4 == y4
    ensures d == e1 * k1 + e2 * k2 + e3 * k3 + e4 * k4
  {
  }

  lemma SomeFactorNonZero(p: real, a1: real, a2: real, a3: real, a4: real, d1: real, d2: real, d3: real, d4: real)
    requires p == 1.0 && p == a1 * d1 + a2 * d2 + a3 * d3 + a4 * d4
    ensures a1 != 0.0 || a2 != 0.0 || a3 != 0.0 || a4 != 0.0
  {
  }

  /**
   * Cauchy-Binet for the top-left 3x3 block of a product: its determinant
   * is the sum, over the ways to drop one of the four columns of `a` (and
   * the matching row of `b`), of the products of the two 3x3 minors.
   */
  lemma CauchyBinetTopBlock(a: Matrix4, b: Matrix4, p: Matrix4)
    requires IsProduct(a, b, p)
    ensures Minors.Det3(p.m11, p.m12, p.m13, p.m21, p.m22, p.m23, p.m31, p.m32, p.m33) ==
      Minors.Det3(a.m12, a.m13, a.m14, a.m22, a.m23, a.m24, a.m32, a.m33, a.m34) * Minors.Det3(b.m21, b.m22, b.m23, b.m31, b.m32, b.m33, b.m41, b.m42, b.m43)
      + Minors.Det3(a.m11, a.m13, a.m14, a.m21, a.m23, a.m24, a.m31, a.m33, a.m34) * Minors.Det3(b.m11, b.m12, b.m13, b.m31, b.m32, b.m33, b.m41, b.m42, b.m43)
      + Minors.Det3(a.m11, a.m12, a.m14, a.m21, a.m22, a.m24, a.m31, a.m32, a.m34) * Minors.Det3(b.m11, b.m12, b.m13, b.m21, b.m22, b.m23, b.m41, b.m42, b.m43)
      + Minors.Det3(a.m11, a.m12, a.m13, a.m21, a.m22, a.m23, a.m31, a.m32, a.m33) * Minors.Det3(b.m11, b.m12, b.m13, b.m21, b.m22, b.m23, b.m31, b.m32, b.m33)
  {
    Minors.CauchyBinet3(
      a.m11, a.m12, a.m13, a.m14, a.m21, a.m22, a.m23, a.m24, a.m31, a.m32, a.m33, a.m34,
      b.m11, b.m12, b.m13, b.m21, b.m22, b.m23, b.m31, b.m32, b.m33, b.m41, b.m42, b.m43);
  }

  /**
   * A matrix with a right inverse has a non-zero 3x3 minor in its first
   * three rows: the top-left block of `a b` is that of the identity.
   */
  lemma RightInverseMinors(a: Matrix4, b: Matrix4)
    requires Mul(a, b) == One()
    ensures Minors.Det3(a.m12, a.m13, a.m14, a.m22, a.m23, a.m24, a.m32, a.m33, a.m34) != 0.0 || Minors.Det3(a.m11, a.m13, a.m14, a.m21, a.m23, a.m24, a.m31, a.m33, a.m34) != 0.0 || Minors.Det3(a.m11, a.m12, a.m14, a.m21, a.m22, a.m24, a.m31, a.m32, a.m34) != 0.0 || Minors.Det3(a.m11, a.m12, a.m13, a.m21, a.m22, a.m23, a.m31, a.m32, a.m33) != 0.0
  {
    MulIsProduct(a, b, One());
    CauchyBinetTopBlock(a, b, One());
    SomeFactorNonZero(
      Minors.Det3(1.0, 0.0, 0.0, 0.0, 1.0, 0.0, 0.0, 0.0, 1.0),
      Minors.Det3(a.m12, a.m13, a.m14, a.m22, a.m23, a.m24, a.m32, a.m33, a.m34),
      Minors.Det3(a.m11, a.m13, a.m14, a.m21, a.m23, a.m24, a.m31, a.m33, a.m34),
      Minors.Det3(a.m11, a.m12, a.m14, a.m21, a.m22, a.m24, a.m31, a.m32, a.m34),
      Minors.Det3(a.m11, a.m12, a.m13, a.m21, a.m22, a.m23, a.m31, a.m32, a.m33),
      Minors.Det3(b.m21, b.m22, b.m23, b.m31, b.m32, b.m33, b.m41, b.m42, b.m43),
      Minors.Det3(b.m11, b.m12, b.m13, b.m31, b.m32, b.m33, b.m41, b.m42, b.m43),
      Minors.Det3(b.m11, b.m12, b.m13, b.m21, b.m22, b.m23, b.m41, b.m42, b.m43),
      Minors.Det3(b.m11, b.m12, b.m13, b.m21, b.m22, b.m23, b.m31, b.m32, b.m33));
  }

  /** A matrix with a right inverse has a non-zero adjugate. */
  lemma RightInverseAdjugate(a: Matrix4, b: Matrix4)
    requires Mul(a, b) == One()
    ensures Adjugate(a) != Zero()
  {
    var c := Adjugate(a);
    RightInverseMinors(a, b);
    AdjugateIsAdjugate(a);
    AdjugateRow1(a, c);
    AdjugateRow2(a, c);
    AdjugateRow3(a, c);
    AdjugateRow4(a, c);
  }

  /** A singular matrix with an inverse would have a zero adjugate: `adj(a) = adj(a) a b = det(a) b`. */
  lemma SingularAdjugate(a: Matrix4, b: Matrix4)
    requires Det(a) == 0.0 && IsInverse(a, b)
    ensures Adjugate(a) == Zero()
  {
    var c := Adjugate(a);
    MulAdjugate(a);
    MulAssociative(c, a, b);
    MulOneIdentity(c);
    assert Mul(Scale(0.0), b) == Zero();
  }

  /** A matrix with determinant zero has no inverse. */
  lemma DetZeroNotInvertible(a: Matrix4, b: Matrix4)
    requires Det(a) == 0.0
    ensures !IsInverse(a, b)
  {
    if IsInverse(a, b) {
      SingularAdjugate(a, b);
      RightInverseAdjugate(a, b);
    }
  }

  /** A matrix is invertible exactly when its determinant is not zero. */
  lemma InvertibleIffDetNonZero(a: Matrix4)
    ensures Det(a) != 0.0 <==> exists b :: IsInverse(a, b)
  {
    if Det(a) != 0.0 {
      InvIsInverse(a);
    } else {
      forall b
        ensures !IsInverse(a, b)
      {
        DetZeroNotInvertible(a, b);
      }
    }
  }

  /** A two-sided inverse is unique. */
  lemma InverseUnique(a: Matrix4, i: Matrix4, j: Matrix4)
    requires Mul(a, i) == One() && Mul(j, a) == One()
    ensures i == j
  {
    MulOneIdentity(i);
    MulOneIdentity(j);
    MulAssociative(j, a, i);
  }

  /** The identity is its own adjugate, with determinant one. */
  lemma AdjugateOne()
    ensures Det(One()) == 1.0 && Adjugate(One()) == One()
  {
  }

  /** Dividing by one changes nothing. */
  lemma DivideEntriesByOne(f: Matrix4)
    ensures DivideEntries(f, 1.0) == f
  {
  }

  /** The identity is its own inverse. */
  lemma InvOne()
    ensures Det(One()) == 1.0 && Inv(One()) == One()
  {
    AdjugateOne();
    DivideEntriesByOne(One());
  }

  /** The inverse is itself invertible, and inverting twice gives back the original matrix. */
  lemma InvInvolution(a: Matrix4)
    requires Det(a) != 0.0
    ensures Det(Inv(a)) != 0.0 && Inv(Inv(a)) == a
  {
    var i := Inv(a);
    InvIsInverse(a);
    assert IsInverse(i, a);
    if Det(i) == 0.0 {
      DetZeroNotInvertible(i, a);
    } else {
      InvIsInverse(i);
      InverseUnique(i, Inv(i), a);
    }
  }

  /** The quotient is the only matrix whose product with the divisor is the dividend. */
  lemma DivUnique(a: Matrix4, b: Matrix4, x: Matrix4)
    requires Det(b) != 0.0 && Mul(x, b) == a
    ensures x == Div(a, b)
  {
    var i := Inv(b);
    InvIsInverse(b);
    MulAssociative(x, b, i);
    MulOneIdentity(x);
  }

  /** A matrix with non-zero determinant divided by itself is the identity. */
  lemma DivSelf(a: Matrix4)
    requires Det(a) != 0.0
    ensures Div(a, a) == One()
  {
    MulOneIdentity(a);
    DivUnique(a, a, One());
  }

  /** At tolerance zero closeness is equality, so changing any one entry breaks it. */
  lemma CloseEpsZeroIsEquality(a: Matrix4, b: Matrix4)
    ensures CloseEps(a, b, 0.0) <==> a == b
  {
  }

  lemma CloseEpsReflexiveSymmetric(a: Matrix4, b: Matrix4, eps: real)
    requires eps >= 0.0
    ensures CloseEps(a, a, eps)
    ensures CloseEps(a, b, eps) <==> CloseEps(b, a, eps)
  {
  }

  /** Fixtures from the library's tests: scaling and the identity. */
  lemma ScaleOneFixtures()
    ensures Scale(2.0) == Matrix4(
      2.0, 0.0, 0.0, 0.0,
      0.0, 2.0, 0.0, 0.0,
      0.0, 0.0, 2.0, 0.0,
      0.0, 0.0, 0.0, 2.0)
    ensures One() == Matrix4(
      1.0, 0.0, 0.0, 0.0,
      0.0, 1.0, 0.0, 0.0,
      0.0, 0.0, 1.0, 0.0,
      0.0, 0.0, 0.0, 1.0)
  {
  }

  /** Fixture from the library's tests: the sum of two diagonal matrices. */
  lemma AddFixture()
    ensures Add(Matrix4(
      1.0, 0.0, 0.0, 0.0,
      0.0, 2.0, 0.0, 0.0,
      0.0, 0.0, 3.0, 0.0,
      0.0, 0.0, 0.0, 4.0), Matrix4(
      4.0, 0.0, 0.0, 0.0,
      0.0, 3.0, 0.0, 0.0,
      0.0, 0.0, 2.0, 0.0,
      0.0, 0.0, 0.0, 1.0)) == Matrix4(
      5.0, 0.0, 0.0, 0.0,
      0.0, 5.0, 0.0, 0.0,
      0.0, 0.0, 5.0, 0.0,
      0.0, 0.0, 0.0, 5.0)
  {
  }

  /** Fixture from the library's tests: the difference of two diagonal matrices. */
  lemma SubFixture()
    ensures Sub(Matrix4(
      1.0, 0.0, 0.0, 0.0,
      0.0, 2.0, 0.0, 0.0,
      0.0, 0.0, 3.0, 0.0,
      0.0, 0.0, 0.0, 4.0), Matrix4(
      4.0, 0.0, 0.0, 0.0,
      0.0, 3.0, 0.0, 0.0,
      0.0, 0.0, 2.0, 0.0,
      0.0, 0.0, 0.0, 1.0)) == Matrix4(
      -3.0, 0.0, 0.0, 0.0,
      0.0, -1.0, 0.0, 0.0,
      0.0, 0.0, 1.0, 0.0,
      0.0, 0.0, 0.0, 3.0)
  {
  }

  /** Fixture from the library's tests: the negation of a diagonal matrix. */
  lemma NegFixture()
    ensures Neg(Matrix4(
      1.0, 0.0, 0.0, 0.0,
      0.0, 2.0, 0.0, 0.0,
      0.0, 0.0, 3.0, 0.0,
      0.0, 0.0, 0.0, 4.0)) == Matrix4(
      -1.0, 0.0, 0.0, 0.0,
      0.0, -2.0, 0.0, 0.0,
      0.0, 0.0, -3.0, 0.0,
      0.0, 0.0, 0.0, -4.0)
  {
  }

  /** Fixture from the library's tests: the product of two diagonal matrices. */
  lemma MulFixture()
    ensures Mul(Matrix4(
      1.0, 0.0, 0.0, 0.0,
      0.0, 2.0, 0.0, 0.0,
      0.0, 0.0, 3.0, 0.0,
      0.0, 0.0, 0.0, 4.0), Matrix4(
      4.0, 0.0, 0.0, 0.0,
      0.0, 3.0, 0.0, 0.0,
      0.0, 0.0, 2.0, 0.0,
      0.0, 0.0, 0.0, 1.0)) == Matrix4(
      4.0, 0.0, 0.0, 0.0,
      0.0, 6.0, 0.0, 0.0,
      0.0, 0.0, 6.0, 0.0,
      0.0, 0.0, 0.0, 4.0)
  {
  }

  /** Fixture from the library's tests: the determinant of a diagonal matrix. */
  lemma DetFixture()
    ensures Det(Matrix4(
      1.0, 0.0, 0.0, 0.0,
      0.0, 2.0, 0.0, 0.0,
      0.0, 0.0, 3.0, 0.0,
      0.0, 0.0, 0.0, 4.0)) == 24.0
  {
  }

  /** The matrix of the library's inverse test. */
  const PrimeMatrix := Matrix4(
      2.0, 3.0, 5.0, 7.0,
      11.0, 13.0, 17.0, 19.0,
      23.0, 29.0, 31.0, 37.0,
      41.0, 43.0, 47.0, 51.0)

  /** The inverse of PrimeMatrix; PrimeInverseAdjugate relates it to the adjugate. */
  const PrimeInverse := Matrix4(
      21.0 / 37.0, -2.0 / 5.0, -1.0 / 5.0, 8.0 / 37.0,
      -25.0 / 37.0, 1.0 / 10.0, 3.0 / 10.0, -6.0 / 37.0,
      -28.0 / 37.0, 4.0 / 5.0, -1.0 / 10.0, -9.0 / 74.0,
      30.0 / 37.0, -1.0 / 2.0, 0.0, 7.0 / 74.0)

  /** Fixture from the library's tests: the inverse of the prime matrix. */
  lemma InvFixture()
    ensures Det(PrimeMatrix) == 740.0
    ensures Inv(PrimeMatrix) == PrimeInverse
    ensures Det(PrimeInverse) == 1.0 / 740.0
  {
    assert Adjugate(PrimeMatrix) == Matrix4(
                                     420.0, -296.0, -148.0, 160.0,
                                     -500.0, 74.0, 222.0, -120.0,
                                     -560.0, 592.0, -74.0, -90.0,
                                     600.0, -370.0, 0.0, 70.0);
  }

  /** The adjugate of the inverse: the prime matrix over its determinant. */
  const PrimeAdjugateInverse := Matrix4(2.0 / 740.0, 3.0 / 740.0, 5.0 / 740.0, 7.0 / 740.0, 11.0 / 740.0, 13.0 / 740.0, 17.0 / 740.0, 19.0 / 740.0, 23.0 / 740.0, 29.0 / 740.0, 31.0 / 740.0, 37.0 / 740.0, 41.0 / 740.0, 43.0 / 740.0, 47.0 / 740.0, 51.0 / 740.0)

  /** The determinant and the adjugate of the inverse of the prime matrix. */
  lemma PrimeInverseAdjugate()
    ensures Det(PrimeInverse) == 1.0 / 740.0
    ensures Adjugate(PrimeInverse) == PrimeAdjugateInverse
    ensures DivideEntries(PrimeAdjugateInverse, 1.0 / 740.0) == PrimeMatrix
  {
  }

  /**
   * Fixture from the library's tests: inverting the prime matrix twice gives it
   * back (the inverse of its inverse is the prime matrix itself), so the two are close.
   */
  lemma InvInvFixture()
    ensures Inv(PrimeMatrix) == PrimeInverse
    ensures Det(PrimeInverse) == 1.0 / 740.0 && Inv(PrimeInverse) == PrimeMatrix
    ensures CloseEps(PrimeMatrix, Inv(PrimeInverse), 0.0001)
  {
    InvFixture();
    PrimeInverseAdjugate();
    CloseEpsReflexiveSymmetric(PrimeMatrix, PrimeMatrix, 0.0001);
  }

  /** Fixture from the library's tests: the identity over itself is close to the identity. */
  lemma DivFixture()
    ensures CloseEps(Div(One(), One()), One(), 0.00001)
  {
    InvOne();
    MulOneIdentity(One());
    CloseEpsReflexiveSymmetric(One(), One(), 0.00001);
  }

  /** Fixtures from the library's tests: closeness at tolerance zero. */
  lemma CloseEpsFixtures()
    ensures CloseEps(PrimeMatrix, PrimeMatrix, 0.0)
    ensures !CloseEps(PrimeMatrix, Zero(), 0.0)
  {
  }
}
