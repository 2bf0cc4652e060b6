/**
 * Quaternions `x i + y j + z k + w`, the library's representation of 3D
 * rotations. The scalar part `w` is stored after the vector part.
 */
module Quaternions {
  import Scalar

  datatype Quaternion = Quaternion(x: real, y: real, z: real, w: real)

  /** The additive identity (the derived `Zero`). */
  function Zero(): Quaternion {
    Quaternion(0.0, 0.0, 0.0, 0.0)
  }

  /** The multiplicative identity: vector part zero, scalar part one. */
  function One(): Quaternion {
    Quaternion(0.0, 0.0, 0.0, 1.0)
  }

  /** The scalar `factor` embedded as a quaternion with zero vector part. */
  function Scale(factor: real): Quaternion {
    Quaternion(0.0, 0.0, 0.0, factor)
  }

  function Add(a: Quaternion, b: Quaternion): Quaternion {
    Quaternion(a.x + b.x, a.y + b.y, a.z + b.z, a.w + b.w)
  }

  /** Subtraction undoes addition. */
  function Sub(a: Quaternion, b: Quaternion): (r: Quaternion)
    ensures Add(r, b) == a
  {
    Quaternion(a.x - b.x, a.y - b.y, a.z - b.z, a.w - b.w)
  }

  /** Negation gives the additive inverse. */
  function Neg(a: Quaternion): (r: Quaternion)
    ensures Add(a, r) == Zero()
  {
    Quaternion(-a.x, -a.y, -a.z, -a.w)
  }

  /** The Hamilton product. */
  function Mul(a: Quaternion, b: Quaternion): Quaternion {
    Quaternion(
      a.w * b.x - a.z * b.y + a.y * b.z + a.x * b.w,
      a.z * b.x + a.w * b.y - a.x * b.z + a.y * b.w,
      a.x * b.y - a.y * b.x + a.w * b.z + a.z * b.w,
      a.w * b.w - a.x * b.x - a.y * b.y - a.z * b.z)
  }

  /** Squared norm `x² + y² + z² + w²`. */
  function NormSq(a: Quaternion): (r: real)
    ensures r >= 0.0
  {
    Scalar.Sq(a.x) + Scalar.Sq(a.y) + Scalar.Sq(a.z) + Scalar.Sq(a.w)
  }

  /** `b` is a two-sided multiplicative inverse of `a`. */
  predicate IsInverse(a: Quaternion, b: Quaternion) {
    Mul(a, b) == One() && Mul(b, a) == One()
  }

  /** Reciprocal of a quaternion of non-zero norm (conjugate over squared norm): a two-sided inverse. */
  function Inv(a: Quaternion): (r: Quaternion)
    requires NormSq(a) != 0.0
    ensures IsInverse(a, r)
  {
    var len2 := a.x * a.x + a.y * a.y + a.z * a.z + a.w * a.w;
    assert a == Quaternion(a.x, a.y, a.z, a.w);
    InvComponents(a.x, a.y, a.z, a.w, len2);
    var r := Quaternion(-a.x / len2, -a.y / len2, -a.z / len2, a.w / len2);
    r
  }

  /** The scalar algebra behind `Inv`: the conjugate over the squared norm is a two-sided inverse. */
  lemma InvComponents(x: real, y: real, z: real, w: real, n: real)
    requires n == x * x + y * y + z * z + w * w && n != 0.0
    ensures IsInverse(Quaternion(x, y, z, w), Quaternion(-x / n, -y / n, -z / n, w / n))
  {
    var q := 1.0 / n;
    assert n * q == 1.0;
    assert -x / n == (-x) * q && -y / n == (-y) * q && -z / n == (-z) * q && w / n == w * q;
    ConjugateProduct(x, y, z, w, n, q);
  }

  /** The conjugate scaled by the reciprocal `q` of the squared norm `n` is a two-sided inverse. */
  lemma ConjugateProduct(x: real, y: real, z: real, w: real, n: real, q: real)
    requires n == x * x + y * y + z * z + w * w && n * q == 1.0
    ensures IsInverse(Quaternion(x, y, z, w), Quaternion((-x) * q, (-y) * q, (-z) * q, w * q))
  {
    assert w * (w * q) - x * ((-x) * q) - y * ((-y) * q) - z * ((-z) * q) == n * q;
  }

  /**
   * Division by a quaternion of non-zero norm, in the library's expanded
   * form: the quotient times the divisor (on the right) is the dividend.
   */
  function Div(a: Quaternion, b: Quaternion): (r: Quaternion)
    requires NormSq(b) != 0.0
    ensures Mul(r, b) == a
  {
    var len2 := b.x * b.x + b.y * b.y + b.z * b.z + b.w * b.w;
    var r := DivideComponents(Numerators(a, b), len2);
    DivCore(a, b, r, len2);
    r
  }

  /** The conjugate: the vector part negated. */
  function Conjugate(a: Quaternion): Quaternion {
    Quaternion(-a.x, -a.y, -a.z, a.w)
  }

  /** The numerators of the library's quotient formula for `a / b`. */
  function Numerators(a: Quaternion, b: Quaternion): Quaternion {
    Quaternion(
      a.z * b.y - a.w * b.x - a.y * b.z + a.x * b.w,
      a.x * b.z - a.z * b.x - a.w * b.y + a.y * b.w,
      a.y * b.x - a.x * b.y - a.w * b.z + a.z * b.w,
      a.w * b.w + a.x * b.x + a.y * b.y + a.z * b.z)
  }

  /** The numerators of the quotient are `a` times the conjugate of `b`. */
  lemma NumeratorsAreConjugateProduct(a: Quaternion, b: Quaternion)
    ensures Numerators(a, b) == Mul(a, Conjugate(b))
  {
  }

  /** `r` times `n` is `f`, component by component. */
  predicate IsScaled(r: Quaternion, n: real, f: Quaternion) {
    r.x * n == f.x && r.y * n == f.y && r.z * n == f.z && r.w * n == f.w
  }

  /** Every component of `f` divided by the non-zero `n`: the result times `n` is `f` again. */
  function DivideComponents(f: Quaternion, n: real): (r: Quaternion)
    requires n != 0.0
    ensures IsScaled(r, n, f)
  {
    Quaternion(f.x / n, f.y / n, f.z / n, f.w / n)
  }

  /** `r` times `n` is the library's quotient numerator for `a / b`, with `n` the squared norm of `b`. */
  predicate IsScaledQuotient(a: Quaternion, b: Quaternion, r: Quaternion, n: real) {
    n == b.x * b.x + b.y * b.y + b.z * b.z + b.w * b.w &&
    IsScaled(r, n, Numerators(a, b))
  }

  /** The numerators over a non-zero `n` give a quaternion whose product with `b` is `a`. */
  lemma DivCore(a: Quaternion, b: Quaternion, r: Quaternion, n: real)
    requires n != 0.0
    requires IsScaledQuotient(a, b, r, n)
    ensures Mul(r, b) == a
  {
    MulIsProduct(r, b);
    DivNumeratorX(a, b, r, n);
    DivNumeratorY(a, b, r, n);
    DivNumeratorZ(a, b, r, n);
    DivNumeratorW(a, b, r, n);
    Scalar.CancelNonZero(n, Mul(r, b).x, a.x);
    Scalar.CancelNonZero(n, Mul(r, b).y, a.y);
    Scalar.CancelNonZero(n, Mul(r, b).z, a.z);
    Scalar.CancelNonZero(n, Mul(r, b).w, a.w);
  }

  /** One component of `r b`, scaled by `n`, is that component of `a` scaled by `n`. */
  lemma DivNumeratorX(a: Quaternion, b: Quaternion, r: Quaternion, n: real)
    requires IsScaledQuotient(a, b, r, n)
    ensures n * (r.w * b.x - r.z * b.y + r.y * b.z + r.x * b.w) == n * a.x
  {
  }

  lemma DivNumeratorY(a: Quaternion, b: Quaternion, r: Quaternion, n: real)
    requires IsScaledQuotient(a, b, r, n)
    ensures n * (r.z * b.x + r.w * b.y - r.x * b.z + r.y * b.w) == n * a.y
  {
  }

  lemma DivNumeratorZ(a: Quaternion, b: Quaternion, r: Quaternion, n: real)
    requires IsScaledQuotient(a, b, r, n)
    ensures n * (r.x * b.y - r.y * b.x + r.w * b.z + r.z * b.w) == n * a.z
  {
  }

  lemma DivNumeratorW(a: Quaternion, b: Quaternion, r: Quaternion, n: real)
    requires IsScaledQuotient(a, b, r, n)
    ensures n * (r.w * b.w - r.x * b.x - r.y * b.y - r.z * b.z) == n * a.w
  {
  }

  /** Closeness: all four components are within `eps` of each other. */
  function CloseEps(a: Quaternion, b: Quaternion, eps: real): (r: bool)
    ensures r <==> (Scalar.Abs(a.x - b.x) <= eps && Scalar.Abs(a.y - b.y) <= eps &&
                    Scalar.Abs(a.z - b.z) <= eps && Scalar.Abs(a.w - b.w) <= eps)
  {
    if !Scalar.CloseEps(a.x, b.x, eps) then
      false
    else if !Scalar.CloseEps(a.y, b.y, eps) then
      false
    else if !Scalar.CloseEps(a.z, b.z, eps) then
      false
    else if !Scalar.CloseEps(a.w, b.w, eps) then
      false
    else
      true
  }

  /** `p` is the Hamilton product of `a` and `b`, component by component. */
  predicate IsProduct(a: Quaternion, b: Quaternion, p: Quaternion) {
    p.x == a.w * b.x - a.z * b.y + a.y * b.z + a.x * b.w &&
    p.y == a.z * b.x + a.w * b.y - a.x * b.z + a.y * b.w &&
    p.z == a.x * b.y - a.y * b.x + a.w * b.z + a.z * b.w &&
    p.w == a.w * b.w - a.x * b.x - a.y * b.y - a.z * b.z
  }

  /** `Mul` computes the Hamilton product. */
  lemma MulIsProduct(a: Quaternion, b: Quaternion)
    ensures IsProduct(a, b, Mul(a, b))
  {
  }

  /** A vector of three-dimensional space, the vector part of a quaternion. */
  datatype Vec3 = Vec3(x: real, y: real, z: real)

  function VectorPart(q: Quaternion): Vec3 {
    Vec3(q.x, q.y, q.z)
  }

  /** The quaternion with scalar part `s` and vector part `v`. */
  function FromParts(s: real, v: Vec3): Quaternion {
    Quaternion(v.x, v.y, v.z, s)
  }

  function Dot(u: Vec3, v: Vec3): real {
    u.x * v.x + u.y * v.y + u.z * v.z
  }

  /** The right-handed cross product. */
  function Cross(u: Vec3, v: Vec3): Vec3 {
    Vec3(u.y * v.z - u.z * v.y, u.z * v.x - u.x * v.z, u.x * v.y - u.y * v.x)
  }

  function VecScale(c: real, v: Vec3): Vec3 {
    Vec3(c * v.x, c * v.y, c * v.z)
  }

  function VecAdd(u: Vec3, v: Vec3): Vec3 {
    Vec3(u.x + v.x, u.y + v.y, u.z + v.z)
  }

  /**
   * The Hamilton product written with dot and cross products:
   * `(s, u) (t, v) = (s t - u·v, s v + t u + u × v)`.
   */
  function ScalarVectorProduct(a: Quaternion, b: Quaternion): Quaternion {
    var u, v := VectorPart(a), VectorPart(b);
    FromParts(a.w * b.w - Dot(u, v), VecAdd(VecAdd(VecScale(a.w, v), VecScale(b.w, u)), Cross(u, v)))
  }

  /** `Mul` is the Hamilton product in its scalar-vector form. */
  lemma MulIsScalarVectorProduct(a: Quaternion, b: Quaternion)
    ensures Mul(a, b) == ScalarVectorProduct(a, b)
  {
    var u, v := VectorPart(a), VectorPart(b);
    var s := VecAdd(VecAdd(VecScale(a.w, v), VecScale(b.w, u)), Cross(u, v));
    assert s.x == Mul(a, b).x && s.y == Mul(a, b).y && s.z == Mul(a, b).z;
  }

  /** The product of two pure quaternions is minus their dot product plus their cross product. */
  lemma PureProduct(u: Vec3, v: Vec3)
    ensures Mul(FromParts(0.0, u), FromParts(0.0, v)) == FromParts(-Dot(u, v), Cross(u, v))
  {
    var a, b := FromParts(0.0, u), FromParts(0.0, v);
    MulIsScalarVectorProduct(a, b);
    assert VectorPart(a) == u && VectorPart(b) == v;
    assert VecAdd(VecAdd(VecScale(0.0, v), VecScale(0.0, u)), Cross(u, v)) == Cross(u, v);
  }

  /** The cross product is anti-commutative, so quaternions commute exactly when their vector parts are parallel. */
  lemma CommutatorIsCross(a: Quaternion, b: Quaternion)
    ensures Sub(Mul(a, b), Mul(b, a)) == FromParts(0.0, VecScale(2.0, Cross(VectorPart(a), VectorPart(b))))
  {
    MulIsScalarVectorProduct(a, b);
    MulIsScalarVectorProduct(b, a);
  }

  /** One component of associativity: `(a b) c` and `a (b c)` agree, given `p = a b` and `q = b c`. */
  lemma MulAssociativeX(a: Quaternion, b: Quaternion, c: Quaternion, p: Quaternion, q: Quaternion)
    requires IsProduct(a, b, p) && IsProduct(b, c, q)
    ensures p.w * c.x - p.z * c.y + p.y * c.z + p.x * c.w
         == a.w * q.x - a.z * q.y + a.y * q.z + a.x * q.w
  {
  }

  lemma MulAssociativeY(a: Quaternion, b: Quaternion, c: Quaternion, p: Quaternion, q: Quaternion)
    requires IsProduct(a, b, p) && IsProduct(b, c, q)
    ensures p.z * c.x + p.w * c.y - p.x * c.z + p.y * c.w
         == a.z * q.x + a.w * q.y - a.x * q.z + a.y * q.w
  {
  }

  lemma MulAssociativeZ(a: Quaternion, b: Quaternion, c: Quaternion, p: Quaternion, q: Quaternion)
    requires IsProduct(a, b, p) && IsProduct(b, c, q)
    ensures p.x * c.y - p.y * c.x + p.w * c.z + p.z * c.w
         == a.x * q.y - a.y * q.x + a.w * q.z + a.z * q.w
  {
  }

  lemma MulAssociativeW(a: Quaternion, b: Quaternion, c: Quaternion, p: Quaternion, q: Quaternion)
    requires IsProduct(a, b, p) && IsProduct(b, c, q)
    ensures p.w * c.w - p.x * c.x - p.y * c.y - p.z * c.z
         == a.w * q.w - a.x * q.x - a.y * q.y - a.z * q.z
  {
  }

  /** The Hamilton product is associative. */
  lemma MulAssociative(a: Quaternion, b: Quaternion, c: Quaternion)
    ensures Mul(Mul(a, b), c) == Mul(a, Mul(b, c))
  {
    MulIsProduct(a, b);
    MulIsProduct(b, c);
    MulAssociativeX(a, b, c, Mul(a, b), Mul(b, c));
    MulAssociativeY(a, b, c, Mul(a, b), Mul(b, c));
    MulAssociativeZ(a, b, c, Mul(a, b), Mul(b, c));
    MulAssociativeW(a, b, c, Mul(a, b), Mul(b, c));
  }

  /** The Hamilton product is not commutative: `i j` and `j i` differ (they are `k` and `-k`). */
  lemma MulNotCommutative()
    ensures Mul(Quaternion(1.0, 0.0, 0.0, 0.0), Quaternion(0.0, 1.0, 0.0, 0.0))
         != Mul(Quaternion(0.0, 1.0, 0.0, 0.0), Quaternion(1.0, 0.0, 0.0, 0.0))
  {
    assert Mul(Quaternion(1.0, 0.0, 0.0, 0.0), Quaternion(0.0, 1.0, 0.0, 0.0)).z == 1.0;
  }

  lemma AddZeroIdentity(a: Quaternion)
    ensures Add(a, Zero()) == a && Add(Zero(), a) == a
  {
  }

  lemma NegInvolution(a: Quaternion)
    ensures Neg(Neg(a)) == a
  {
  }

  lemma SubIsAddNeg(a: Quaternion, b: Quaternion)
    ensures Sub(a, b) == Add(a, Neg(b))
  {
  }

  lemma MulOneIdentity(a: Quaternion)
    ensures Mul(a, One()) == a && Mul(One(), a) == a
  {
  }

  /** Multiplying by an embedded scalar, on either side, scales every component. */
  lemma ScaleIsScalarMultiplication(factor: real, a: Quaternion)
    ensures Mul(Scale(factor), a) == Quaternion(factor * a.x, factor * a.y, factor * a.z, factor * a.w)
    ensures Mul(a, Scale(factor)) == Quaternion(factor * a.x, factor * a.y, factor * a.z, factor * a.w)
  {
  }

  lemma ScaleOneIsOne()
    ensures Scale(1.0) == One() && Scale(0.0) == Zero()
  {
  }

  /** Euler's four-square identity, with `p` the Hamilton product of `a` and `b`. */
  lemma FourSquareIdentity(ax: real, ay: real, az: real, aw: real,
                           bx: real, by_: real, bz: real, bw: real,
                           px: real, py: real, pz: real, pw: real)
    requires px == aw * bx - az * by_ + ay * bz + ax * bw
    requires py == az * bx + aw * by_ - ax * bz + ay * bw
    requires pz == ax * by_ - ay * bx + aw * bz + az * bw
    requires pw == aw * bw - ax * bx - ay * by_ - az * bz
    ensures px * px + py * py + pz * pz + pw * pw
         == (ax * ax + ay * ay + az * az + aw * aw) * (bx * bx + by_ * by_ + bz * bz + bw * bw)
  {
  }

  /** The squared norm is multiplicative. */
  lemma NormSqMultiplicative(a: Quaternion, b: Quaternion)
    ensures NormSq(Mul(a, b)) == NormSq(a) * NormSq(b)
  {
    var p := Mul(a, b);
    FourSquareIdentity(a.x, a.y, a.z, a.w, b.x, b.y, b.z, b.w, p.x, p.y, p.z, p.w);
  }

  /** The squared norm vanishes exactly at zero, so `Div` and `Inv` apply to every other quaternion. */
  lemma NormSqZeroIff(a: Quaternion)
    ensures NormSq(a) == 0.0 <==> a == Zero()
  {
    Scalar.SqZeroIff(a.x);
    Scalar.SqZeroIff(a.y);
    Scalar.SqZeroIff(a.z);
    Scalar.SqZeroIff(a.w);
  }

  /** A right inverse and a left inverse of the same quaternion coincide. */
  lemma InverseUnique(a: Quaternion, i: Quaternion, j: Quaternion)
    requires Mul(a, i) == One() && Mul(j, a) == One()
    ensures i == j
  {
    calc {
      i;
      Mul(One(), i);
      Mul(Mul(j, a), i);
      { MulAssociative(j, a, i); }
      Mul(j, Mul(a, i));
      Mul(j, One());
    }
  }

  /** Division is multiplication by the inverse of the divisor, on the right. */
  lemma DivIsMulInv(a: Quaternion, b: Quaternion)
    requires NormSq(b) != 0.0
    ensures Div(a, b) == Mul(a, Inv(b))
  {
    var q, i := Div(a, b), Inv(b);
    calc {
      q;
      Mul(q, One());
      Mul(q, Mul(b, i));
      { MulAssociative(q, b, i); }
      Mul(Mul(q, b), i);
      Mul(a, i);
    }
  }

  /** A quaternion of non-zero norm divided by itself is one. */
  lemma DivSelf(a: Quaternion)
    requires NormSq(a) != 0.0
    ensures Div(a, a) == One()
  {
    DivIsMulInv(a, a);
  }

  /** An inverse is never zero: its product with the original quaternion is one. */
  lemma InvNonZero(a: Quaternion)
    requires NormSq(a) != 0.0
    ensures NormSq(Inv(a)) != 0.0
  {
    var i := Inv(a);
    assert Mul(a, i) == One();
    NormSqZeroIff(i);
  }

  /** Inverting twice gives back the original quaternion. */
  lemma InvInvolution(a: Quaternion)
    requires NormSq(a) != 0.0
    ensures NormSq(Inv(a)) != 0.0 && Inv(Inv(a)) == a
  {
    InvNonZero(a);
    var i := Inv(a);
    InverseUnique(i, Inv(i), a);
  }

  /** At tolerance zero closeness is equality, so changing any one component breaks it. */
  lemma CloseEpsZeroIsEquality(a: Quaternion, b: Quaternion)
    ensures CloseEps(a, b, 0.0) <==> a == b
  {
  }

  lemma CloseEpsReflexiveSymmetric(a: Quaternion, b: Quaternion, eps: real)
    requires eps >= 0.0
    ensures CloseEps(a, a, eps)
    ensures CloseEps(a, b, eps) <==> CloseEps(b, a, eps)
  {
  }

  /** Fixtures from the library's tests: scaling and the identity. */
  lemma ScaleOneFixtures()
    ensures Scale(2.0) == Quaternion(0.0, 0.0, 0.0, 2.0)
    ensures One() == Quaternion(0.0, 0.0, 0.0, 1.0)
  {
  }

  /** Fixtures from the library's tests: the additive operations. */
  lemma AdditiveFixtures()
    ensures Add(Quaternion(1.0, 2.0, 3.0, 4.0), Quaternion(4.0, 3.0, 2.0, 1.0)) == Quaternion(5.0, 5.0, 5.0, 5.0)
    ensures Sub(Quaternion(1.0, 2.0, 3.0, 4.0), Quaternion(4.0, 3.0, 2.0, 1.0)) == Quaternion(-3.0, -1.0, 1.0, 3.0)
    ensures Neg(Quaternion(1.0, 2.0, 3.0, 4.0)) == Quaternion(-1.0, -2.0, -3.0, -4.0)
  {
  }

  /** Fixture from the library's tests: the Hamilton product. */
  lemma MulFixture()
    ensures Mul(Quaternion(1.0, 2.0, 3.0, 4.0), Quaternion(4.0, 3.0, 2.0, 1.0)) == Quaternion(12.0, 24.0, 6.0, -12.0)
  {
  }

  /** Fixture from the library's tests: the squared norm. */
  lemma NormSqFixture()
    ensures NormSq(Quaternion(1.0, 2.0, 3.0, 4.0)) == 30.0
    ensures NormSq(Quaternion(4.0, 3.0, 2.0, 1.0)) == 30.0
  {
    assert Scalar.Sq(1.0) == 1.0 && Scalar.Sq(2.0) == 4.0 && Scalar.Sq(3.0) == 9.0 && Scalar.Sq(4.0) == 16.0;
  }

  /** Fixture from the library's tests: the quotient, with the divisor's squared norm 30. */
  lemma DivFixture()
    ensures NormSq(Quaternion(4.0, 3.0, 2.0, 1.0)) == 30.0
    ensures Div(Quaternion(1.0, 2.0, 3.0, 4.0), Quaternion(4.0, 3.0, 2.0, 1.0))
         == Quaternion(-10.0 / 30.0, -20.0 / 30.0, 0.0 / 30.0, 20.0 / 30.0)
  {
    NormSqFixture();
    assert Numerators(Quaternion(1.0, 2.0, 3.0, 4.0), Quaternion(4.0, 3.0, 2.0, 1.0)) == Quaternion(-10.0, -20.0, 0.0, 20.0);
  }

  /** Fixture from the library's tests: the inverse of `(1, 2, 3, 4)`. */
  lemma InvFixture()
    ensures NormSq(Quaternion(1.0, 2.0, 3.0, 4.0)) == 30.0
    ensures Inv(Quaternion(1.0, 2.0, 3.0, 4.0)) == Quaternion(-1.0 / 30.0, -2.0 / 30.0, -3.0 / 30.0, 4.0 / 30.0)
  {
    NormSqFixture();
  }

  /** Fixture from the library's tests: inverting twice gives back the input, so it is close to it. */
  lemma InvInvFixture()
    ensures NormSq(Quaternion(1.0, 2.0, 3.0, 4.0)) == 30.0 && NormSq(Inv(Quaternion(1.0, 2.0, 3.0, 4.0))) != 0.0
    ensures Inv(Inv(Quaternion(1.0, 2.0, 3.0, 4.0))) == Quaternion(1.0, 2.0, 3.0, 4.0)
    ensures CloseEps(Inv(Inv(Quaternion(1.0, 2.0, 3.0, 4.0))), Quaternion(1.0, 2.0, 3.0, 4.0), 0.00001)
  {
    NormSqFixture();
    InvInvolution(Quaternion(1.0, 2.0, 3.0, 4.0));
    CloseEpsReflexiveSymmetric(Quaternion(1.0, 2.0, 3.0, 4.0), Quaternion(1.0, 2.0, 3.0, 4.0), 0.00001);
  }

  /** Fixtures from the library's tests: closeness at tolerance zero, one component changed at a time. */
  lemma CloseEpsFixtures()
    ensures CloseEps(Quaternion(1.0, 2.0, 3.0, 4.0), Quaternion(1.0, 2.0, 3.0, 4.0), 0.0)
    ensures !CloseEps(Quaternion(1.0, 2.0, 3.0, 4.0), Quaternion(0.0, 2.0, 3.0, 4.0), 0.0)
    ensures !CloseEps(Quaternion(1.0, 2.0, 3.0, 4.0), Quaternion(1.0, 0.0, 3.0, 4.0), 0.0)
    ensures !CloseEps(Quaternion(1.0, 2.0, 3.0, 4.0), Quaternion(1.0, 2.0, 0.0, 4.0), 0.0)
    ensures !CloseEps(Quaternion(1.0, 2.0, 3.0, 4.0), Quaternion(1.0, 2.0, 3.0, 0.0), 0.0)
  {
  }
}
