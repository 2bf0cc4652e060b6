/**
 * The scalar backend shared by every algebraic type: reciprocal and
 * epsilon-closeness of a single number. The library implements both for
 * its two floating-point widths; here a scalar is a mathematical `real`.
 */
module Scalar {

  /** Absolute value, as the closeness test computes it (negate when below zero). */
  function Abs(x: real): (r: real)
    ensures r >= 0.0
    ensures r == x || r == -x
  {
    if x < 0.0 then -x else x
  }

  /** Reciprocal `1 / x`; a zero argument is excluded instead of producing infinity. */
  function Inv(x: real): (r: real)
    requires x != 0.0
    ensures r * x == 1.0
    ensures r != 0.0
  {
    1.0 / x
  }

  /** The square `x * x`, the building block of every squared norm; never negative. */
  function Sq(x: real): (r: real)
    ensures r >= 0.0
  {
    x * x
  }

  /** A non-zero number has a non-zero square: dividing the square by the number gives it back. */
  lemma SqNonZero(x: real)
    requires x != 0.0
    ensures Sq(x) != 0.0
  {
    var y := 1.0 / x;
    assert x * y == 1.0;
    assert Sq(x) * y == x;
  }

  /** A square is zero exactly for zero and positive otherwise. */
  lemma SqZeroIff(x: real)
    ensures Sq(x) == 0.0 <==> x == 0.0
    ensures x != 0.0 ==> Sq(x) > 0.0
  {
    if x != 0.0 {
      SqNonZero(x);
    }
  }

  /** A non-zero factor can be cancelled from both sides of an equation. */
  lemma CancelNonZero(n: real, u: real, v: real)
    requires n != 0.0
    requires n * u == n * v
    ensures u == v
  {
    assert u == (n * u) / n && v == (n * v) / n;
  }

  /** Squaring is multiplicative. */
  lemma SqMultiplicative(x: real, y: real)
    ensures Sq(x * y) == Sq(x) * Sq(y)
  {
  }

  /**
   * Closeness within `eps`: the distance between `a` and `b`, taken as
   * absolute value of their difference, is at most `eps`.
   */
  function CloseEps(a: real, b: real, eps: real): (r: bool)
    ensures r <==> a - eps <= b <= a + eps
  {
    var d := a - b;
    var m := if d < 0.0 then -d else d;
    m <= eps
  }

  /** With a zero tolerance closeness is exact equality. */
  lemma CloseEpsZeroIsEquality(a: real, b: real)
    ensures CloseEps(a, b, 0.0) <==> a == b
  {
  }

  /** Closeness is symmetric in its two operands. */
  lemma CloseEpsSymmetric(a: real, b: real, eps: real)
    ensures CloseEps(a, b, eps) <==> CloseEps(b, a, eps)
  {
  }

  /** A value is close to itself for every non-negative tolerance. */
  lemma CloseEpsReflexive(a: real, eps: real)
    requires eps >= 0.0
    ensures CloseEps(a, a, eps)
  {
  }

  /** Widening the tolerance keeps two values close. */
  lemma CloseEpsMonotone(a: real, b: real, eps: real, eps': real)
    requires eps <= eps'
    ensures CloseEps(a, b, eps) ==> CloseEps(a, b, eps')
  {
  }

  /** Inverting twice gives back the original value. */
  lemma InvInvolution(x: real)
    requires x != 0.0
    ensures Inv(Inv(x)) == x
  {
    var y := Inv(x);
    assert y * x == 1.0;
    assert Inv(y) * y == 1.0;
  }

  /** The `f64` closeness fixture from the library's tests, with a value just outside tolerance zero and a reciprocal beside it. */
  lemma Fixtures()
    ensures CloseEps(1.0, 1.0, 0.0)
    ensures !CloseEps(1.0, 1.000001, 0.0)
    ensures Inv(2.0) == 0.5
  {
  }
}
