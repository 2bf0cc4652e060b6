/**
 * Vectors: variable-length lists of scalars, combined element by element.
 * The binary operations answer an empty vector when the lengths differ;
 * each operation builds its result in a loop that appends one element per
 * step, as the library does.
 */
module Vectors {
  import Scalar

  datatype Vector = Vector(x: seq<real>)

  /** The four element-wise binary operations. */
  datatype BinaryOp = Plus | Minus | Times | Over

  /** The two element-wise unary operations. */
  datatype UnaryOp = Negate | Reciprocal

  /** Every element of `s` is non-zero, so it can be divided by or inverted. */
  predicate NonZero(s: seq<real>) {
    forall i :: 0 <= i < |s| ==> s[i] != 0.0
  }

  /** `Over` divides by the elements of `v`, which must then be non-zero wherever it is applied. */
  predicate Combinable(op: BinaryOp, u: seq<real>, v: seq<real>) {
    op == Over && |u| == |v| ==> NonZero(v)
  }

  predicate Mappable(op: UnaryOp, u: seq<real>) {
    op == Reciprocal ==> NonZero(u)
  }

  function Apply(op: BinaryOp, a: real, b: real): real
    requires op == Over ==> b != 0.0
  {
    match op
    case Plus => a + b
    case Minus => a - b
    case Times => a * b
    case Over => a / b
  }

  function ApplyUnary(op: UnaryOp, a: real): real
    requires op == Reciprocal ==> a != 0.0
  {
    match op
    case Negate => -a
    case Reciprocal => Scalar.Inv(a)
  }

  /**
   * Reference definition of an element-wise binary operation: empty when the
   * lengths differ, otherwise the operation applied to the first elements
   * followed by the combination of the rest.
   */
  function Zip(op: BinaryOp, u: seq<real>, v: seq<real>): (r: seq<real>)
    requires Combinable(op, u, v)
    ensures |u| != |v| ==> r == []
    ensures |u| == |v| ==> |r| == |u|
    ensures |u| == |v| ==> forall i :: 0 <= i < |u| ==> r[i] == Apply(op, u[i], v[i])
    decreases |u|
  {
    if |u| != |v| || |u| == 0 then
      []
    else
      assert Combinable(op, u[1..], v[1..]);
      [Apply(op, u[0], v[0])] + Zip(op, u[1..], v[1..])
  }

  /** Reference definition of an element-wise unary operation. */
  function Map(op: UnaryOp, u: seq<real>): (r: seq<real>)
    requires Mappable(op, u)
    ensures |r| == |u|
    ensures forall i :: 0 <= i < |u| ==> r[i] == ApplyUnary(op, u[i])
  {
    if |u| == 0 then
      []
    else
      assert Mappable(op, u[1..]);
      [ApplyUnary(op, u[0])] + Map(op, u[1..])
  }

  method Add(a: Vector, b: Vector) returns (r: Vector)
    ensures r.x == Zip(Plus, a.x, b.x)
  {
    if |a.x| != |b.x| {
      return Vector([]);
    }
    var res: seq<real> := [];
    var i := 0;
    var n := |a.x|;
    while i < n
      invariant 0 <= i <= n
      invariant |res| == i
      invariant forall k :: 0 <= k < i ==> res[k] == a.x[k] + b.x[k]
    {
      res := res + [a.x[i] + b.x[i]];
      i := i + 1;
    }
    return Vector(res);
  }

  method Sub(a: Vector, b: Vector) returns (r: Vector)
    ensures r.x == Zip(Minus, a.x, b.x)
  {
    if |a.x| != |b.x| {
      return Vector([]);
    }
    var res: seq<real> := [];
    var i := 0;
    var n := |a.x|;
    while i < n
      invariant 0 <= i <= n
      invariant |res| == i
      invariant forall k :: 0 <= k < i ==> res[k] == a.x[k] - b.x[k]
    {
      res := res + [a.x[i] - b.x[i]];
      i := i + 1;
    }
    return Vector(res);
  }

  method Mul(a: Vector, b: Vector) returns (r: Vector)
    ensures r.x == Zip(Times, a.x, b.x)
  {
    if |a.x| != |b.x| {
      return Vector([]);
    }
    var res: seq<real> := [];
    var i := 0;
    var n := |a.x|;
    while i < n
      invariant 0 <= i <= n
      invariant |res| == i
      invariant forall k :: 0 <= k < i ==> res[k] == Apply(Times, a.x[k], b.x[k])
    {
      res := res + [Apply(Times, a.x[i], b.x[i])];
      i := i + 1;
    }
    var z := Zip(Times, a.x, b.x);
    assert forall k :: 0 <= k < n ==> res[k] == z[k];
    return Vector(res);
  }

  /** Element-wise division; the divisor's elements must be non-zero when the lengths agree. */
  method Div(a: Vector, b: Vector) returns (r: Vector)
    requires |a.x| == |b.x| ==> NonZero(b.x)
    ensures r.x == Zip(Over, a.x, b.x)
  {
    if |a.x| != |b.x| {
      return Vector([]);
    }
    var res: seq<real> := [];
    var i := 0;
    var n := |a.x|;
    while i < n
      invariant 0 <= i <= n
      invariant |res| == i
      invariant forall k :: 0 <= k < i ==> res[k] == a.x[k] / b.x[k]
    {
      res := res + [a.x[i] / b.x[i]];
      i := i + 1;
    }
    return Vector(res);
  }

  /** Element-wise reciprocal of a vector without zero elements. */
  method Inv(a: Vector) returns (r: Vector)
    requires NonZero(a.x)
    ensures r.x == Map(Reciprocal, a.x)
  {
    var res: seq<real> := [];
    for i := 0 to |a.x|
      invariant |res| == i
      invariant forall k :: 0 <= k < i ==> res[k] == Scalar.Inv(a.x[k])
    {
      res := res + [Scalar.Inv(a.x[i])];
    }
    return Vector(res);
  }

  method Neg(a: Vector) returns (r: Vector)
    ensures r.x == Map(Negate, a.x)
  {
    var res: seq<real> := [];
    for i := 0 to |a.x|
      invariant |res| == i
      invariant forall k :: 0 <= k < i ==> res[k] == -a.x[k]
    {
      res := res + [-a.x[i]];
    }
    return Vector(res);
  }

  /** The sum of the squares of the elements, accumulated from the front. */
  function SumSquares(s: seq<real>): (r: real)
    ensures r >= 0.0
  {
    if |s| == 0 then 0.0 else SumSquares(s[..|s| - 1]) + Scalar.Sq(s[|s| - 1])
  }

  /** The library's squared norm as written: the first element unsquared plus the squares of the rest. */
  function NormSqAsWritten(s: seq<real>): real
    requires |s| > 0
  {
    s[0] + SumSquares(s[1..])
  }

  /** Squared norm as the library computes it; the first element is read, so the vector must not be empty. */
  method NormSq(a: Vector) returns (r: real)
    requires |a.x| > 0
    ensures r == NormSqAsWritten(a.x)
  {
    var res := a.x[0];
    for i := 1 to |a.x|
      invariant res == a.x[0] + SumSquares(a.x[1..i])
    {
      assert a.x[1..i + 1][..i - 1] == a.x[1..i];
      res := res + a.x[i] * a.x[i];
    }
    assert a.x[1..|a.x|] == a.x[1..];
    return res;
  }

  /** The squared norm as evidently intended: every element squared, starting from zero. */
  method NormSqCorrected(a: Vector) returns (r: real)
    ensures r == SumSquares(a.x)
  {
    var res := 0.0;
    for i := 0 to |a.x|
      invariant res == SumSquares(a.x[..i])
    {
      assert a.x[..i + 1][..i] == a.x[..i];
      res := res + a.x[i] * a.x[i];
    }
    assert a.x[..|a.x|] == a.x;
    return res;
  }

  /**
   * Closeness: none of the positions `i..n` holds a pair of elements further
   * apart than `eps` (the library's `any` over the index range, negated).
   */
  function NoneFar(a: seq<real>, b: seq<real>, eps: real, i: nat): (r: bool)
    requires |a| == |b| && i <= |a|
    ensures r <==> forall k :: i <= k < |a| ==> Scalar.CloseEps(a[k], b[k], eps)
    decreases |a| - i
  {
    if i == |a| then
      true
    else if !Scalar.CloseEps(a[i], b[i], eps) then
      false
    else
      NoneFar(a, b, eps, i + 1)
  }

  /** Closeness of two vectors of the same length: every pair of elements is within `eps`. */
  function CloseEps(a: Vector, b: Vector, eps: real): (r: bool)
    requires |a.x| == |b.x|
    ensures r <==> forall i :: 0 <= i < |a.x| ==> Scalar.Abs(a.x[i] - b.x[i]) <= eps
  {
    if !NoneFar(a.x, b.x, eps, 0) then false else true
  }

  /** Addition and multiplication are commutative. */
  lemma Commutative(u: seq<real>, v: seq<real>)
    ensures Zip(Plus, u, v) == Zip(Plus, v, u)
    ensures Zip(Times, u, v) == Zip(Times, v, u)
  {
  }

  /** Subtraction undoes addition on vectors of the same length. */
  lemma SubUndoesAdd(u: seq<real>, v: seq<real>)
    requires |u| == |v|
    ensures Zip(Minus, Zip(Plus, u, v), v) == u
  {
  }

  /** Division undoes multiplication by a vector without zero elements. */
  lemma DivUndoesMul(u: seq<real>, v: seq<real>)
    requires |u| == |v| && NonZero(v)
    ensures Zip(Over, Zip(Times, u, v), v) == u
  {
    forall i | 0 <= i < |u|
      ensures Zip(Over, Zip(Times, u, v), v)[i] == u[i]
    {
      DivUndoesMulAt(u, v, i);
    }
  }

  lemma DivUndoesMulAt(u: seq<real>, v: seq<real>, i: int)
    requires |u| == |v| && NonZero(v) && 0 <= i < |u|
    ensures Zip(Over, Zip(Times, u, v), v)[i] == u[i]
  {
    var p := Zip(Times, u, v);
    var w := Zip(Over, p, v);
    TimesOverCancel(u[i], v[i]);
  }

  lemma TimesOverCancel(a: real, b: real)
    requires b != 0.0
    ensures Apply(Over, Apply(Times, a, b), b) == a
  {
    var p := a * b;
    var q := p / b;
    assert b * q == b * a;
    Scalar.CancelNonZero(b, q, a);
  }

  /** Subtracting is adding the negation. */
  lemma SubIsAddNeg(u: seq<real>, v: seq<real>)
    ensures Zip(Minus, u, v) == Zip(Plus, u, Map(Negate, v))
  {
  }

  /** Negating twice gives back the vector. */
  lemma NegInvolution(u: seq<real>)
    ensures Map(Negate, Map(Negate, u)) == u
  {
  }

  /** Inverting twice gives back a vector without zero elements. */
  lemma InvInvolution(u: seq<real>)
    requires NonZero(u)
    ensures NonZero(Map(Reciprocal, u)) && Map(Reciprocal, Map(Reciprocal, u)) == u
  {
    var w := Map(Reciprocal, u);
    forall i | 0 <= i < |u|
      ensures w[i] != 0.0 && Scalar.Inv(w[i]) == u[i]
    {
      Scalar.InvInvolution(u[i]);
    }
  }

  /** At tolerance zero closeness is equality, so changing any one element breaks it. */
  lemma CloseEpsZeroIsEquality(a: Vector, b: Vector)
    requires |a.x| == |b.x|
    ensures CloseEps(a, b, 0.0) <==> a == b
  {
    if CloseEps(a, b, 0.0) {
      assert a.x == b.x;
    }
  }

  lemma CloseEpsReflexiveSymmetric(a: Vector, b: Vector, eps: real)
    requires |a.x| == |b.x| && eps >= 0.0
    ensures CloseEps(a, a, eps)
    ensures CloseEps(a, b, eps) <==> CloseEps(b, a, eps)
  {
  }

  /** Splitting off the first element of a sum of squares. */
  lemma {:induction false} SumSquaresFront(s: seq<real>)
    requires |s| > 0
    ensures SumSquares(s) == Scalar.Sq(s[0]) + SumSquares(s[1..])
    decreases |s|
  {
    if |s| > 1 {
      var init := s[..|s| - 1];
      SumSquaresFront(init);
      assert init[1..] == s[1..][..|s[1..]| - 1];
    }
  }

  /** A sum of squares vanishes exactly when every element does. */
  lemma {:induction false} SumSquaresZeroIff(s: seq<real>)
    ensures SumSquares(s) == 0.0 <==> forall i :: 0 <= i < |s| ==> s[i] == 0.0
    decreases |s|
  {
    if |s| > 0 {
      var init := s[..|s| - 1];
      SumSquaresZeroIff(init);
      Scalar.SqZeroIff(s[|s| - 1]);
      if SumSquares(s) == 0.0 {
        forall i | 0 <= i < |s|
          ensures s[i] == 0.0
        {
          if i < |s| - 1 {
            assert s[i] == init[i];
          }
        }
      }
    }
  }

  /**
   * The library's squared norm differs from the sum of squares by its first
   * element: it adds `x[0]` where `x[0]²` is meant, so the two agree exactly
   * when the first element is 0 or 1.
   */
  lemma NormSqAsWrittenDiscrepancy(s: seq<real>)
    requires |s| > 0
    ensures NormSqAsWritten(s) == SumSquares(s) - Scalar.Sq(s[0]) + s[0]
    ensures NormSqAsWritten(s) == SumSquares(s) <==> s[0] == 0.0 || s[0] == 1.0
  {
    SumSquaresFront(s);
    SqFixedPoints(s[0]);
  }

  /** Only 0 and 1 are their own squares. */
  lemma SqFixedPoints(x: real)
    ensures Scalar.Sq(x) == x <==> x == 0.0 || x == 1.0
  {
    if Scalar.Sq(x) == x && x != 0.0 {
      assert x * x == x * 1.0;
      Scalar.CancelNonZero(x, x, 1.0);
    }
  }

  /** Inputs that show the discrepancy: a single 2 has norm 2 instead of 4, a single -1 a negative norm. */
  lemma NormSqCounterexamples()
    ensures NormSqAsWritten([2.0]) == 2.0 && SumSquares([2.0]) == 4.0
    ensures NormSqAsWritten([-1.0]) == -1.0 && SumSquares([-1.0]) == 1.0
  {
    assert [2.0][1..] == [] && [2.0][..0] == [];
    assert [-1.0][1..] == [] && [-1.0][..0] == [];
  }

  /** Fixtures from the library's tests: the element-wise binary operations. */
  lemma ZipFixtures()
    ensures Zip(Plus, [1.0, 2.0, 3.0], [3.0, 2.0, 1.0]) == [4.0, 4.0, 4.0]
    ensures Zip(Minus, [1.0, 2.0, 3.0], [3.0, 2.0, 1.0]) == [-2.0, 0.0, 2.0]
    ensures Zip(Times, [1.0, 2.0, 3.0], [3.0, 2.0, 1.0]) == [3.0, 4.0, 3.0]
    ensures Zip(Over, [1.0, 2.0, 3.0], [3.0, 2.0, 1.0]) == [1.0 / 3.0, 1.0, 3.0]
    ensures Zip(Plus, [1.0, 2.0], [1.0]) == []
  {
  }

  /** Fixtures from the library's tests: the element-wise unary operations. */
  lemma MapFixtures()
    ensures Map(Negate, [1.0, 2.0, 3.0]) == [-1.0, -2.0, -3.0]
    ensures Map(Reciprocal, [1.0, 2.0, 3.0]) == [1.0, 0.5, 1.0 / 3.0]
  {
  }

  /** Fixture from the library's tests: the quotient is close to the expected one at tolerance zero. */
  lemma CloseEpsFixture()
    ensures CloseEps(Vector(Zip(Over, [1.0, 2.0, 3.0], [3.0, 2.0, 1.0])), Vector([1.0 / 3.0, 1.0, 3.0]), 0.0)
    ensures CloseEps(Vector(Map(Reciprocal, [1.0, 2.0, 3.0])), Vector([1.0, 0.5, 1.0 / 3.0]), 0.00001)
  {
    ZipFixtures();
    MapFixtures();
  }

  /** Fixture from the library's tests: the squared norm of `[1, 2, 3]` is 14 (the first element is 1). */
  lemma NormSqFixture()
    ensures NormSqAsWritten([1.0, 2.0, 3.0]) == 14.0
    ensures SumSquares([1.0, 2.0, 3.0]) == 14.0
  {
    var s := [1.0, 2.0, 3.0];
    assert s[1..] == [2.0, 3.0] && s[1..][..1] == [2.0] && [2.0][..0] == [];
    assert s[..2] == [1.0, 2.0] && s[..2][..1] == [1.0] && [1.0][..0] == [];
  }
}
