# rust-alg algebra core in Dafny

This project models the algebra library `src/alg/lib.rs` of rust-alg. The
library defines five value types over a generic scalar `T`:

- dual numbers `Dual2`, used for forward-mode automatic differentiation;
- complex numbers `Complex`, used for 2D rotations;
- quaternions `Quaternion`, used for 3D rotations;
- 4×4 matrices `Matrix4`;
- variable-length vectors `Vector`.

Each type has some of these operations: `add`, `sub`, `mul`, `div`, `neg`,
`inv`, `det`, `norm_sq`, `one`, the derived zero, `scale` and the
per-component closeness test `close_eps`. The scalar operations `inv` and
`close_eps` for `f64` are modelled as well.

The scalar `T` is modelled as Dafny's mathematical `real`. A division by a
value that can be zero becomes a precondition:

- the real part for dual numbers;
- the squared norm for complex numbers and quaternions;
- the determinant for matrices;
- every element of the divisor for vectors.

Layout, one module per type:

| file | module | models |
|---|---|---|
| `scalar.dfy` | `Scalar` | `f64` reciprocal and closeness; absolute value and square helpers |
| `dual.dfy` | `DualNumbers` | `Dual2` |
| `complex.dfy` | `ComplexNumbers` | `Complex` |
| `quaternion.dfy` | `Quaternions` | `Quaternion` (`w` is the scalar part) |
| `matrix4.dfy` | `Matrices` | `Matrix4` (entries `m11`..`m44`) |
| `vector.dfy` | `Vectors` | `Vector` |
| `minors.dfy` | `Minors` | 2x2 and 3x3 determinants and the Cauchy-Binet identity for a 3x4 by 4x3 product, used by `Matrices` |

The four fixed-shape types are values. Every operation on them builds a new
struct from one expression, so they are datatypes with functions and lemmas.

The `Vector` operations loop with a mutable result that is pushed to, so
they are methods with `while` and `for` loops:

- each method is proved against a reference function, `Zip` for the binary
  operations and `Map` for the unary ones;
- the algebraic laws are lemmas about those functions.

The main general results:

- the quaternion product is associative, and its norm is multiplicative;
- `Inv` is a two-sided inverse for Dual2, Complex and Quaternion;
- for 4×4 matrices, the library's 16 numerator formulas are the transposed
  cofactors (signed 3x3 minors), its determinant is the cofactor expansion,
  and the adjugate theorem `A · adj(A) = adj(A) · A = det(A) I` holds;
- hence the matrix `Inv` is a two-sided inverse whenever `det ≠ 0`, and, by
  Cauchy-Binet, a matrix with `det = 0` has no inverse at all;
- the matrix product is associative;
- matrix `Div(a, b)` is the unique `x` with `x · b = a`.

## Model

| member | source | states |
|---|---|---|
| Scalar.Abs | src/alg/lib.rs:1334-1342 | the distance used by `close_eps` is non-negative, and it is `x` or `-x` |
| Scalar.Inv | src/alg/lib.rs:1326-1328 | `1/x` times `x` is one, so the result is non-zero |
| Scalar.Sq | src/alg/lib.rs:215-217 | a square `x * x`, as every squared norm is built, is never negative |
| Scalar.SqZeroIff | src/alg/lib.rs:215-217 | a square is zero exactly for zero, and positive otherwise |
| Scalar.SqMultiplicative | src/alg/lib.rs:215-217 | the square of a product is the product of the squares |
| Scalar.CloseEps | src/alg/lib.rs:1334-1342 | closeness holds iff `b` lies within `eps` of `a` on both sides |
| Scalar.CloseEpsZeroIsEquality | src/alg/lib.rs:1334-1342 | at tolerance zero closeness is exact equality |
| Scalar.CloseEpsSymmetric | src/alg/lib.rs:1334-1342 | closeness does not depend on the order of the operands |
| Scalar.CloseEpsReflexive | src/alg/lib.rs:1334-1342 | every value is close to itself for a non-negative tolerance |
| Scalar.CloseEpsMonotone | src/alg/lib.rs:1334-1342 | a wider tolerance keeps close values close |
| Scalar.InvInvolution | src/alg/lib.rs:1326-1328 | the reciprocal of the reciprocal is the value itself |
| Scalar.Fixtures | src/tests.rs:493-497 | `1` is close to `1` at tolerance zero, as the `f64` test asserts; two further cases beside it: `1.000001` is not close to `1` at tolerance zero, and `inv(2) = 0.5` |
| DualNumbers.Zero | src/alg/lib.rs:100 | the derived zero, every component `0`; a definition without a contract of its own, whose identity law is DualNumbers.AddZeroIdentity |
| DualNumbers.One | src/alg/lib.rs:229-239 | the multiplicative identity; a definition without a contract of its own, whose identity law is DualNumbers.MulOneIdentity |
| DualNumbers.Scale | src/alg/lib.rs:125-135 | the scalar embedded in the type; a definition without a contract of its own, characterised by DualNumbers.ScaleIsScalarMultiplication |
| DualNumbers.Add | src/alg/lib.rs:137-147 | component-wise sum; a definition without a contract of its own, whose inverse law is DualNumbers.Sub |
| DualNumbers.Mul | src/alg/lib.rs:161-171 | the product formula; a definition without a contract of its own, whose laws are DualNumbers.MulCommutativeAssociative and DualNumbers.NormSqMultiplicative |
| DualNumbers.Sub | src/alg/lib.rs:149-159 | adding the subtrahend back gives the minuend |
| DualNumbers.Neg | src/alg/lib.rs:199-209 | the negation is the additive inverse |
| DualNumbers.Div | src/alg/lib.rs:173-184 | for a divisor with a non-zero real part, the quotient times the divisor is the dividend |
| DualNumbers.Inv | src/alg/lib.rs:186-197 | for a non-zero real part, `(1/x0, -x1/x0²)` is a two-sided multiplicative inverse |
| DualNumbers.NormSq | src/alg/lib.rs:211-218 | the squared norm `x0²` is never negative |
| DualNumbers.Det | src/alg/lib.rs:220-227 | the determinant is the same quantity as the squared norm |
| DualNumbers.CloseEps | src/alg/lib.rs:241-255 | closeness holds iff both components are within `eps` |
| DualNumbers.AddZeroIdentity | src/alg/lib.rs:137-147 | the derived zero is a two-sided identity of `add` |
| DualNumbers.NegInvolution | src/alg/lib.rs:199-209 | negating twice gives the value back |
| DualNumbers.SubIsAddNeg | src/alg/lib.rs:149-159 | subtracting is adding the negation |
| DualNumbers.MulOneIdentity | src/alg/lib.rs:229-239 | `one()` is a two-sided identity of `mul` |
| DualNumbers.ScaleIsScalarMultiplication | src/alg/lib.rs:125-135 | multiplying by `scale(k)` on either side multiplies both components by `k` |
| DualNumbers.ScaleOneIsOne | src/alg/lib.rs:125-135 | `scale(1)` is `one()` and `scale(0)` is zero |
| DualNumbers.MulCommutativeAssociative | src/alg/lib.rs:161-171 | the truncated product is commutative and associative |
| DualNumbers.NormSqMultiplicative | src/alg/lib.rs:211-218 | the squared norm of a product is the product of the squared norms |
| DualNumbers.DivIsMulInv | src/alg/lib.rs:173-184 | the library's quotient formula equals multiplying by the inverse |
| DualNumbers.InvInvolution | src/alg/lib.rs:186-197 | the inverse of the inverse is the value itself |
| DualNumbers.DetZeroIff | src/alg/lib.rs:220-227 | the determinant is zero exactly when the real part is |
| DualNumbers.DetZeroNotInvertible | src/alg/lib.rs:56-58 | a zero determinant rules out every multiplicative inverse |
| DualNumbers.CloseEpsZeroIsEquality | src/alg/lib.rs:241-255 | at tolerance zero closeness is equality |
| DualNumbers.CloseEpsReflexiveSymmetric | src/alg/lib.rs:241-255 | closeness is reflexive and symmetric |
| DualNumbers.ScaleOneFixtures | src/tests.rs:4-8 | `scale(2) = (2, 0)` and `one() = (1, 0)` |
| DualNumbers.AdditiveFixtures | src/tests.rs:11-17 | `(1,2)+(2,1) = (3,3)`, `(1,2)-(2,1) = (-1,1)`, `-(1,2) = (-1,-2)` |
| DualNumbers.MultiplicativeFixtures | src/tests.rs:29-44 | `(1,2)*(2,1) = (2,5)` and `(1,2)/(2,1) = (0.5, 0.75)` |
| DualNumbers.InvFixture | src/tests.rs:47-57 | `inv(1,2) = (1,-2)` |
| DualNumbers.NormDetFixtures | src/tests.rs:68-79 | `norm_sq(1,2) = 1` and `det(0,1) = 0` |
| DualNumbers.CloseEpsFixtures | src/tests.rs:89-97 | a value is close to itself at tolerance zero; changing either component breaks it |
| ComplexNumbers.Zero | src/alg/lib.rs:258 | the derived zero, every component `0`; a definition without a contract of its own, whose identity law is ComplexNumbers.AddZeroIdentity |
| ComplexNumbers.One | src/alg/lib.rs:378-388 | the multiplicative identity; a definition without a contract of its own, whose identity law is ComplexNumbers.MulOneIdentity |
| ComplexNumbers.Scale | src/alg/lib.rs:283-293 | the scalar embedded in the type; a definition without a contract of its own, characterised by ComplexNumbers.ScaleIsScalarMultiplication |
| ComplexNumbers.Add | src/alg/lib.rs:295-305 | component-wise sum; a definition without a contract of its own, whose inverse law is ComplexNumbers.Sub |
| ComplexNumbers.Mul | src/alg/lib.rs:319-329 | the product formula; a definition without a contract of its own, whose laws are ComplexNumbers.MulCommutativeAssociative and ComplexNumbers.NormSqMultiplicative |
| ComplexNumbers.Sub | src/alg/lib.rs:307-317 | adding the subtrahend back gives the minuend |
| ComplexNumbers.Neg | src/alg/lib.rs:357-367 | the negation is the additive inverse |
| ComplexNumbers.NormSq | src/alg/lib.rs:369-376 | the squared modulus is never negative |
| ComplexNumbers.Det | src/alg/lib.rs:405-413 | the determinant equals the squared modulus, so it is zero exactly for zero (ComplexNumbers.NormSqZeroIff) |
| ComplexNumbers.DetZeroNotInvertible | src/alg/lib.rs:56-58 | a zero determinant rules out a left and a right multiplicative inverse |
| ComplexNumbers.Div | src/alg/lib.rs:331-342 | for a divisor of non-zero modulus, the quotient times the divisor is the dividend |
| ComplexNumbers.DivideComponents | src/alg/lib.rs:331-342 | both components divided by a non-zero `n`, multiplied by `n` again, give the input |
| ComplexNumbers.Numerators | src/alg/lib.rs:331-342 | the two numerators of the quotient formula; a definition without a contract of its own, characterised by ComplexNumbers.NumeratorsAreConjugateProduct |
| ComplexNumbers.NumeratorsAreConjugateProduct | src/alg/lib.rs:331-342 | the numerators are `a` times the conjugate of `b`, so the quotient is `a · conj(b) / |b|²` |
| ComplexNumbers.DivCore | src/alg/lib.rs:331-342 | the library's numerators over the squared modulus give the number whose product with the divisor is the dividend |
| ComplexNumbers.Inv | src/alg/lib.rs:344-355 | for a non-zero modulus, the conjugate over the squared modulus is a two-sided inverse |
| ComplexNumbers.CloseEps | src/alg/lib.rs:390-403 | closeness holds iff both components are within `eps` |
| ComplexNumbers.AddZeroIdentity | src/alg/lib.rs:295-305 | the derived zero is a two-sided identity of `add` |
| ComplexNumbers.NegInvolution | src/alg/lib.rs:357-367 | negating twice gives the value back |
| ComplexNumbers.SubIsAddNeg | src/alg/lib.rs:307-317 | subtracting is adding the negation |
| ComplexNumbers.MulOneIdentity | src/alg/lib.rs:378-388 | `one()` is a two-sided identity of `mul` |
| ComplexNumbers.ScaleIsScalarMultiplication | src/alg/lib.rs:283-293 | multiplying by `scale(k)` on either side multiplies both components by `k` |
| ComplexNumbers.ScaleOneIsOne | src/alg/lib.rs:283-293 | `scale(1)` is `one()` and `scale(0)` is zero |
| ComplexNumbers.MulCommutativeAssociative | src/alg/lib.rs:319-329 | complex multiplication is commutative and associative |
| ComplexNumbers.NormSqMultiplicative | src/alg/lib.rs:369-376 | the squared modulus of a product is the product of the squared moduli |
| ComplexNumbers.NormSqZeroIff | src/alg/lib.rs:369-376 | the squared modulus is zero exactly for zero, so `div` and `inv` apply to every other number |
| ComplexNumbers.DivIsMulInv | src/alg/lib.rs:331-342 | the quotient formula equals multiplying by the inverse |
| ComplexNumbers.InvNonZero | src/alg/lib.rs:344-355 | the inverse has a non-zero modulus, so it can be inverted again |
| ComplexNumbers.InverseUnique | src/alg/lib.rs:319-329 | a right inverse and a left inverse of the same number coincide |
| ComplexNumbers.InvInvolution | src/alg/lib.rs:344-355 | the inverse of the inverse is the number itself |
| ComplexNumbers.CloseEpsZeroIsEquality | src/alg/lib.rs:390-403 | at tolerance zero closeness is equality |
| ComplexNumbers.CloseEpsReflexiveSymmetric | src/alg/lib.rs:390-403 | closeness is reflexive and symmetric |
| ComplexNumbers.ScaleOneFixtures | src/tests.rs:100-104 | `scale(2) = (2, 0)` and `one() = (1, 0)` |
| ComplexNumbers.AdditiveFixtures | src/tests.rs:107-122 | `(1,2)+(2,1) = (3,3)`, `(1,2)-(2,1) = (-1,1)`, `-(1,2) = (-1,-2)` |
| ComplexNumbers.MulFixture | src/tests.rs:125-131 | `(1,2)*(2,1) = (0,5)` |
| ComplexNumbers.DivFixture | src/tests.rs:134-140 | `(1,2)/(2,1) = (4/5, 3/5)` |
| ComplexNumbers.InvFixture | src/tests.rs:143-148 | `inv(1,2) = (0.2, -0.4)` |
| ComplexNumbers.NormDetFixtures | src/tests.rs:159-164 | `norm_sq(1,2) = 5` and `det(0,0) = 0` |
| ComplexNumbers.CloseEpsFixtures | src/tests.rs:174-182 | a value is close to itself at tolerance zero; changing either component breaks it |
| Quaternions.Zero | src/alg/lib.rs:416 | the derived zero, every component `0`; a definition without a contract of its own, whose identity law is Quaternions.AddZeroIdentity |
| Quaternions.One | src/alg/lib.rs:599-612 | the multiplicative identity; a definition without a contract of its own, whose identity law is Quaternions.MulOneIdentity |
| Quaternions.Scale | src/alg/lib.rs:449-462 | the scalar embedded in the type; a definition without a contract of its own, characterised by Quaternions.ScaleIsScalarMultiplication |
| Quaternions.Add | src/alg/lib.rs:464-477 | component-wise sum; a definition without a contract of its own, whose inverse law is Quaternions.Sub |
| Quaternions.Mul | src/alg/lib.rs:494-519 | the product formula; a definition without a contract of its own, whose laws are Quaternions.MulIsScalarVectorProduct and Quaternions.MulAssociative |
| Quaternions.Sub | src/alg/lib.rs:479-492 | adding the subtrahend back gives the minuend |
| Quaternions.Neg | src/alg/lib.rs:571-584 | the negation is the additive inverse |
| Quaternions.NormSq | src/alg/lib.rs:586-597 | the squared norm is never negative |
| Quaternions.Inv | src/alg/lib.rs:552-569 | for a non-zero norm, the conjugate over the squared norm is a two-sided inverse |
| Quaternions.InvComponents | src/alg/lib.rs:552-569 | the scalar algebra of `inv`: the library's component formulas form a two-sided inverse |
| Quaternions.Div | src/alg/lib.rs:521-550 | for a divisor of non-zero norm, the quotient times the divisor (on the right) is the dividend |
| Quaternions.DivideComponents | src/alg/lib.rs:521-550 | the four components divided by a non-zero `n`, multiplied by `n` again, give the input |
| Quaternions.Numerators | src/alg/lib.rs:521-550 | the four numerators of the quotient formula; a definition without a contract of its own, characterised by Quaternions.NumeratorsAreConjugateProduct |
| Quaternions.NumeratorsAreConjugateProduct | src/alg/lib.rs:521-550 | the numerators are `a` times the conjugate of `b` (on the right), so the quotient is `a · conj(b) / |b|²` |
| Quaternions.DivCore | src/alg/lib.rs:521-550 | the library's four numerators over the squared norm give the quaternion whose product with the divisor is the dividend |
| Quaternions.CloseEps | src/alg/lib.rs:614-632 | closeness holds iff all four components are within `eps` |
| Quaternions.MulIsScalarVectorProduct | src/alg/lib.rs:494-519 | `mul` agrees with the Hamilton product in scalar-vector form, `(s, u)(t, v) = (s t - u·v, s v + t u + u × v)`, defined from dot and cross products |
| Quaternions.PureProduct | src/alg/lib.rs:494-519 | the product of two pure quaternions is minus their dot product plus their cross product |
| Quaternions.CommutatorIsCross | src/alg/lib.rs:494-519 | `a b - b a` is twice the cross product of the vector parts, with zero scalar part |
| Quaternions.MulAssociative | src/alg/lib.rs:494-519 | the Hamilton product is associative |
| Quaternions.MulNotCommutative | src/alg/lib.rs:494-519 | the Hamilton product is not commutative: `i j = k` but `j i = -k` |
| Quaternions.AddZeroIdentity | src/alg/lib.rs:464-477 | the derived zero is a two-sided identity of `add` |
| Quaternions.NegInvolution | src/alg/lib.rs:571-584 | negating twice gives the value back |
| Quaternions.SubIsAddNeg | src/alg/lib.rs:479-492 | subtracting is adding the negation |
| Quaternions.MulOneIdentity | src/alg/lib.rs:599-612 | `one()` is a two-sided identity of `mul` |
| Quaternions.ScaleIsScalarMultiplication | src/alg/lib.rs:449-462 | multiplying by `scale(k)` on either side multiplies all four components by `k` |
| Quaternions.ScaleOneIsOne | src/alg/lib.rs:449-462 | `scale(1)` is `one()` and `scale(0)` is zero |
| Quaternions.FourSquareIdentity | src/alg/lib.rs:494-519 | Euler's four-square identity for the library's product components |
| Quaternions.NormSqMultiplicative | src/alg/lib.rs:586-597 | the squared norm of a product is the product of the squared norms |
| Quaternions.NormSqZeroIff | src/alg/lib.rs:586-597 | the squared norm is zero exactly for zero, so `div` and `inv` apply to every other quaternion |
| Quaternions.InverseUnique | src/alg/lib.rs:494-519 | a right inverse and a left inverse of the same quaternion coincide |
| Quaternions.DivIsMulInv | src/alg/lib.rs:521-550 | the quotient formula equals multiplying by the inverse on the right |
| Quaternions.DivSelf | src/alg/lib.rs:521-550 | a quaternion of non-zero norm divided by itself is one |
| Quaternions.InvNonZero | src/alg/lib.rs:552-569 | the inverse has a non-zero norm, so it can be inverted again |
| Quaternions.InvInvolution | src/alg/lib.rs:552-569 | for a non-zero norm, the inverse of the inverse is the quaternion itself |
| Quaternions.CloseEpsZeroIsEquality | src/alg/lib.rs:614-632 | at tolerance zero closeness is equality |
| Quaternions.CloseEpsReflexiveSymmetric | src/alg/lib.rs:614-632 | closeness is reflexive and symmetric |
| Quaternions.ScaleOneFixtures | src/tests.rs:192-196 | `scale(2) = (0,0,0,2)` and `one() = (0,0,0,1)` |
| Quaternions.AdditiveFixtures | src/tests.rs:199-231 | the sum, difference and negation of `(1,2,3,4)` and `(4,3,2,1)` |
| Quaternions.MulFixture | src/tests.rs:217-223 | `(1,2,3,4)*(4,3,2,1) = (12,24,6,-12)` |
| Quaternions.NormSqFixture | src/tests.rs:234-239 | `norm_sq(1,2,3,4) = 30` |
| Quaternions.DivFixture | src/tests.rs:242-249 | `(1,2,3,4)/(4,3,2,1) = (-10,-20,0,20)/30` |
| Quaternions.InvFixture | src/alg/lib.rs:552-569 | `inv(1,2,3,4) = (-1,-2,-3,4)/30` |
| Quaternions.InvInvFixture | src/tests.rs:252-256 | inverting `(1,2,3,4)` twice gives it back exactly, so the two are close |
| Quaternions.CloseEpsFixtures | src/tests.rs:266-278 | a value is close to itself at tolerance zero; changing any one component breaks it |
| Matrices.Zero | src/alg/lib.rs:635 | the derived zero, every component `0`; a definition without a contract of its own, whose identity law is Matrices.AddZeroIdentity |
| Matrices.One | src/alg/lib.rs:1096-1124 | the multiplicative identity; a definition without a contract of its own, whose identity law is Matrices.MulOneIdentity |
| Matrices.Scale | src/alg/lib.rs:708-736 | the scalar embedded in the type; a definition without a contract of its own, characterised by Matrices.ScaleOneIsOne and Matrices.DetScale |
| Matrices.Add | src/alg/lib.rs:738-766 | component-wise sum; a definition without a contract of its own, whose inverse law is Matrices.Sub |
| Matrices.Mul | src/alg/lib.rs:798-874 | the product formula; a definition without a contract of its own, whose laws are Matrices.MulIsRowTimesColumn and Matrices.MulAssociative |
| Matrices.Det | src/alg/lib.rs:906-944 | the library's 24-term determinant; a definition without a contract of its own, characterised by Matrices.DetIsCofactorExpansion and Matrices.InvertibleIffDetNonZero |
| Matrices.Adjugate | src/alg/lib.rs:946-1055 | the sixteen numerators of the library's `inv`; a definition without a contract of its own, characterised by Matrices.AdjugateIsTransposedCofactors and Matrices.MulAdjugate |
| Matrices.Inv | src/alg/lib.rs:946-1055 | every numerator over the determinant; a definition without a contract of its own, whose inverse law is Matrices.InvIsInverse |
| Matrices.DivideEntries | src/alg/lib.rs:946-1055 | the sixteen divisions of the library's `inv`; a definition without a contract of its own, whose round trip is Matrices.DivideEntriesIsScaled |
| Matrices.Sub | src/alg/lib.rs:768-796 | adding the subtrahend back gives the minuend |
| Matrices.Neg | src/alg/lib.rs:876-904 | the negation is the additive inverse |
| Matrices.InvIsInverse | src/alg/lib.rs:946-1055 | for a non-zero determinant, the library's adjugate over the determinant is a two-sided inverse |
| Matrices.Div | src/alg/lib.rs:1057-1066 | for a divisor with non-zero determinant, `a · inv(b)`, multiplied by `b`, gives `a` |
| Matrices.CloseEps | src/alg/lib.rs:1068-1094 | closeness holds iff all sixteen entries are within `eps` |
| Matrices.MulIsRowTimesColumn | src/alg/lib.rs:798-874 | for every index pair `(i, j)`, entry `(i, j)` of `mul` is `Σ_k a[i][k] · b[k][j]`, with the entries read through an index function |
| Matrices.MulOneIdentity | src/alg/lib.rs:1096-1124 | `one()` is a two-sided identity of `mul` |
| Matrices.TripleLeft | src/alg/lib.rs:798-874 | every entry of `(a b) c` is the flattened triple sum |
| Matrices.TripleRight | src/alg/lib.rs:798-874 | every entry of `a (b c)` is the same triple sum |
| Matrices.MulAssociative | src/alg/lib.rs:798-874 | matrix multiplication is associative |
| Matrices.AdjugateIsTransposedCofactors | src/alg/lib.rs:946-1055 | entry `(i, j)` of the library's numerator matrix is cofactor `(j, i)`: the determinant of the 3x3 minor without row `j` and column `i`, signed by `(-1)^(i+j)` |
| Matrices.DetIsCofactorExpansion | src/alg/lib.rs:906-944 | the library's 24-term determinant is the expansion along the first row, `Σ_k a[1][k] · cofactor(1, k)` |
| Minors.CauchyBinet3 | src/alg/lib.rs:56-58 | Cauchy-Binet for a 3x4 by 4x3 product: its determinant is the sum over the four dropped columns of the products of the matching 3x3 minors (used to show a singular matrix has no inverse) |
| Matrices.DetZeroNotInvertible | src/alg/lib.rs:56-58 | a matrix with zero determinant has no two-sided inverse |
| Matrices.InvertibleIffDetNonZero | src/alg/lib.rs:56-58 | a matrix has a two-sided inverse exactly when its determinant is non-zero |
| Matrices.AdjugateRight | src/alg/lib.rs:906-944 | a matrix times its adjugate is its determinant on the diagonal and zero elsewhere |
| Matrices.AdjugateLeft | src/alg/lib.rs:906-944 | the adjugate times the matrix gives the same |
| Matrices.MulAdjugate | src/alg/lib.rs:906-1055 | `A · adj(A) = adj(A) · A = det(A) I` |
| Matrices.DivideEntriesIsScaled | src/alg/lib.rs:946-1055 | the entries divided by a non-zero `n`, multiplied by `n` again, give the input |
| Matrices.UnitRight | src/alg/lib.rs:946-1055 | the adjugate scaled down by the determinant is a right inverse |
| Matrices.UnitLeft | src/alg/lib.rs:946-1055 | the adjugate scaled down by the determinant is a left inverse |
| Matrices.InvCore | src/alg/lib.rs:946-1055 | both sides together: the scaled adjugate is a two-sided inverse |
| Matrices.AddZeroIdentity | src/alg/lib.rs:738-766 | the derived zero is a two-sided identity of `add` |
| Matrices.NegInvolution | src/alg/lib.rs:876-904 | negating twice gives the matrix back |
| Matrices.SubIsAddNeg | src/alg/lib.rs:768-796 | subtracting is adding the negation |
| Matrices.ScaleOneIsOne | src/alg/lib.rs:708-736 | `scale(1)` is `one()` and `scale(0)` is zero |
| Matrices.DetScale | src/alg/lib.rs:906-944 | the determinant of `scale(k)` is `k⁴`; that of the identity is one |
| Matrices.InverseUnique | src/alg/lib.rs:798-874 | a right inverse and a left inverse of the same matrix coincide |
| Matrices.AdjugateOne | src/alg/lib.rs:946-1055 | the identity is its own adjugate and has determinant one |
| Matrices.DivideEntriesByOne | src/alg/lib.rs:946-1055 | dividing every entry by one changes nothing |
| Matrices.InvOne | src/alg/lib.rs:946-1055 | the identity is its own inverse |
| Matrices.InvInvolution | src/alg/lib.rs:946-1055 | for a non-zero determinant, the inverse has a non-zero determinant too, and inverting it again gives the original matrix |
| Matrices.DivUnique | src/alg/lib.rs:1057-1066 | the quotient is the only matrix whose product with the divisor is the dividend |
| Matrices.DivSelf | src/alg/lib.rs:1057-1066 | an invertible matrix divided by itself is the identity |
| Matrices.CloseEpsZeroIsEquality | src/alg/lib.rs:1068-1094 | at tolerance zero closeness is equality |
| Matrices.CloseEpsReflexiveSymmetric | src/alg/lib.rs:1068-1094 | closeness is reflexive and symmetric |
| Matrices.ScaleOneFixtures | src/tests.rs:281-290 | `scale(2)` is twice the identity, and `one()` is the identity |
| Matrices.AddFixture | src/tests.rs:293-314 | the sum of the two diagonal test matrices |
| Matrices.SubFixture | src/tests.rs:317-338 | the difference of the two diagonal test matrices |
| Matrices.MulFixture | src/tests.rs:341-362 | `diag(1,2,3,4) · diag(4,3,2,1) = diag(4,6,6,4)` |
| Matrices.NegFixture | src/tests.rs:365-380 | `-diag(1,2,3,4) = diag(-1,-2,-3,-4)` |
| Matrices.DetFixture | src/tests.rs:383-393 | `det(diag(1,2,3,4)) = 24` |
| Matrices.InvFixture | src/tests.rs:396-406 | the prime matrix has determinant 740, and its inverse is the stated rational matrix |
| Matrices.PrimeInverseAdjugate | src/tests.rs:396-406 | the inverse of the prime matrix has determinant 1/740, and its adjugate is the prime matrix over 740 |
| Matrices.InvInvFixture | src/tests.rs:396-406 | inverting the prime matrix twice gives it back exactly, so it is within `1e-4` |
| Matrices.DivFixture | src/tests.rs:409-418 | `I / I` is within `1e-5` of `I` |
| Matrices.CloseEpsFixtures | src/alg/lib.rs:1068-1094 | the prime matrix is close to itself at tolerance zero, and not to zero |
| Vectors.Zip | src/alg/lib.rs:1150-1174 | on unequal lengths the result is empty; otherwise it has the same length, and element `i` is `op(u[i], v[i])` |
| Vectors.Map | src/alg/lib.rs:1254-1286 | same length, and element `i` is `op(u[i])` |
| Vectors.Add | src/alg/lib.rs:1150-1174 | the `while` loop pushing `a[i] + b[i]` computes `Zip(Plus, a, b)`, and the empty vector on a length mismatch |
| Vectors.Sub | src/alg/lib.rs:1176-1200 | the loop computes `Zip(Minus, a, b)` |
| Vectors.Mul | src/alg/lib.rs:1202-1226 | the loop computes `Zip(Times, a, b)` |
| Vectors.Div | src/alg/lib.rs:1228-1252 | for a divisor without zero elements, the loop computes `Zip(Over, a, b)` |
| Vectors.Inv | src/alg/lib.rs:1254-1269 | for a vector without zero elements, the `for` loop computes the element-wise reciprocal |
| Vectors.Neg | src/alg/lib.rs:1271-1286 | the loop computes the element-wise negation |
| Vectors.SumSquares | src/alg/lib.rs:1288-1301 | a sum of squares is never negative |
| Vectors.NormSq | src/alg/lib.rs:1288-1301 | for a non-empty vector, the loop computes `x[0] + Σ_{i≥1} x[i]²` |
| Vectors.NormSqCorrected | src/alg/lib.rs:1288-1301 | the same loop started from zero over all elements computes `Σ x[i]²` |
| Vectors.NoneFar | src/alg/lib.rs:1308-1319 | the negated `any` over positions `i..n` holds iff every pair there is close |
| Vectors.CloseEps | src/alg/lib.rs:1303-1321 | for equal lengths, closeness holds iff every pair of elements is within `eps` |
| Vectors.Commutative | src/alg/lib.rs:1150-1226 | element-wise addition and multiplication are commutative |
| Vectors.SubUndoesAdd | src/alg/lib.rs:1150-1200 | for equal lengths, subtracting `v` undoes adding `v` |
| Vectors.DivUndoesMul | src/alg/lib.rs:1202-1252 | for equal lengths and no zero in `v`, dividing by `v` undoes multiplying by `v` |
| Vectors.SubIsAddNeg | src/alg/lib.rs:1176-1200 | subtracting is adding the negation (including the empty result on a length mismatch) |
| Vectors.NegInvolution | src/alg/lib.rs:1271-1286 | negating twice gives the vector back |
| Vectors.InvInvolution | src/alg/lib.rs:1254-1269 | the reciprocal vector has no zero element, and inverting it again gives the vector back |
| Vectors.CloseEpsZeroIsEquality | src/alg/lib.rs:1303-1321 | at tolerance zero closeness is equality |
| Vectors.CloseEpsReflexiveSymmetric | src/alg/lib.rs:1303-1321 | closeness is reflexive and symmetric |
| Vectors.SumSquaresFront | src/alg/lib.rs:1288-1301 | a sum of squares splits into the first square plus the squares of the rest |
| Vectors.SumSquaresZeroIff | src/alg/lib.rs:1288-1301 | a sum of squares vanishes exactly when every element does |
| Vectors.NormSqAsWritten | src/alg/lib.rs:1293-1299 | the library's value `x[0] + Σ_{i≥1} x[i]²`; a definition without a contract of its own, related to the sum of squares by Vectors.NormSqAsWrittenDiscrepancy |
| Vectors.NormSqAsWrittenDiscrepancy | src/alg/lib.rs:1293-1299 | the library's value is the sum of squares minus `x[0]²` plus `x[0]`; the two agree iff `x[0]` is 0 or 1 |
| Vectors.NormSqCounterexamples | src/alg/lib.rs:1293-1299 | for `[2]` the library gives 2 instead of 4; for `[-1]` it gives a negative squared norm |
| Vectors.ZipFixtures | src/tests.rs:433-466 | the sum, difference, product and quotient of `[1,2,3]` and `[3,2,1]`, and the empty result on unequal lengths |
| Vectors.MapFixtures | src/tests.rs:469-482 | `inv([1,2,3]) = [1, 0.5, 1/3]` and `-[1,2,3] = [-1,-2,-3]` |
| Vectors.CloseEpsFixture | src/tests.rs:460-474 | the quotient is close to `[1/3, 1, 3]` at tolerance zero, and the inverse is within `1e-5` of `[1, 0.5, 1/3]` |
| Vectors.NormSqFixture | src/tests.rs:485-490 | `norm_sq([1,2,3]) = 14` under both the as-written and the corrected definition |

## Left out

- Floating point: `f32`/`f64` rounding, infinities and NaN from a division by zero, and the `eps as f32` cast in the `f32` closeness test (src/alg/lib.rs:1345-1365). Scalars are exact reals, and every zero divisor is excluded by a precondition instead.
- The `f32` `approx_eq_eps` test (src/tests.rs:507-511) calls a standard-library method that is not part of this model.
- The free forwarding functions `norm_sq`, `det`, `inv`, `close_eps` and `scale`, and the constructors `dual2`, `complex`, `quaternion`, `matrix4`, `vector` and `new` (src/alg/lib.rs:42-97 and each type's `new`). They are one-line forwards, and the datatype constructors play their role.
- The trait plumbing and the generic `T` bounds: `T` is always `real`.
- The derived `Eq`: datatype equality stands for it.
- The crate attributes at the top of src/alg/lib.rs, which are build metadata.
- src/lib.rs is not part of this model. It is an older revision of the same crate with the same formulas, and fewer operations.
- Vectors.CloseEps: the library panics when the lengths differ; the model makes equal lengths a precondition instead of modelling the panic.
- Vectors.NormSq: the library indexes `x[0]` and panics on an empty vector; a non-empty vector is a precondition.
- Vectors.Div and Vectors.Inv: a zero divisor element is excluded by a precondition, where `f64` would produce an infinity.
- The determinant is not proved multiplicative in general (`det(a b) = det(a) det(b)`, a degree-8 identity in 32 variables); only the special case needed for invertibility, Cauchy-Binet for the top-left 3x3 block, is proved.
- Matrices: multiplying by `scale(k)` is not proved to scale every entry, for matrices as it is for the other three types; only `scale(1) = one()`, `scale(0) = 0` and `det(scale(k)) = k⁴` are stated.
- The Vector loops push onto a Rust owned vector; the model appends to a local `seq<real>`, which is the same sequence of values without the allocation.

## Findings

| source | as written | input that shows it | evidently intended | confidence | as-written member | corrected member |
|---|---|---|---|---|---|---|
| src/alg/lib.rs:1293-1299 | `norm_sq` starts the accumulator at `x[0]` unsquared and adds `x[i]²` only for `i ≥ 1` | `[2]` gives 2 instead of 4; `[-1]` gives -1, a negative squared norm | the sum of the squares of all elements, as for the other types; the library's own fixture `[1,2,3] → 14` cannot tell the two apart, because `1² = 1` | not executed | Vectors.NormSq (with Vectors.NormSqCounterexamples and Vectors.NormSqAsWrittenDiscrepancy) | Vectors.NormSqCorrected (with Vectors.SumSquares and Vectors.SumSquaresZeroIff) |
