/**
 * Determinants of 2x2 and 3x3 blocks, with entries given row by row. The
 * cofactors of a 4x4 matrix are 3x3 determinants, and the Cauchy-Binet
 * formula proved here relates a 3x3 block of a product to the 3x3 blocks
 * of its factors.
 */
module Minors {
  function Det2(a11: real, a12: real, a21: real, a22: real): real {
    a11 * a22 - a12 * a21
  }

  /** The 3x3 determinant, expanded along its first row. */
  function Det3(
    a11: real, a12: real, a13: real,
    a21: real, a22: real, a23: real,
    a31: real, a32: real, a33: real): real
  {
    a11 * Det2(a22, a23, a32, a33) - a12 * Det2(a21, a23, a31, a33) + a13 * Det2(a21, a22, a31, a32)
  }

  /** The six terms of the 3x3 determinant, one per permutation, with their signs. */
  lemma Det3Terms(
    a11: real, a12: real, a13: real,
    a21: real, a22: real, a23: real,
    a31: real, a32: real, a33: real)
    ensures Det3(a11, a12, a13, a21, a22, a23, a31, a32, a33) ==
      a11 * a22 * a33 - a11 * a23 * a32 - a12 * a21 * a33 + a12 * a23 * a31 + a13 * a21 * a32 - a13 * a22 * a31
  {
  }

  /** A value given by the six terms of a 3x3 determinant is that determinant. */
  lemma IsMinor(
    x: real,
    a11: real, a12: real, a13: real,
    a21: real, a22: real, a23: real,
    a31: real, a32: real, a33: real)
    requires x == a11 * a22 * a33 - a11 * a23 * a32 - a12 * a21 * a33 + a12 * a23 * a31 + a13 * a21 * a32 - a13 * a22 * a31
    ensures x == Det3(a11, a12, a13, a21, a22, a23, a31, a32, a33)
  {
    Det3Terms(a11, a12, a13, a21, a22, a23, a31, a32, a33);
  }

  /** A value given by the six terms of a 3x3 determinant, negated, is minus that determinant. */
  lemma IsNegatedMinor(
    x: real,
    a11: real, a12: real, a13: real,
    a21: real, a22: real, a23: real,
    a31: real, a32: real, a33: real)
    requires x == -(a11 * a22 * a33 - a11 * a23 * a32 - a12 * a21 * a33 + a12 * a23 * a31 + a13 * a21 * a32 - a13 * a22 * a31)
    ensures x == -Det3(a11, a12, a13, a21, a22, a23, a31, a32, a33)
  {
    Det3Terms(a11, a12, a13, a21, a22, a23, a31, a32, a33);
  }

  /** Swapping the first two rows negates the determinant. */
  lemma SwapFirst(p1: real, p2: real, p3: real, q1: real, q2: real, q3: real, r1: real, r2: real, r3: real)
    ensures Det3(q1, q2, q3, p1, p2, p3, r1, r2, r3) == -Det3(p1, p2, p3, q1, q2, q3, r1, r2, r3)
  {
  }

  /** Rotating the rows keeps the determinant. */
  lemma Rotate(p1: real, p2: real, p3: real, q1: real, q2: real, q3: real, r1: real, r2: real, r3: real)
    ensures Det3(r1, r2, r3, p1, p2, p3, q1, q2, q3) == Det3(p1, p2, p3, q1, q2, q3, r1, r2, r3)
  {
  }

  /** A determinant with a repeated row is zero. */
  lemma RepeatedRow(p1: real, p2: real, p3: real, q1: real, q2: real, q3: real)
    ensures Det3(p1, p2, p3, p1, p2, p3, q1, q2, q3) == 0.0
    ensures Det3(p1, p2, p3, q1, q2, q3, p1, p2, p3) == 0.0
  {
  }

  /** Cauchy-Binet for a 2x4 times a 4x2 matrix: a sum over the six pairs of middle indices. */
  lemma CauchyBinet2(
    a11: real, a12: real, a13: real, a14: real,
    a21: real, a22: real, a23: real, a24: real,
    b11: real, b12: real, b21: real, b22: real, b31: real, b32: real, b41: real, b42: real)
    ensures Det2(
        a11 * b11 + a12 * b21 + a13 * b31 + a14 * b41, a11 * b12 + a12 * b22 + a13 * b32 + a14 * b42,
        a21 * b11 + a22 * b21 + a23 * b31 + a24 * b41, a21 * b12 + a22 * b22 + a23 * b32 + a24 * b42)
      == Det2(a11, a12, a21, a22) * Det2(b11, b12, b21, b22)
       + Det2(a11, a13, a21, a23) * Det2(b11, b12, b31, b32)
       + Det2(a11, a14, a21, a24) * Det2(b11, b12, b41, b42)
       + Det2(a12, a13, a22, a23) * Det2(b21, b22, b31, b32)
       + Det2(a12, a14, a22, a24) * Det2(b21, b22, b41, b42)
       + Det2(a13, a14, a23, a24) * Det2(b31, b32, b41, b42)
  {
  }

  /** Expanding a 3x3 determinant along its first row, with the 2x2 minors given. */
  lemma FirstRow(
    x11: real, x12: real, x13: real,
    x21: real, x22: real, x23: real,
    x31: real, x32: real, x33: real,
    m1: real, m2: real, m3: real)
    requires Det2(x22, x23, x32, x33) == m1
    requires Det2(x21, x23, x31, x33) == m2
    requires Det2(x21, x22, x31, x32) == m3
    ensures Det3(x11, x12, x13, x21, x22, x23, x31, x32, x33) == x11 * m1 - x12 * m2 + x13 * m3
  {
  }

  lemma ScaleBoth(c: real, p: real, q: real)
    requires p == q
    ensures c * p == c * q
  {
  }

  /** Multiplying out a sum of four products by a sum of six products. */
  lemma SumProduct(
    a1: real, a2: real, a3: real, a4: real, b1: real, b2: real, b3: real, b4: real,
    c1: real, c2: real, c3: real, c4: real, c5: real, c6: real,
    d1: real, d2: real, d3: real, d4: real, d5: real, d6: real)
    ensures (a1 * b1 + a2 * b2 + a3 * b3 + a4 * b4) * (c1 * d1 + c2 * d2 + c3 * d3 + c4 * d4 + c5 * d5 + c6 * d6)
      == a1 * c1 * (b1 * d1) + a1 * c2 * (b1 * d2) + a1 * c3 * (b1 * d3) + a1 * c4 * (b1 * d4) + a1 * c5 * (b1 * d5) + a1 * c6 * (b1 * d6)
       + a2 * c1 * (b2 * d1) + a2 * c2 * (b2 * d2) + a2 * c3 * (b2 * d3) + a2 * c4 * (b2 * d4) + a2 * c5 * (b2 * d5) + a2 * c6 * (b2 * d6)
       + a3 * c1 * (b3 * d1) + a3 * c2 * (b3 * d2) + a3 * c3 * (b3 * d3) + a3 * c4 * (b3 * d4) + a3 * c5 * (b3 * d5) + a3 * c6 * (b3 * d6)
       + a4 * c1 * (b4 * d1) + a4 * c2 * (b4 * d2) + a4 * c3 * (b4 * d3) + a4 * c4 * (b4 * d4) + a4 * c5 * (b4 * d5) + a4 * c6 * (b4 * d6)
  {
  }

  /** Multiplying out the first-row expansion of the product's determinant. */
  lemma ExpandProduct(
    a11: real, a12: real, a13: real, a14: real,
    b11: real, b12: real, b13: real,
    b21: real, b22: real, b23: real,
    b31: real, b32: real, b33: real,
    b41: real, b42: real, b43: real,
    d12: real, d13: real, d14: real, d23: real, d24: real, d34: real,
    e1_12: real, e1_13: real, e1_14: real, e1_23: real, e1_24: real, e1_34: real,
    e2_12: real, e2_13: real, e2_14: real, e2_23: real, e2_24: real, e2_34: real,
    e3_12: real, e3_13: real, e3_14: real, e3_23: real, e3_24: real, e3_34: real,
    x11: real, x12: real, x13: real, m1: real, m2: real, m3: real, p: real)
    requires p == x11 * m1 - x12 * m2 + x13 * m3
    requires x11 == a11 * b11 + a12 * b21 + a13 * b31 + a14 * b41
    requires x12 == a11 * b12 + a12 * b22 + a13 * b32 + a14 * b42
    requires x13 == a11 * b13 + a12 * b23 + a13 * b33 + a14 * b43
    requires m1 == d12 * e1_12 + d13 * e1_13 + d14 * e1_14 + d23 * e1_23 + d24 * e1_24 + d34 * e1_34
    requires m2 == d12 * e2_12 + d13 * e2_13 + d14 * e2_14 + d23 * e2_23 + d24 * e2_24 + d34 * e2_34
    requires m3 == d12 * e3_12 + d13 * e3_13 + d14 * e3_14 + d23 * e3_23 + d24 * e3_24 + d34 * e3_34
    ensures p
      == a11 * d12 * (b11 * e1_12 - b12 * e2_12 + b13 * e3_12)
        + a11 * d13 * (b11 * e1_13 - b12 * e2_13 + b13 * e3_13)
        + a11 * d14 * (b11 * e1_14 - b12 * e2_14 + b13 * e3_14)
        + a11 * d23 * (b11 * e1_23 - b12 * e2_23 + b13 * e3_23)
        + a11 * d24 * (b11 * e1_24 - b12 * e2_24 + b13 * e3_24)
        + a11 * d34 * (b11 * e1_34 - b12 * e2_34 + b13 * e3_34)
        + a12 * d12 * (b21 * e1_12 - b22 * e2_12 + b23 * e3_12)
        + a12 * d13 * (b21 * e1_13 - b22 * e2_13 + b23 * e3_13)
        + a12 * d14 * (b21 * e1_14 - b22 * e2_14 + b23 * e3_14)
        + a12 * d23 * (b21 * e1_23 - b22 * e2_23 + b23 * e3_23)
        + a12 * d24 * (b21 * e1_24 - b22 * e2_24 + b23 * e3_24)
        + a12 * d34 * (b21 * e1_34 - b22 * e2_34 + b23 * e3_34)
        + a13 * d12 * (b31 * e1_12 - b32 * e2_12 + b33 * e3_12)
        + a13 * d13 * (b31 * e1_13 - b32 * e2_13 + b33 * e3_13)
        + a13 * d14 * (b31 * e1_14 - b32 * e2_14 + b33 * e3_14)
        + a13 * d23 * (b31 * e1_23 - b32 * e2_23 + b33 * e3_23)
        + a13 * d24 * (b31 * e1_24 - b32 * e2_24 + b33 * e3_24)
        + a13 * d34 * (b31 * e1_34 - b32 * e2_34 + b33 * e3_34)
        + a14 * d12 * (b41 * e1_12 - b42 * e2_12 + b43 * e3_12)
        + a14 * d13 * (b41 * e1_13 - b42 * e2_13 + b43 * e3_13)
        + a14 * d14 * (b41 * e1_14 - b42 * e2_14 + b43 * e3_14)
        + a14 * d23 * (b41 * e1_23 - b42 * e2_23 + b43 * e3_23)
        + a14 * d24 * (b41 * e1_24 - b42 * e2_24 + b43 * e3_24)
        + a14 * d34 * (b41 * e1_34 - b42 * e2_34 + b43 * e3_34)
  {
    calc {
        p;
      == {
        ScaleBoth(m1, x11, a11 * b11 + a12 * b21 + a13 * b31 + a14 * b41);
        ScaleBoth(m2, x12, a11 * b12 + a12 * b22 + a13 * b32 + a14 * b42);
        ScaleBoth(m3, x13, a11 * b13 + a12 * b23 + a13 * b33 + a14 * b43);
      }
        x11 * m1 - x12 * m2 + x13 * m3;
      == {
        ScaleBoth(a11 * b11 + a12 * b21 + a13 * b31 + a14 * b41, m1, d12 * e1_12 + d13 * e1_13 + d14 * e1_14 + d23 * e1_23 + d24 * e1_24 + d34 * e1_34);
        ScaleBoth(a11 * b12 + a12 * b22 + a13 * b32 + a14 * b42, m2, d12 * e2_12 + d13 * e2_13 + d14 * e2_14 + d23 * e2_23 + d24 * e2_24 + d34 * e2_34);
        ScaleBoth(a11 * b13 + a12 * b23 + a13 * b33 + a14 * b43, m3, d12 * e3_12 + d13 * e3_13 + d14 * e3_14 + d23 * e3_23 + d24 * e3_24 + d34 * e3_34);
      }
        (a11 * b11 + a12 * b21 + a13 * b31 + a14 * b41) * m1
        - (a11 * b12 + a12 * b22 + a13 * b32 + a14 * b42) * m2
        + (a11 * b13 + a12 * b23 + a13 * b33 + a14 * b43) * m3;
      == {
        SumProduct(a11, a12, a13, a14, b11, b21, b31, b41,
          d12, d13, d14, d23, d24, d34, e1_12, e1_13, e1_14, e1_23, e1_24, e1_34);
        SumProduct(a11, a12, a13, a14, b12, b22, b32, b42,
          d12, d13, d14, d23, d24, d34, e2_12, e2_13, e2_14, e2_23, e2_24, e2_34);
        SumProduct(a11, a12, a13, a14, b13, b23, b33, b43,
          d12, d13, d14, d23, d24, d34, e3_12, e3_13, e3_14, e3_23, e3_24, e3_34);
      }
        (a11 * b11 + a12 * b21 + a13 * b31 + a14 * b41) * (d12 * e1_12 + d13 * e1_13 + d14 * e1_14 + d23 * e1_23 + d24 * e1_24 + d34 * e1_34)
        - (a11 * b12 + a12 * b22 + a13 * b32 + a14 * b42) * (d12 * e2_12 + d13 * e2_13 + d14 * e2_14 + d23 * e2_23 + d24 * e2_24 + d34 * e2_34)
        + (a11 * b13 + a12 * b23 + a13 * b33 + a14 * b43) * (d12 * e3_12 + d13 * e3_13 + d14 * e3_14 + d23 * e3_23 + d24 * e3_24 + d34 * e3_34);
    }
  }

  lemma GroupRow1(
    a11: real,
    b11: real, b12: real, b13: real,
    b21: real, b22: real, b23: real,
    b31: real, b32: real, b33: real,
    b41: real, b42: real, b43: real,
    d12: real, d13: real, d14: real, d23: real, d24: real, d34: real,
    e1_12: real, e1_13: real, e1_14: real, e1_23: real, e1_24: real, e1_34: real,
    e2_12: real, e2_13: real, e2_14: real, e2_23: real, e2_24: real, e2_34: real,
    e3_12: real, e3_13: real, e3_14: real, e3_23: real, e3_24: real, e3_34: real,
    D1: real, D2: real, D3: real, D4: real)
    requires b11 * e1_12 - b12 * e2_12 + b13 * e3_12 == 0.0
    requires b11 * e1_13 - b12 * e2_13 + b13 * e3_13 == 0.0
    requires b11 * e1_14 - b12 * e2_14 + b13 * e3_14 == 0.0
    requires b11 * e1_23 - b12 * e2_23 + b13 * e3_23 == D4
    requires b11 * e1_24 - b12 * e2_24 + b13 * e3_24 == D3
    requires b11 * e1_34 - b12 * e2_34 + b13 * e3_34 == D2
    ensures a11 * d12 * (b11 * e1_12 - b12 * e2_12 + b13 * e3_12)
      + a11 * d13 * (b11 * e1_13 - b12 * e2_13 + b13 * e3_13)
      + a11 * d14 * (b11 * e1_14 - b12 * e2_14 + b13 * e3_14)
      + a11 * d23 * (b11 * e1_23 - b12 * e2_23 + b13 * e3_23)
      + a11 * d24 * (b11 * e1_24 - b12 * e2_24 + b13 * e3_24)
      + a11 * d34 * (b11 * e1_34 - b12 * e2_34 + b13 * e3_34)
      == a11 * d23 * D4 + a11 * d24 * D3 + a11 * d34 * D2
  {
    ScaleBoth(a11 * d12, b11 * e1_12 - b12 * e2_12 + b13 * e3_12, 0.0);
    ScaleBoth(a11 * d13, b11 * e1_13 - b12 * e2_13 + b13 * e3_13, 0.0);
    ScaleBoth(a11 * d14, b11 * e1_14 - b12 * e2_14 + b13 * e3_14, 0.0);
    ScaleBoth(a11 * d23, b11 * e1_23 - b12 * e2_23 + b13 * e3_23, D4);
    ScaleBoth(a11 * d24, b11 * e1_24 - b12 * e2_24 + b13 * e3_24, D3);
    ScaleBoth(a11 * d34, b11 * e1_34 - b12 * e2_34 + b13 * e3_34, D2);
  }

  lemma GroupRow2(
    a12: real,
    b11: real, b12: real, b13: real,
    b21: real, b22: real, b23: real,
    b31: real, b32: real, b33: real,
    b41: real, b42: real, b43: real,
    d12: real, d13: real, d14: real, d23: real, d24: real, d34: real,
    e1_12: real, e1_13: real, e1_14: real, e1_23: real, e1_24: real, e1_34: real,
    e2_12: real, e2_13: real, e2_14: real, e2_23: real, e2_24: real, e2_34: real,
    e3_12: real, e3_13: real, e3_14: real, e3_23: real, e3_24: real, e3_34: real,
    D1: real, D2: real, D3: real, D4: real)
    requires b21 * e1_12 - b22 * e2_12 + b23 * e3_12 == 0.0
    requires b21 * e1_13 - b22 * e2_13 + b23 * e3_13 == -D4
    requires b21 * e1_14 - b22 * e2_14 + b23 * e3_14 == -D3
    requires b21 * e1_23 - b22 * e2_23 + b23 * e3_23 == 0.0
    requires b21 * e1_24 - b22 * e2_24 + b23 * e3_24 == 0.0
    requires b21 * e1_34 - b22 * e2_34 + b23 * e3_34 == D1
    ensures a12 * d12 * (b21 * e1_12 - b22 * e2_12 + b23 * e3_12)
      + a12 * d13 * (b21 * e1_13 - b22 * e2_13 + b23 * e3_13)
      + a12 * d14 * (b21 * e1_14 - b22 * e2_14 + b23 * e3_14)
      + a12 * d23 * (b21 * e1_23 - b22 * e2_23 + b23 * e3_23)
      + a12 * d24 * (b21 * e1_24 - b22 * e2_24 + b23 * e3_24)
      + a12 * d34 * (b21 * e1_34 - b22 * e2_34 + b23 * e3_34)
      == - a12 * d13 * D4 - a12 * d14 * D3 + a12 * d34 * D1
  {
    ScaleBoth(a12 * d12, b21 * e1_12 - b22 * e2_12 + b23 * e3_12, 0.0);
    ScaleBoth(a12 * d13, b21 * e1_13 - b22 * e2_13 + b23 * e3_13, -D4);
    ScaleBoth(a12 * d14, b21 * e1_14 - b22 * e2_14 + b23 * e3_14, -D3);
    ScaleBoth(a12 * d23, b21 * e1_23 - b22 * e2_23 + b23 * e3_23, 0.0);
    ScaleBoth(a12 * d24, b21 * e1_24 - b22 * e2_24 + b23 * e3_24, 0.0);
    ScaleBoth(a12 * d34, b21 * e1_34 - b22 * e2_34 + b23 * e3_34, D1);
  }

  lemma GroupRow3(
    a13: real,
    b11: real, b12: real, b13: real,
    b21: real, b22: real, b23: real,
    b31: real, b32: real, b33: real,
    b41: real, b42: real, b43: real,
    d12: real, d13: real, d14: real, d23: real, d24: real, d34: real,
    e1_12: real, e1_13: real, e1_14: real, e1_23: real, e1_24: real, e1_34: real,
    e2_12: real, e2_13: real, e2_14: real, e2_23: real, e2_24: real, e2_34: real,
    e3_12: real, e3_13: real, e3_14: real, e3_23: real, e3_24: real, e3_34: real,
    D1: real, D2: real, D3: real, D4: real)
    requires b31 * e1_12 - b32 * e2_12 + b33 * e3_12 == D4
    requires b31 * e1_13 - b32 * e2_13 + b33 * e3_13 == 0.0
    requires b31 * e1_14 - b32 * e2_14 + b33 * e3_14 == -D2
    requires b31 * e1_23 - b32 * e2_23 + b33 * e3_23 == 0.0
    requires b31 * e1_24 - b32 * e2_24 + b33 * e3_24 == -D1
    requires b31 * e1_34 - b32 * e2_34 + b33 * e3_34 == 0.0
    ensures a13 * d12 * (b31 * e1_12 - b32 * e2_12 + b33 * e3_12)
      + a13 * d13 * (b31 * e1_13 - b32 * e2_13 + b33 * e3_13)
      + a13 * d14 * (b31 * e1_14 - b32 * e2_14 + b33 * e3_14)
      + a13 * d23 * (b31 * e1_23 - b32 * e2_23 + b33 * e3_23)
      + a13 * d24 * (b31 * e1_24 - b32 * e2_24 + b33 * e3_24)
      + a13 * d34 * (b31 * e1_34 - b32 * e2_34 + b33 * e3_34)
      == a13 * d12 * D4 - a13 * d14 * D2 - a13 * d24 * D1
  {
    ScaleBoth(a13 * d12, b31 * e1_12 - b32 * e2_12 + b33 * e3_12, D4);
    ScaleBoth(a13 * d13, b31 * e1_13 - b32 * e2_13 + b33 * e3_13, 0.0);
    ScaleBoth(a13 * d14, b31 * e1_14 - b32 * e2_14 + b33 * e3_14, -D2);
    ScaleBoth(a13 * d23, b31 * e1_23 - b32 * e2_23 + b33 * e3_23, 0.0);
    ScaleBoth(a13 * d24, b31 * e1_24 - b32 * e2_24 + b33 * e3_24, -D1);
    ScaleBoth(a13 * d34, b31 * e1_34 - b32 * e2_34 + b33 * e3_34, 0.0);
  }

  lemma GroupRow4(
    a14: real,
    b11: real, b12: real, b13: real,
    b21: real, b22: real, b23: real,
    b31: real, b32: real, b33: real,
    b41: real, b42: real, b43: real,
    d12: real, d13: real, d14: real, d23: real, d24: real, d34: real,
    e1_12: real, e1_13: real, e1_14: real, e1_23: real, e1_24: real, e1_34: real,
    e2_12: real, e2_13: real, e2_14: real, e2_23: real, e2_24: real, e2_34: real,
    e3_12: real, e3_13: real, e3_14: real, e3_23: real, e3_24: real, e3_34: real,
    D1: real, D2: real, D3: real, D4: real)
    requires b41 * e1_12 - b42 * e2_12 + b43 * e3_12 == D3
    requires b41 * e1_13 - b42 * e2_13 + b43 * e3_13 == D2
    requires b41 * e1_14 - b42 * e2_14 + b43 * e3_14 == 0.0
    requires b41 * e1_23 - b42 * e2_23 + b43 * e3_23 == D1
    requires b41 * e1_24 - b42 * e2_24 + b43 * e3_24 == 0.0
    requires b41 * e1_34 - b42 * e2_34 + b43 * e3_34 == 0.0
    ensures a14 * d12 * (b41 * e1_12 - b42 * e2_12 + b43 * e3_12)
      + a14 * d13 * (b41 * e1_13 - b42 * e2_13 + b43 * e3_13)
      + a14 * d14 * (b41 * e1_14 - b42 * e2_14 + b43 * e3_14)
      + a14 * d23 * (b41 * e1_23 - b42 * e2_23 + b43 * e3_23)
      + a14 * d24 * (b41 * e1_24 - b42 * e2_24 + b43 * e3_24)
      + a14 * d34 * (b41 * e1_34 - b42 * e2_34 + b43 * e3_34)
      == a14 * d12 * D3 + a14 * d13 * D2 + a14 * d23 * D1
  {
    ScaleBoth(a14 * d12, b41 * e1_12 - b42 * e2_12 + b43 * e3_12, D3);
    ScaleBoth(a14 * d13, b41 * e1_13 - b42 * e2_13 + b43 * e3_13, D2);
    ScaleBoth(a14 * d14, b41 * e1_14 - b42 * e2_14 + b43 * e3_14, 0.0);
    ScaleBoth(a14 * d23, b41 * e1_23 - b42 * e2_23 + b43 * e3_23, D1);
    ScaleBoth(a14 * d24, b41 * e1_24 - b42 * e2_24 + b43 * e3_24, 0.0);
    ScaleBoth(a14 * d34, b41 * e1_34 - b42 * e2_34 + b43 * e3_34, 0.0);
  }

  /** Replacing each 3x3 determinant of rows of `b` by the one with its rows in order. */
  lemma GroupRows(
    a11: real, a12: real, a13: real, a14: real,
    b11: real, b12: real, b13: real,
    b21: real, b22: real, b23: real,
    b31: real, b32: real, b33: real,
    b41: real, b42: real, b43: real,
    d12: real, d13: real, d14: real, d23: real, d24: real, d34: real,
    e1_12: real, e1_13: real, e1_14: real, e1_23: real, e1_24: real, e1_34: real,
    e2_12: real, e2_13: real, e2_14: real, e2_23: real, e2_24: real, e2_34: real,
    e3_12: real, e3_13: real, e3_14: real, e3_23: real, e3_24: real, e3_34: real,
    D1: real, D2: real, D3: real, D4: real)
    requires b11 * e1_12 - b12 * e2_12 + b13 * e3_12 == 0.0
    requires b11 * e1_13 - b12 * e2_13 + b13 * e3_13 == 0.0
    requires b11 * e1_14 - b12 * e2_14 + b13 * e3_14 == 0.0
    requires b11 * e1_23 - b12 * e2_23 + b13 * e3_23 == D4
    requires b11 * e1_24 - b12 * e2_24 + b13 * e3_24 == D3
    requires b11 * e1_34 - b12 * e2_34 + b13 * e3_34 == D2
    requires b21 * e1_12 - b22 * e2_12 + b23 * e3_12 == 0.0
    requires b21 * e1_13 - b22 * e2_13 + b23 * e3_13 == -D4
    requires b21 * e1_14 - b22 * e2_14 + b23 * e3_14 == -D3
    requires b21 * e1_23 - b22 * e2_23 + b23 * e3_23 == 0.0
    requires b21 * e1_24 - b22 * e2_24 + b23 * e3_24 == 0.0
    requires b21 * e1_34 - b22 * e2_34 + b23 * e3_34 == D1
    requires b31 * e1_12 - b32 * e2_12 + b33 * e3_12 == D4
    requires b31 * e1_13 - b32 * e2_13 + b33 * e3_13 == 0.0
    requires b31 * e1_14 - b32 * e2_14 + b33 * e3_14 == -D2
    requires b31 * e1_23 - b32 * e2_23 + b33 * e3_23 == 0.0
    requires b31 * e1_24 - b32 * e2_24 + b33 * e3_24 == -D1
    requires b31 * e1_34 - b32 * e2_34 + b33 * e3_34 == 0.0
    requires b41 * e1_12 - b42 * e2_12 + b43 * e3_12 == D3
    requires b41 * e1_13 - b42 * e2_13 + b43 * e3_13 == D2
    requires b41 * e1_14 - b42 * e2_14 + b43 * e3_14 == 0.0
    requires b41 * e1_23 - b42 * e2_23 + b43 * e3_23 == D1
    requires b41 * e1_24 - b42 * e2_24 + b43 * e3_24 == 0.0
    requires b41 * e1_34 - b42 * e2_34 + b43 * e3_34 == 0.0
    ensures a11 * d12 * (b11 * e1_12 - b12 * e2_12 + b13 * e3_12)
        + a11 * d13 * (b11 * e1_13 - b12 * e2_13 + b13 * e3_13)
        + a11 * d14 * (b11 * e1_14 - b12 * e2_14 + b13 * e3_14)
        + a11 * d23 * (b11 * e1_23 - b12 * e2_23 + b13 * e3_23)
        + a11 * d24 * (b11 * e1_24 - b12 * e2_24 + b13 * e3_24)
        + a11 * d34 * (b11 * e1_34 - b12 * e2_34 + b13 * e3_34)
        + a12 * d12 * (b21 * e1_12 - b22 * e2_12 + b23 * e3_12)
        + a12 * d13 * (b21 * e1_13 - b22 * e2_13 + b23 * e3_13)
        + a12 * d14 * (b21 * e1_14 - b22 * e2_14 + b23 * e3_14)
        + a12 * d23 * (b21 * e1_23 - b22 * e2_23 + b23 * e3_23)
        + a12 * d24 * (b21 * e1_24 - b22 * e2_24 + b23 * e3_24)
        + a12 * d34 * (b21 * e1_34 - b22 * e2_34 + b23 * e3_34)
        + a13 * d12 * (b31 * e1_12 - b32 * e2_12 + b33 * e3_12)
        + a13 * d13 * (b31 * e1_13 - b32 * e2_13 + b33 * e3_13)
        + a13 * d14 * (b31 * e1_14 - b32 * e2_14 + b33 * e3_14)
        + a13 * d23 * (b31 * e1_23 - b32 * e2_23 + b33 * e3_23)
        + a13 * d24 * (b31 * e1_24 - b32 * e2_24 + b33 * e3_24)
        + a13 * d34 * (b31 * e1_34 - b32 * e2_34 + b33 * e3_34)
        + a14 * d12 * (b41 * e1_12 - b42 * e2_12 + b43 * e3_12)
        + a14 * d13 * (b41 * e1_13 - b42 * e2_13 + b43 * e3_13)
        + a14 * d14 * (b41 * e1_14 - b42 * e2_14 + b43 * e3_14)
        + a14 * d23 * (b41 * e1_23 - b42 * e2_23 + b43 * e3_23)
        + a14 * d24 * (b41 * e1_24 - b42 * e2_24 + b43 * e3_24)
        + a14 * d34 * (b41 * e1_34 - b42 * e2_34 + b43 * e3_34)
      == a11 * d23 * D4
        + a11 * d24 * D3
        + a11 * d34 * D2
        - a12 * d13 * D4
        - a12 * d14 * D3
        + a12 * d34 * D1
        + a13 * d12 * D4
        - a13 * d14 * D2
        - a13 * d24 * D1
        + a14 * d12 * D3
        + a14 * d13 * D2
        + a14 * d23 * D1
  {
    GroupRow1(a11, b11, b12, b13, b21, b22, b23, b31, b32, b33, b41, b42, b43,
      d12, d13, d14, d23, d24, d34, e1_12, e1_13, e1_14, e1_23, e1_24, e1_34, e2_12, e2_13, e2_14, e2_23, e2_24, e2_34, e3_12, e3_13, e3_14, e3_23, e3_24, e3_34, D1, D2, D3, D4);
    GroupRow2(a12, b11, b12, b13, b21, b22, b23, b31, b32, b33, b41, b42, b43,
      d12, d13, d14, d23, d24, d34, e1_12, e1_13, e1_14, e1_23, e1_24, e1_34, e2_12, e2_13, e2_14, e2_23, e2_24, e2_34, e3_12, e3_13, e3_14, e3_23, e3_24, e3_34, D1, D2, D3, D4);
    GroupRow3(a13, b11, b12, b13, b21, b22, b23, b31, b32, b33, b41, b42, b43,
      d12, d13, d14, d23, d24, d34, e1_12, e1_13, e1_14, e1_23, e1_24, e1_34, e2_12, e2_13, e2_14, e2_23, e2_24, e2_34, e3_12, e3_13, e3_14, e3_23, e3_24, e3_34, D1, D2, D3, D4);
    GroupRow4(a14, b11, b12, b13, b21, b22, b23, b31, b32, b33, b41, b42, b43,
      d12, d13, d14, d23, d24, d34, e1_12, e1_13, e1_14, e1_23, e1_24, e1_34, e2_12, e2_13, e2_14, e2_23, e2_24, e2_34, e3_12, e3_13, e3_14, e3_23, e3_24, e3_34, D1, D2, D3, D4);
  }

  /** Collecting the terms of each ordered determinant of `b`. */
  lemma CollectMinors(
    a11: real, a12: real, a13: real, a14: real,
    d12: real, d13: real, d14: real, d23: real, d24: real, d34: real,
    A1: real, A2: real, A3: real, A4: real, D1: real, D2: real, D3: real, D4: real)
    requires A1 == a12 * d34 - a13 * d24 + a14 * d23
    requires A2 == a11 * d34 - a13 * d14 + a14 * d13
    requires A3 == a11 * d24 - a12 * d14 + a14 * d12
    requires A4 == a11 * d23 - a12 * d13 + a13 * d12
    ensures a11 * d23 * D4
        + a11 * d24 * D3
        + a11 * d34 * D2
        - a12 * d13 * D4
        - a12 * d14 * D3
        + a12 * d34 * D1
        + a13 * d12 * D4
        - a13 * d14 * D2
        - a13 * d24 * D1
        + a14 * d12 * D3
        + a14 * d13 * D2
        + a14 * d23 * D1
      == A1 * D1 + A2 * D2 + A3 * D3 + A4 * D4
  {
    ScaleBoth(D1, A1, a12 * d34 - a13 * d24 + a14 * d23);
    ScaleBoth(D2, A2, a11 * d34 - a13 * d14 + a14 * d13);
    ScaleBoth(D3, A3, a11 * d24 - a12 * d14 + a14 * d12);
    ScaleBoth(D4, A4, a11 * d23 - a12 * d13 + a13 * d12);
  }

  /**
   * The bookkeeping of Cauchy-Binet below, on plain numbers: the first row
   * of `a`, the entries of `b`, the 2x2 minors `d` of rows two and three of
   * `a`, the 2x2 minors `e` of `b`, the first row `x` of the product, the
   * minors `m` of its last two rows, and its determinant `p`.
   */
  lemma CauchyBinetSteps(
    a11: real, a12: real, a13: real, a14: real,
    b11: real, b12: real, b13: real,
    b21: real, b22: real, b23: real,
    b31: real, b32: real, b33: real,
    b41: real, b42: real, b43: real,
    d12: real, d13: real, d14: real, d23: real, d24: real, d34: real,
    e1_12: real, e1_13: real, e1_14: real, e1_23: real, e1_24: real, e1_34: real,
    e2_12: real, e2_13: real, e2_14: real, e2_23: real, e2_24: real, e2_34: real,
    e3_12: real, e3_13: real, e3_14: real, e3_23: real, e3_24: real, e3_34: real,
    x11: real, x12: real, x13: real, m1: real, m2: real, m3: real, p: real,
    A1: real, A2: real, A3: real, A4: real, D1: real, D2: real, D3: real, D4: real)
    requires p == x11 * m1 - x12 * m2 + x13 * m3
    requires x11 == a11 * b11 + a12 * b21 + a13 * b31 + a14 * b41
    requires x12 == a11 * b12 + a12 * b22 + a13 * b32 + a14 * b42
    requires x13 == a11 * b13 + a12 * b23 + a13 * b33 + a14 * b43
    requires m1 == d12 * e1_12 + d13 * e1_13 + d14 * e1_14 + d23 * e1_23 + d24 * e1_24 + d34 * e1_34
    requires m2 == d12 * e2_12 + d13 * e2_13 + d14 * e2_14 + d23 * e2_23 + d24 * e2_24 + d34 * e2_34
    requires m3 == d12 * e3_12 + d13 * e3_13 + d14 * e3_14 + d23 * e3_23 + d24 * e3_24 + d34 * e3_34
    requires b11 * e1_12 - b12 * e2_12 + b13 * e3_12 == 0.0
    requires b11 * e1_13 - b12 * e2_13 + b13 * e3_13 == 0.0
    requires b11 * e1_14 - b12 * e2_14 + b13 * e3_14 == 0.0
    requires b11 * e1_23 - b12 * e2_23 + b13 * e3_23 == D4
    requires b11 * e1_24 - b12 * e2_24 + b13 * e3_24 == D3
    requires b11 * e1_34 - b12 * e2_34 + b13 * e3_34 == D2
    requires b21 * e1_12 - b22 * e2_12 + b23 * e3_12 == 0.0
    requires b21 * e1_13 - b22 * e2_13 + b23 * e3_13 == -D4
    requires b21 * e1_14 - b22 * e2_14 + b23 * e3_14 == -D3
    requires b21 * e1_23 - b22 * e2_23 + b23 * e3_23 == 0.0
    requires b21 * e1_24 - b22 * e2_24 + b23 * e3_24 == 0.0
    requires b21 * e1_34 - b22 * e2_34 + b23 * e3_34 == D1
    requires b31 * e1_12 - b32 * e2_12 + b33 * e3_12 == D4
    requires b31 * e1_13 - b32 * e2_13 + b33 * e3_13 == 0.0
    requires b31 * e1_14 - b32 * e2_14 + b33 * e3_14 == -D2
    requires b31 * e1_23 - b32 * e2_23 + b33 * e3_23 == 0.0
    requires b31 * e1_24 - b32 * e2_24 + b33 * e3_24 == -D1
    requires b31 * e1_34 - b32 * e2_34 + b33 * e3_34 == 0.0
    requires b41 * e1_12 - b42 * e2_12 + b43 * e3_12 == D3
    requires b41 * e1_13 - b42 * e2_13 + b43 * e3_13 == D2
    requires b41 * e1_14 - b42 * e2_14 + b43 * e3_14 == 0.0
    requires b41 * e1_23 - b42 * e2_23 + b43 * e3_23 == D1
    requires b41 * e1_24 - b42 * e2_24 + b43 * e3_24 == 0.0
    requires b41 * e1_34 - b42 * e2_34 + b43 * e3_34 == 0.0
    requires A1 == a12 * d34 - a13 * d24 + a14 * d23
    requires A2 == a11 * d34 - a13 * d14 + a14 * d13
    requires A3 == a11 * d24 - a12 * d14 + a14 * d12
    requires A4 == a11 * d23 - a12 * d13 + a13 * d12
    ensures p == A1 * D1 + A2 * D2 + A3 * D3 + A4 * D4
  {
    ExpandProduct(a11, a12, a13, a14, b11, b12, b13, b21, b22, b23, b31, b32, b33, b41, b42, b43,
      d12, d13, d14, d23, d24, d34, e1_12, e1_13, e1_14, e1_23, e1_24, e1_34, e2_12, e2_13, e2_14, e2_23, e2_24, e2_34, e3_12, e3_13, e3_14, e3_23, e3_24, e3_34,
      x11, x12, x13, m1, m2, m3, p);
    GroupRows(a11, a12, a13, a14, b11, b12, b13, b21, b22, b23, b31, b32, b33, b41, b42, b43,
      d12, d13, d14, d23, d24, d34, e1_12, e1_13, e1_14, e1_23, e1_24, e1_34, e2_12, e2_13, e2_14, e2_23, e2_24, e2_34, e3_12, e3_13, e3_14, e3_23, e3_24, e3_34,
      D1, D2, D3, D4);
    CollectMinors(a11, a12, a13, a14, d12, d13, d14, d23, d24, d34, A1, A2, A3, A4, D1, D2, D3, D4);
  }

  /** The first-row expansion of a 3x3 block of a product, its minors by Cauchy-Binet for 2x2 blocks. */
  lemma ProductFirstRow(
    a11: real, a12: real, a13: real, a14: real,
    a21: real, a22: real, a23: real, a24: real,
    a31: real, a32: real, a33: real, a34: real,
    b11: real, b12: real, b13: real,
    b21: real, b22: real, b23: real,
    b31: real, b32: real, b33: real,
    b41: real, b42: real, b43: real)
    ensures Det3(
        a11 * b11 + a12 * b21 + a13 * b31 + a14 * b41, a11 * b12 + a12 * b22 + a13 * b32 + a14 * b42, a11 * b13 + a12 * b23 + a13 * b33 + a14 * b43,
        a21 * b11 + a22 * b21 + a23 * b31 + a24 * b41, a21 * b12 + a22 * b22 + a23 * b32 + a24 * b42, a21 * b13 + a22 * b23 + a23 * b33 + a24 * b43,
        a31 * b11 + a32 * b21 + a33 * b31 + a34 * b41, a31 * b12 + a32 * b22 + a33 * b32 + a34 * b42, a31 * b13 + a32 * b23 + a33 * b33 + a34 * b43)
      == (a11 * b11 + a12 * b21 + a13 * b31 + a14 * b41) * (Det2(a21, a22, a31, a32) * Det2(b12, b13, b22, b23) + Det2(a21, a23, a31, a33) * Det2(b12, b13, b32, b33) + Det2(a21, a24, a31, a34) * Det2(b12, b13, b42, b43) + Det2(a22, a23, a32, a33) * Det2(b22, b23, b32, b33) + Det2(a22, a24, a32, a34) * Det2(b22, b23, b42, b43) + Det2(a23, a24, a33, a34) * Det2(b32, b33, b42, b43))
       - (a11 * b12 + a12 * b22 + a13 * b32 + a14 * b42) * (Det2(a21, a22, a31, a32) * Det2(b11, b13, b21, b23) + Det2(a21, a23, a31, a33) * Det2(b11, b13, b31, b33) + Det2(a21, a24, a31, a34) * Det2(b11, b13, b41, b43) + Det2(a22, a23, a32, a33) * Det2(b21, b23, b31, b33) + Det2(a22, a24, a32, a34) * Det2(b21, b23, b41, b43) + Det2(a23, a24, a33, a34) * Det2(b31, b33, b41, b43))
       + (a11 * b13 + a12 * b23 + a13 * b33 + a14 * b43) * (Det2(a21, a22, a31, a32) * Det2(b11, b12, b21, b22) + Det2(a21, a23, a31, a33) * Det2(b11, b12, b31, b32) + Det2(a21, a24, a31, a34) * Det2(b11, b12, b41, b42) + Det2(a22, a23, a32, a33) * Det2(b21, b22, b31, b32) + Det2(a22, a24, a32, a34) * Det2(b21, b22, b41, b42) + Det2(a23, a24, a33, a34) * Det2(b31, b32, b41, b42))
  {
    CauchyBinet2(a21, a22, a23, a24, a31, a32, a33, a34,
      b12, b13, b22, b23, b32, b33, b42, b43);
    CauchyBinet2(a21, a22, a23, a24, a31, a32, a33, a34,
      b11, b13, b21, b23, b31, b33, b41, b43);
    CauchyBinet2(a21, a22, a23, a24, a31, a32, a33, a34,
      b11, b12, b21, b22, b31, b32, b41, b42);
    FirstRow(
      a11 * b11 + a12 * b21 + a13 * b31 + a14 * b41, a11 * b12 + a12 * b22 + a13 * b32 + a14 * b42, a11 * b13 + a12 * b23 + a13 * b33 + a14 * b43,
      a21 * b11 + a22 * b21 + a23 * b31 + a24 * b41, a21 * b12 + a22 * b22 + a23 * b32 + a24 * b42, a21 * b13 + a22 * b23 + a23 * b33 + a24 * b43,
      a31 * b11 + a32 * b21 + a33 * b31 + a34 * b41, a31 * b12 + a32 * b22 + a33 * b32 + a34 * b42, a31 * b13 + a32 * b23 + a33 * b33 + a34 * b43,
      Det2(a21, a22, a31, a32) * Det2(b12, b13, b22, b23) + Det2(a21, a23, a31, a33) * Det2(b12, b13, b32, b33) + Det2(a21, a24, a31, a34) * Det2(b12, b13, b42, b43) + Det2(a22, a23, a32, a33) * Det2(b22, b23, b32, b33) + Det2(a22, a24, a32, a34) * Det2(b22, b23, b42, b43) + Det2(a23, a24, a33, a34) * Det2(b32, b33, b42, b43),
      Det2(a21, a22, a31, a32) * Det2(b11, b13, b21, b23) + Det2(a21, a23, a31, a33) * Det2(b11, b13, b31, b33) + Det2(a21, a24, a31, a34) * Det2(b11, b13, b41, b43) + Det2(a22, a23, a32, a33) * Det2(b21, b23, b31, b33) + Det2(a22, a24, a32, a34) * Det2(b21, b23, b41, b43) + Det2(a23, a24, a33, a34) * Det2(b31, b33, b41, b43),
      Det2(a21, a22, a31, a32) * Det2(b11, b12, b21, b22) + Det2(a21, a23, a31, a33) * Det2(b11, b12, b31, b32) + Det2(a21, a24, a31, a34) * Det2(b11, b12, b41, b42) + Det2(a22, a23, a32, a33) * Det2(b21, b22, b31, b32) + Det2(a22, a24, a32, a34) * Det2(b21, b22, b41, b42) + Det2(a23, a24, a33, a34) * Det2(b31, b32, b41, b42));
  }

  /** Each row of `b` against the 2x2 minors of two rows of `b`: an ordered 3x3 determinant, up to sign, or zero. */
  lemma RowsOfB(
    b11: real, b12: real, b13: real,
    b21: real, b22: real, b23: real,
    b31: real, b32: real, b33: real,
    b41: real, b42: real, b43: real)
    ensures b11 * Det2(b12, b13, b22, b23) - b12 * Det2(b11, b13, b21, b23) + b13 * Det2(b11, b12, b21, b22)
      == 0.0
    ensures b11 * Det2(b12, b13, b32, b33) - b12 * Det2(b11, b13, b31, b33) + b13 * Det2(b11, b12, b31, b32)
      == 0.0
    ensures b11 * Det2(b12, b13, b42, b43) - b12 * Det2(b11, b13, b41, b43) + b13 * Det2(b11, b12, b41, b42)
      == 0.0
    ensures b11 * Det2(b22, b23, b32, b33) - b12 * Det2(b21, b23, b31, b33) + b13 * Det2(b21, b22, b31, b32)
      == Det3(b11, b12, b13, b21, b22, b23, b31, b32, b33)
    ensures b11 * Det2(b22, b23, b42, b43) - b12 * Det2(b21, b23, b41, b43) + b13 * Det2(b21, b22, b41, b42)
      == Det3(b11, b12, b13, b21, b22, b23, b41, b42, b43)
    ensures b11 * Det2(b32, b33, b42, b43) - b12 * Det2(b31, b33, b41, b43) + b13 * Det2(b31, b32, b41, b42)
      == Det3(b11, b12, b13, b31, b32, b33, b41, b42, b43)
    ensures b21 * Det2(b12, b13, b22, b23) - b22 * Det2(b11, b13, b21, b23) + b23 * Det2(b11, b12, b21, b22)
      == 0.0
    ensures b21 * Det2(b12, b13, b32, b33) - b22 * Det2(b11, b13, b31, b33) + b23 * Det2(b11, b12, b31, b32)
      == -Det3(b11, b12, b13, b21, b22, b23, b31, b32, b33)
    ensures b21 * Det2(b12, b13, b42, b43) - b22 * Det2(b11, b13, b41, b43) + b23 * Det2(b11, b12, b41, b42)
      == -Det3(b11, b12, b13, b21, b22, b23, b41, b42, b43)
    ensures b21 * Det2(b22, b23, b32, b33) - b22 * Det2(b21, b23, b31, b33) + b23 * Det2(b21, b22, b31, b32)
      == 0.0
    ensures b21 * Det2(b22, b23, b42, b43) - b22 * Det2(b21, b23, b41, b43) + b23 * Det2(b21, b22, b41, b42)
      == 0.0
    ensures b21 * Det2(b32, b33, b42, b43) - b22 * Det2(b31, b33, b41, b43) + b23 * Det2(b31, b32, b41, b42)
      == Det3(b21, b22, b23, b31, b32, b33, b41, b42, b43)
    ensures b31 * Det2(b12, b13, b22, b23) - b32 * Det2(b11, b13, b21, b23) + b33 * Det2(b11, b12, b21, b22)
      == Det3(b11, b12, b13, b21, b22, b23, b31, b32, b33)
    ensures b31 * Det2(b12, b13, b32, b33) - b32 * Det2(b11, b13, b31, b33) + b33 * Det2(b11, b12, b31, b32)
      == 0.0
    ensures b31 * Det2(b12, b13, b42, b43) - b32 * Det2(b11, b13, b41, b43) + b33 * Det2(b11, b12, b41, b42)
      == -Det3(b11, b12, b13, b31, b32, b33, b41, b42, b43)
    ensures b31 * Det2(b22, b23, b32, b33) - b32 * Det2(b21, b23, b31, b33) + b33 * Det2(b21, b22, b31, b32)
      == 0.0
    ensures b31 * Det2(b22, b23, b42, b43) - b32 * Det2(b21, b23, b41, b43) + b33 * Det2(b21, b22, b41, b42)
      == -Det3(b21, b22, b23, b31, b32, b33, b41, b42, b43)
    ensures b31 * Det2(b32, b33, b42, b43) - b32 * Det2(b31, b33, b41, b43) + b33 * Det2(b31, b32, b41, b42)
      == 0.0
    ensures b41 * Det2(b12, b13, b22, b23) - b42 * Det2(b11, b13, b21, b23) + b43 * Det2(b11, b12, b21, b22)
      == Det3(b11, b12, b13, b21, b22, b23, b41, b42, b43)
    ensures b41 * Det2(b12, b13, b32, b33) - b42 * Det2(b11, b13, b31, b33) + b43 * Det2(b11, b12, b31, b32)
      == Det3(b11, b12, b13, b31, b32, b33, b41, b42, b43)
    ensures b41 * Det2(b12, b13, b42, b43) - b42 * Det2(b11, b13, b41, b43) + b43 * Det2(b11, b12, b41, b42)
      == 0.0
    ensures b41 * Det2(b22, b23, b32, b33) - b42 * Det2(b21, b23, b31, b33) + b43 * Det2(b21, b22, b31, b32)
      == Det3(b21, b22, b23, b31, b32, b33, b41, b42, b43)
    ensures b41 * Det2(b22, b23, b42, b43) - b42 * Det2(b21, b23, b41, b43) + b43 * Det2(b21, b22, b41, b42)
      == 0.0
    ensures b41 * Det2(b32, b33, b42, b43) - b42 * Det2(b31, b33, b41, b43) + b43 * Det2(b31, b32, b41, b42)
      == 0.0
  {
    RepeatedRow(b11, b12, b13, b21, b22, b23);
    RepeatedRow(b11, b12, b13, b31, b32, b33);
    RepeatedRow(b11, b12, b13, b41, b42, b43);
    RepeatedRow(b21, b22, b23, b11, b12, b13);
    SwapFirst(b11, b12, b13, b21, b22, b23, b31, b32, b33);
    SwapFirst(b11, b12, b13, b21, b22, b23, b41, b42, b43);
    RepeatedRow(b21, b22, b23, b31, b32, b33);
    RepeatedRow(b21, b22, b23, b41, b42, b43);
    Rotate(b11, b12, b13, b21, b22, b23, b31, b32, b33);
    RepeatedRow(b31, b32, b33, b11, b12, b13);
    SwapFirst(b11, b12, b13, b31, b32, b33, b41, b42, b43);
    RepeatedRow(b31, b32, b33, b21, b22, b23);
    SwapFirst(b21, b22, b23, b31, b32, b33, b41, b42, b43);
    RepeatedRow(b31, b32, b33, b41, b42, b43);
    Rotate(b11, b12, b13, b21, b22, b23, b41, b42, b43);
    Rotate(b11, b12, b13, b31, b32, b33, b41, b42, b43);
    RepeatedRow(b41, b42, b43, b11, b12, b13);
    Rotate(b21, b22, b23, b31, b32, b33, b41, b42, b43);
    RepeatedRow(b41, b42, b43, b21, b22, b23);
    RepeatedRow(b41, b42, b43, b31, b32, b33);
  }

  /**
   * Cauchy-Binet for a 3x4 matrix `a` times a 4x3 matrix `b`: the
   * determinant of the product is the sum, over the column `c` of `a` left
   * out, of the determinant of `a` without column `c` times that of `b`
   * without row `c`.
   */
  lemma CauchyBinet3(
    a11: real, a12: real, a13: real, a14: real,
    a21: real, a22: real, a23: real, a24: real,
    a31: real, a32: real, a33: real, a34: real,
    b11: real, b12: real, b13: real,
    b21: real, b22: real, b23: real,
    b31: real, b32: real, b33: real,
    b41: real, b42: real, b43: real)
    ensures Det3(
        a11 * b11 + a12 * b21 + a13 * b31 + a14 * b41, a11 * b12 + a12 * b22 + a13 * b32 + a14 * b42, a11 * b13 + a12 * b23 + a13 * b33 + a14 * b43,
        a21 * b11 + a22 * b21 + a23 * b31 + a24 * b41, a21 * b12 + a22 * b22 + a23 * b32 + a24 * b42, a21 * b13 + a22 * b23 + a23 * b33 + a24 * b43,
        a31 * b11 + a32 * b21 + a33 * b31 + a34 * b41, a31 * b12 + a32 * b22 + a33 * b32 + a34 * b42, a31 * b13 + a32 * b23 + a33 * b33 + a34 * b43)
      == Det3(a12, a13, a14, a22, a23, a24, a32, a33, a34) * Det3(b21, b22, b23, b31, b32, b33, b41, b42, b43)
       + Det3(a11, a13, a14, a21, a23, a24, a31, a33, a34) * Det3(b11, b12, b13, b31, b32, b33, b41, b42, b43)
       + Det3(a11, a12, a14, a21, a22, a24, a31, a32, a34) * Det3(b11, b12, b13, b21, b22, b23, b41, b42, b43)
       + Det3(a11, a12, a13, a21, a22, a23, a31, a32, a33) * Det3(b11, b12, b13, b21, b22, b23, b31, b32, b33)
  {
    ProductFirstRow(a11, a12, a13, a14, a21, a22, a23, a24, a31, a32, a33, a34,
      b11, b12, b13, b21, b22, b23, b31, b32, b33, b41, b42, b43);
    RowsOfB(b11, b12, b13, b21, b22, b23, b31, b32, b33, b41, b42, b43);
    CauchyBinetSteps(
      a11, a12, a13, a14,
      b11, b12, b13, b21, b22, b23, b31, b32, b33, b41, b42, b43,
      Det2(a21, a22, a31, a32),
      Det2(a21, a23, a31, a33),
      Det2(a21, a24, a31, a34),
      Det2(a22, a23, a32, a33),
      Det2(a22, a24, a32, a34),
      Det2(a23, a24, a33, a34),
      Det2(b12, b13, b22, b23),
      Det2(b12, b13, b32, b33),
      Det2(b12, b13, b42, b43),
      Det2(b22, b23, b32, b33),
      Det2(b22, b23, b42, b43),
      Det2(b32, b33, b42, b43),
      Det2(b11, b13, b21, b23),
      Det2(b11, b13, b31, b33),
      Det2(b11, b13, b41, b43),
      Det2(b21, b23, b31, b33),
      Det2(b21, b23, b41, b43),
      Det2(b31, b33, b41, b43),
      Det2(b11, b12, b21, b22),
      Det2(b11, b12, b31, b32),
      Det2(b11, b12, b41, b42),
      Det2(b21, b22, b31, b32),
      Det2(b21, b22, b41, b42),
      Det2(b31, b32, b41, b42),
      a11 * b11 + a12 * b21 + a13 * b31 + a14 * b41,
      a11 * b12 + a12 * b22 + a13 * b32 + a14 * b42,
      a11 * b13 + a12 * b23 + a13 * b33 + a14 * b43,
      Det2(a21, a22, a31, a32) * Det2(b12, b13, b22, b23) + Det2(a21, a23, a31, a33) * Det2(b12, b13, b32, b33) + Det2(a21, a24, a31, a34) * Det2(b12, b13, b42, b43) + Det2(a22, a23, a32, a33) * Det2(b22, b23, b32, b33) + Det2(a22, a24, a32, a34) * Det2(b22, b23, b42, b43) + Det2(a23, a24, a33, a34) * Det2(b32, b33, b42, b43),
      Det2(a21, a22, a31, a32) * Det2(b11, b13, b21, b23) + Det2(a21, a23, a31, a33) * Det2(b11, b13, b31, b33) + Det2(a21, a24, a31, a34) * Det2(b11, b13, b41, b43) + Det2(a22, a23, a32, a33) * Det2(b21, b23, b31, b33) + Det2(a22, a24, a32, a34) * Det2(b21, b23, b41, b43) + Det2(a23, a24, a33, a34) * Det2(b31, b33, b41, b43),
      Det2(a21, a22, a31, a32) * Det2(b11, b12, b21, b22) + Det2(a21, a23, a31, a33) * Det2(b11, b12, b31, b32) + Det2(a21, a24, a31, a34) * Det2(b11, b12, b41, b42) + Det2(a22, a23, a32, a33) * Det2(b21, b22, b31, b32) + Det2(a22, a24, a32, a34) * Det2(b21, b22, b41, b42) + Det2(a23, a24, a33, a34) * Det2(b31, b32, b41, b42),
      Det3(
        a11 * b11 + a12 * b21 + a13 * b31 + a14 * b41, a11 * b12 + a12 * b22 + a13 * b32 + a14 * b42, a11 * b13 + a12 * b23 + a13 * b33 + a14 * b43,
        a21 * b11 + a22 * b21 + a23 * b31 + a24 * b41, a21 * b12 + a22 * b22 + a23 * b32 + a24 * b42, a21 * b13 + a22 * b23 + a23 * b33 + a24 * b43,
        a31 * b11 + a32 * b21 + a33 * b31 + a34 * b41, a31 * b12 + a32 * b22 + a33 * b32 + a34 * b42, a31 * b13 + a32 * b23 + a33 * b33 + a34 * b43),
      Det3(a12, a13, a14, a22, a23, a24, a32, a33, a34),
      Det3(a11, a13, a14, a21, a23, a24, a31, a33, a34),
      Det3(a11, a12, a14, a21, a22, a24, a31, a32, a34),
      Det3(a11, a12, a13, a21, a22, a23, a31, a32, a33),
      Det3(b21, b22, b23, b31, b32, b33, b41, b42, b43),
      Det3(b11, b12, b13, b31, b32, b33, b41, b42, b43),
      Det3(b11, b12, b13, b21, b22, b23, b41, b42, b43),
      Det3(b11, b12, b13, b21, b22, b23, b31, b32, b33));
  }
}
