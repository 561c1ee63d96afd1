/** `mat4.determinant`, `mat4.inverse` and `mat4.inverse3x3`. Slots are
    named as in the source: a_ij is slot 4 * i + j, so a_ij is the entry in
    row j and column i. */
module Mat4Inverse {

  import Mat3
  import Mat4
  import Nullable

  /** `mat4.determinant`: the 24-term expansion the source spells out. For
      an affine matrix (bottom row 0, 0, 0, 1) it is the determinant of the
      upper-left 3x3 block. */
  function Determinant(m: Mat4.Matrix4): (r: real)
    ensures Mat4.IsAffine(m) ==> r == Mat3.Determinant([m[0], m[1], m[2], m[4], m[5], m[6], m[8], m[9], m[10]])
  {
    var a00, a01, a02, a03 := m[0], m[1], m[2], m[3];
    var a10, a11, a12, a13 := m[4], m[5], m[6], m[7];
    var a20, a21, a22, a23 := m[8], m[9], m[10], m[11];
    var a30, a31, a32, a33 := m[12], m[13], m[14], m[15];
    a30 * a21 * a12 * a03 - a20 * a31 * a12 * a03 - a30 * a11 * a22 * a03 + a10 * a31 * a22 * a03 +
    a20 * a11 * a32 * a03 - a10 * a21 * a32 * a03 - a30 * a21 * a02 * a13 + a20 * a31 * a02 * a13 +
    a30 * a01 * a22 * a13 - a00 * a31 * a22 * a13 - a20 * a01 * a32 * a13 + a00 * a21 * a32 * a13 +
    a30 * a11 * a02 * a23 - a10 * a31 * a02 * a23 - a30 * a01 * a12 * a23 + a00 * a31 * a12 * a23 +
    a10 * a01 * a32 * a23 - a00 * a11 * a32 * a23 - a20 * a11 * a02 * a33 + a10 * a21 * a02 * a33 +
    a20 * a01 * a12 * a33 - a00 * a21 * a12 * a33 - a10 * a01 * a22 * a33 + a00 * a11 * a22 * a33
  }

  /** The determinant as `mat4.inverse` computes it, from the six 2x2
      minors b00..b05 of slots 0-7 and the six b06..b11 of slots 8-15; it
      agrees with `mat4.determinant`. */
  function PairMinorDeterminant(m: Mat4.Matrix4): (r: real)
    ensures r == Determinant(m)
  {
    var a00, a01, a02, a03 := m[0], m[1], m[2], m[3];
    var a10, a11, a12, a13 := m[4], m[5], m[6], m[7];
    var a20, a21, a22, a23 := m[8], m[9], m[10], m[11];
    var a30, a31, a32, a33 := m[12], m[13], m[14], m[15];
    var b00, b01, b02 := a00 * a11 - a01 * a10, a00 * a12 - a02 * a10, a00 * a13 - a03 * a10;
    var b03, b04, b05 := a01 * a12 - a02 * a11, a01 * a13 - a03 * a11, a02 * a13 - a03 * a12;
    var b06, b07, b08 := a20 * a31 - a21 * a30, a20 * a32 - a22 * a30, a20 * a33 - a23 * a30;
    var b09, b10, b11 := a21 * a32 - a22 * a31, a21 * a33 - a23 * a31, a22 * a33 - a23 * a32;
    b00 * b11 - b01 * b10 + b02 * b09 + b03 * b08 - b04 * b07 + b05 * b06
  }

  lemma DeterminantOfIdentity()
    ensures Determinant(Mat4.Identity()) == 1.0
  {
  }

  /** A matrix and its transpose have the same determinant. */
  lemma DeterminantOfTranspose(m: Mat4.Matrix4)
    ensures Determinant(Mat4.Transpose(m)) == Determinant(m)
  {
  }

  /** The sixteen numerators of `mat4.inverse`: the adjugate (transposed
      cofactor matrix), each slot before it is multiplied by 1 / d. */
  function Adjugate(m: Mat4.Matrix4): Mat4.Matrix4
  {
    var a00, a01, a02, a03 := m[0], m[1], m[2], m[3];
    var a10, a11, a12, a13 := m[4], m[5], m[6], m[7];
    var a20, a21, a22, a23 := m[8], m[9], m[10], m[11];
    var a30, a31, a32, a33 := m[12], m[13], m[14], m[15];
    var b00, b01, b02 := a00 * a11 - a01 * a10, a00 * a12 - a02 * a10, a00 * a13 - a03 * a10;
    var b03, b04, b05 := a01 * a12 - a02 * a11, a01 * a13 - a03 * a11, a02 * a13 - a03 * a12;
    var b06, b07, b08 := a20 * a31 - a21 * a30, a20 * a32 - a22 * a30, a20 * a33 - a23 * a30;
    var b09, b10, b11 := a21 * a32 - a22 * a31, a21 * a33 - a23 * a31, a22 * a33 - a23 * a32;
    [a11 * b11 - a12 * b10 + a13 * b09,
     -a01 * b11 + a02 * b10 - a03 * b09,
     a31 * b05 - a32 * b04 + a33 * b03,
     -a21 * b05 + a22 * b04 - a23 * b03,
     -a10 * b11 + a12 * b08 - a13 * b07,
     a00 * b11 - a02 * b08 + a03 * b07,
     -a30 * b05 + a32 * b02 - a33 * b01,
     a20 * b05 - a22 * b02 + a23 * b01,
     a10 * b10 - a11 * b08 + a13 * b06,
     -a00 * b10 + a01 * b08 - a03 * b06,
     a30 * b04 - a31 * b02 + a33 * b00,
     -a20 * b04 + a21 * b02 - a23 * b00,
     -a10 * b09 + a11 * b07 - a12 * b06,
     a00 * b09 - a01 * b07 + a02 * b06,
     -a30 * b03 + a31 * b01 - a32 * b00,
     a20 * b03 - a21 * b01 + a22 * b00]
  }

  /** `mat4.inverse`: the adjugate scaled by id = 1 / d, whose product with
      the matrix, in either order, is the identity. The source does not
      test d; for a singular matrix it divides by zero (IEEE infinities),
      which this model excludes by its precondition. */
  function Inverse(m: Mat4.Matrix4): (r: Mat4.Matrix4)
    requires Determinant(m) != 0.0
    ensures Mat4.Multiply(m, r) == Mat4.Identity()
    ensures Mat4.Multiply(r, m) == Mat4.Identity()
  {
    var d := PairMinorDeterminant(m);
    AdjugateProducts(m);
    Mat4.MultiplyScaled(m, Adjugate(m), 1.0 / d);
    Mat4.ScaledIdentityInverse(d);
    Mat4.ScaleEntries(Adjugate(m), 1.0 / d)
  }

  /** The adjugate times the matrix, on either side, is d times the
      identity. */
  lemma AdjugateProducts(m: Mat4.Matrix4)
    ensures Mat4.Multiply(m, Adjugate(m)) == Mat4.ScaleEntries(Mat4.Identity(), PairMinorDeterminant(m))
    ensures Mat4.Multiply(Adjugate(m), m) == Mat4.ScaleEntries(Mat4.Identity(), PairMinorDeterminant(m))
  {
    var c, d := Adjugate(m), PairMinorDeterminant(m);
    forall i, j | 0 <= i < 4 && 0 <= j < 4
      ensures Mat4.RowTimesColumn(m, c, i, j) == (if i == j then d else 0.0)
      ensures Mat4.RowTimesColumn(c, m, i, j) == (if i == j then d else 0.0)
    {
      if j == 0 { AdjugateRight0(m); AdjugateRight0Row3(m); } else if j == 1 { AdjugateRight1(m); }
      else if j == 2 { AdjugateRight2(m); } else { AdjugateRight3(m); }
      if i == 0 { AdjugateLeft0(m); AdjugateLeft0Column3(m); } else if i == 1 { AdjugateLeft1(m); }
      else if i == 2 { AdjugateLeft2(m); } else { AdjugateLeft3(m); }
    }
    Mat4.ProductIsScaledIdentity(m, c, d);
    Mat4.ProductIsScaledIdentity(c, m, d);
  }

  /** Column 0 of m * adjugate(m). */
  lemma AdjugateRight0(m: Mat4.Matrix4)
    ensures Mat4.RowTimesColumn(m, Adjugate(m), 0, 0) == PairMinorDeterminant(m)
    ensures Mat4.RowTimesColumn(m, Adjugate(m), 1, 0) == 0.0
    ensures Mat4.RowTimesColumn(m, Adjugate(m), 2, 0) == 0.0
  {
    var c, d := Adjugate(m), PairMinorDeterminant(m);
    LaplaceRow0(m[0], m[1], m[2], m[3], m[4], m[5], m[6], m[7], m[8], m[9], m[10], m[11], m[12], m[13], m[14], m[15],
      c[0], c[1], c[2], c[3], d);
  }

  /** Row 3, column 0 of m * adjugate(m). */
  lemma AdjugateRight0Row3(m: Mat4.Matrix4)
    ensures Mat4.RowTimesColumn(m, Adjugate(m), 3, 0) == 0.0
  {
    var c, d := Adjugate(m), PairMinorDeterminant(m);
    LaplaceRow0Column3(m[0], m[1], m[2], m[3], m[4], m[5], m[6], m[7], m[8], m[9], m[10], m[11], m[12], m[13], m[14], m[15],
      c[0], c[1], c[2], c[3], d);
  }

  /** Column 1 of m * adjugate(m). */
  lemma AdjugateRight1(m: Mat4.Matrix4)
    ensures Mat4.RowTimesColumn(m, Adjugate(m), 0, 1) == 0.0
    ensures Mat4.RowTimesColumn(m, Adjugate(m), 1, 1) == PairMinorDeterminant(m)
    ensures Mat4.RowTimesColumn(m, Adjugate(m), 2, 1) == 0.0
    ensures Mat4.RowTimesColumn(m, Adjugate(m), 3, 1) == 0.0
  {
    var c, d := Adjugate(m), PairMinorDeterminant(m);
    LaplaceRow1(m[0], m[1], m[2], m[3], m[4], m[5], m[6], m[7], m[8], m[9], m[10], m[11], m[12], m[13], m[14], m[15],
      c[4], c[5], c[6], c[7], d);
  }

  /** Column 2 of m * adjugate(m). */
  lemma AdjugateRight2(m: Mat4.Matrix4)
    ensures Mat4.RowTimesColumn(m, Adjugate(m), 0, 2) == 0.0
    ensures Mat4.RowTimesColumn(m, Adjugate(m), 1, 2) == 0.0
    ensures Mat4.RowTimesColumn(m, Adjugate(m), 2, 2) == PairMinorDeterminant(m)
    ensures Mat4.RowTimesColumn(m, Adjugate(m), 3, 2) == 0.0
  {
    var c, d := Adjugate(m), PairMinorDeterminant(m);
    LaplaceRow2(m[0], m[1], m[2], m[3], m[4], m[5], m[6], m[7], m[8], m[9], m[10], m[11], m[12], m[13], m[14], m[15],
      c[8], c[9], c[10], c[11], d);
  }

  /** Column 3 of m * adjugate(m). */
  lemma AdjugateRight3(m: Mat4.Matrix4)
    ensures Mat4.RowTimesColumn(m, Adjugate(m), 0, 3) == 0.0
    ensures Mat4.RowTimesColumn(m, Adjugate(m), 1, 3) == 0.0
    ensures Mat4.RowTimesColumn(m, Adjugate(m), 2, 3) == 0.0
    ensures Mat4.RowTimesColumn(m, Adjugate(m), 3, 3) == PairMinorDeterminant(m)
  {
    var c, d := Adjugate(m), PairMinorDeterminant(m);
    LaplaceRow3(m[0], m[1], m[2], m[3], m[4], m[5], m[6], m[7], m[8], m[9], m[10], m[11], m[12], m[13], m[14], m[15],
      c[12], c[13], c[14], c[15], d);
  }

  /** Row 0 of adjugate(m) * m. */
  lemma AdjugateLeft0(m: Mat4.Matrix4)
    ensures Mat4.RowTimesColumn(Adjugate(m), m, 0, 0) == PairMinorDeterminant(m)
    ensures Mat4.RowTimesColumn(Adjugate(m), m, 0, 1) == 0.0
    ensures Mat4.RowTimesColumn(Adjugate(m), m, 0, 2) == 0.0
  {
    var c, d := Adjugate(m), PairMinorDeterminant(m);
    LaplaceColumn0(m[0], m[1], m[2], m[3], m[4], m[5], m[6], m[7], m[8], m[9], m[10], m[11], m[12], m[13], m[14], m[15],
      c[0], c[4], c[8], c[12], d);
  }

  /** Row 0, column 3 of adjugate(m) * m. */
  lemma AdjugateLeft0Column3(m: Mat4.Matrix4)
    ensures Mat4.RowTimesColumn(Adjugate(m), m, 0, 3) == 0.0
  {
    var c, d := Adjugate(m), PairMinorDeterminant(m);
    LaplaceColumn0Row3(m[0], m[1], m[2], m[3], m[4], m[5], m[6], m[7], m[8], m[9], m[10], m[11], m[12], m[13], m[14], m[15],
      c[0], c[4], c[8], c[12], d);
  }

  /** Row 1 of adjugate(m) * m. */
  lemma AdjugateLeft1(m: Mat4.Matrix4)
    ensures Mat4.RowTimesColumn(Adjugate(m), m, 1, 0) == 0.0
    ensures Mat4.RowTimesColumn(Adjugate(m), m, 1, 1) == PairMinorDeterminant(m)
    ensures Mat4.RowTimesColumn(Adjugate(m), m, 1, 2) == 0.0
    ensures Mat4.RowTimesColumn(Adjugate(m), m, 1, 3) == 0.0
  {
    var c, d := Adjugate(m), PairMinorDeterminant(m);
    LaplaceColumn1(m[0], m[1], m[2], m[3], m[4], m[5], m[6], m[7], m[8], m[9], m[10], m[11], m[12], m[13], m[14], m[15],
      c[1], c[5], c[9], c[13], d);
  }

  /** Row 2 of adjugate(m) * m. */
  lemma AdjugateLeft2(m: Mat4.Matrix4)
    ensures Mat4.RowTimesColumn(Adjugate(m), m, 2, 0) == 0.0
    ensures Mat4.RowTimesColumn(Adjugate(m), m, 2, 1) == 0.0
    ensures Mat4.RowTimesColumn(Adjugate(m), m, 2, 2) == PairMinorDeterminant(m)
    ensures Mat4.RowTimesColumn(Adjugate(m), m, 2, 3) == 0.0
  {
    var c, d := Adjugate(m), PairMinorDeterminant(m);
    LaplaceColumn2(m[0], m[1], m[2], m[3], m[4], m[5], m[6], m[7], m[8], m[9], m[10], m[11], m[12], m[13], m[14], m[15],
      c[2], c[6], c[10], c[14], d);
  }

  /** Row 3 of adjugate(m) * m. */
  lemma AdjugateLeft3(m: Mat4.Matrix4)
    ensures Mat4.RowTimesColumn(Adjugate(m), m, 3, 0) == 0.0
    ensures Mat4.RowTimesColumn(Adjugate(m), m, 3, 1) == 0.0
    ensures Mat4.RowTimesColumn(Adjugate(m), m, 3, 2) == 0.0
    ensures Mat4.RowTimesColumn(Adjugate(m), m, 3, 3) == PairMinorDeterminant(m)
  {
    var c, d := Adjugate(m), PairMinorDeterminant(m);
    LaplaceColumn3(m[0], m[1], m[2], m[3], m[4], m[5], m[6], m[7], m[8], m[9], m[10], m[11], m[12], m[13], m[14], m[15],
      c[3], c[7], c[11], c[15], d);
  }

  /** A right inverse of an invertible matrix is its inverse. */
  lemma InverseUnique(m: Mat4.Matrix4, n: Mat4.Matrix4)
    requires Determinant(m) != 0.0
    requires Mat4.Multiply(m, n) == Mat4.Identity()
    ensures n == Inverse(m)
  {
    Mat4.MultiplyIdentity(n);
    Mat4.MultiplyIdentity(Inverse(m));
    Mat4.MultiplyAssociative(Inverse(m), m, n);
  }

  /** Row j of the adjugate against the columns of the matrix, for j = 0
      here and j = 1, 2, 3 below: d on the diagonal, 0 off it. Each such
      lemma passes the adjugate entries c as names; its `Expanded` twin
      states the same polynomial identity with them written out. */
  lemma LaplaceColumn0(a00: real, a01: real, a02: real, a03: real, a10: real, a11: real, a12: real, a13: real, a20: real, a21: real, a22: real, a23: real, a30: real, a31: real, a32: real, a33: real,
      c0: real, c4: real, c8: real, c12: real, d: real)
    requires c0 == a11 * (a22 * a33 - a23 * a32) - a12 * (a21 * a33 - a23 * a31) + a13 * (a21 * a32 - a22 * a31)
    requires c4 == -a10 * (a22 * a33 - a23 * a32) + a12 * (a20 * a33 - a23 * a30) - a13 * (a20 * a32 - a22 * a30)
    requires c8 == a10 * (a21 * a33 - a23 * a31) - a11 * (a20 * a33 - a23 * a30) + a13 * (a20 * a31 - a21 * a30)
    requires c12 == -a10 * (a21 * a32 - a22 * a31) + a11 * (a20 * a32 - a22 * a30) - a12 * (a20 * a31 - a21 * a30)
    requires d == (a00 * a11 - a01 * a10) * (a22 * a33 - a23 * a32) - (a00 * a12 - a02 * a10) * (a21 * a33 - a23 * a31) + (a00 * a13 - a03 * a10) * (a21 * a32 - a22 * a31) + (a01 * a12 - a02 * a11) * (a20 * a33 - a23 * a30) - (a01 * a13 - a03 * a11) * (a20 * a32 - a22 * a30) + (a02 * a13 - a03 * a12) * (a20 * a31 - a21 * a30)
    ensures Mat4.Dot4(c0, c4, c8, c12, a00, a01, a02, a03) == d
    ensures Mat4.Dot4(c0, c4, c8, c12, a10, a11, a12, a13) == 0.0
    ensures Mat4.Dot4(c0, c4, c8, c12, a20, a21, a22, a23) == 0.0
  {
    ExpandedLaplaceColumn0(a00, a01, a02, a03, a10, a11, a12, a13, a20, a21, a22, a23, a30, a31, a32, a33, d);
  }

  lemma ExpandedLaplaceColumn0(a00: real, a01: real, a02: real, a03: real, a10: real, a11: real, a12: real, a13: real, a20: real, a21: real, a22: real, a23: real, a30: real, a31: real, a32: real, a33: real,
      d: real)
    requires d == (a00 * a11 - a01 * a10) * (a22 * a33 - a23 * a32) - (a00 * a12 - a02 * a10) * (a21 * a33 - a23 * a31) + (a00 * a13 - a03 * a10) * (a21 * a32 - a22 * a31) + (a01 * a12 - a02 * a11) * (a20 * a33 - a23 * a30) - (a01 * a13 - a03 * a11) * (a20 * a32 - a22 * a30) + (a02 * a13 - a03 * a12) * (a20 * a31 - a21 * a30)
    ensures Mat4.Dot4(a11 * (a22 * a33 - a23 * a32) - a12 * (a21 * a33 - a23 * a31) + a13 * (a21 * a32 - a22 * a31), -a10 * (a22 * a33 - a23 * a32) + a12 * (a20 * a33 - a23 * a30) - a13 * (a20 * a32 - a22 * a30), a10 * (a21 * a33 - a23 * a31) - a11 * (a20 * a33 - a23 * a30) + a13 * (a20 * a31 - a21 * a30), -a10 * (a21 * a32 - a22 * a31) + a11 * (a20 * a32 - a22 * a30) - a12 * (a20 * a31 - a21 * a30), a00, a01, a02, a03) == d
    ensures Mat4.Dot4(a11 * (a22 * a33 - a23 * a32) - a12 * (a21 * a33 - a23 * a31) + a13 * (a21 * a32 - a22 * a31), -a10 * (a22 * a33 - a23 * a32) + a12 * (a20 * a33 - a23 * a30) - a13 * (a20 * a32 - a22 * a30), a10 * (a21 * a33 - a23 * a31) - a11 * (a20 * a33 - a23 * a30) + a13 * (a20 * a31 - a21 * a30), -a10 * (a21 * a32 - a22 * a31) + a11 * (a20 * a32 - a22 * a30) - a12 * (a20 * a31 - a21 * a30), a10, a11, a12, a13) == 0.0
    ensures Mat4.Dot4(a11 * (a22 * a33 - a23 * a32) - a12 * (a21 * a33 - a23 * a31) + a13 * (a21 * a32 - a22 * a31), -a10 * (a22 * a33 - a23 * a32) + a12 * (a20 * a33 - a23 * a30) - a13 * (a20 * a32 - a22 * a30), a10 * (a21 * a33 - a23 * a31) - a11 * (a20 * a33 - a23 * a30) + a13 * (a20 * a31 - a21 * a30), -a10 * (a21 * a32 - a22 * a31) + a11 * (a20 * a32 - a22 * a30) - a12 * (a20 * a31 - a21 * a30), a20, a21, a22, a23) == 0.0
  {
  }

  lemma LaplaceColumn0Row3(a00: real, a01: real, a02: real, a03: real, a10: real, a11: real, a12: real, a13: real, a20: real, a21: real, a22: real, a23: real, a30: real, a31: real, a32: real, a33: real,
      c0: real, c4: real, c8: real, c12: real, d: real)
    requires c0 == a11 * (a22 * a33 - a23 * a32) - a12 * (a21 * a33 - a23 * a31) + a13 * (a21 * a32 - a22 * a31)
    requires c4 == -a10 * (a22 * a33 - a23 * a32) + a12 * (a20 * a33 - a23 * a30) - a13 * (a20 * a32 - a22 * a30)
    requires c8 == a10 * (a21 * a33 - a23 * a31) - a11 * (a20 * a33 - a23 * a30) + a13 * (a20 * a31 - a21 * a30)
    requires c12 == -a10 * (a21 * a32 - a22 * a31) + a11 * (a20 * a32 - a22 * a30) - a12 * (a20 * a31 - a21 * a30)
    requires d == (a00 * a11 - a01 * a10) * (a22 * a33 - a23 * a32) - (a00 * a12 - a02 * a10) * (a21 * a33 - a23 * a31) + (a00 * a13 - a03 * a10) * (a21 * a32 - a22 * a31) + (a01 * a12 - a02 * a11) * (a20 * a33 - a23 * a30) - (a01 * a13 - a03 * a11) * (a20 * a32 - a22 * a30) + (a02 * a13 - a03 * a12) * (a20 * a31 - a21 * a30)
    ensures Mat4.Dot4(c0, c4, c8, c12, a30, a31, a32, a33) == 0.0
  {
    ExpandedLaplaceColumn0Row3(a00, a01, a02, a03, a10, a11, a12, a13, a20, a21, a22, a23, a30, a31, a32, a33, d);
  }

  lemma ExpandedLaplaceColumn0Row3(a00: real, a01: real, a02: real, a03: real, a10: real, a11: real, a12: real, a13: real, a20: real, a21: real, a22: real, a23: real, a30: real, a31: real, a32: real, a33: real,
      d: real)
    requires d == (a00 * a11 - a01 * a10) * (a22 * a33 - a23 * a32) - (a00 * a12 - a02 * a10) * (a21 * a33 - a23 * a31) + (a00 * a13 - a03 * a10) * (a21 * a32 - a22 * a31) + (a01 * a12 - a02 * a11) * (a20 * a33 - a23 * a30) - (a01 * a13 - a03 * a11) * (a20 * a32 - a22 * a30) + (a02 * a13 - a03 * a12) * (a20 * a31 - a21 * a30)
    ensures Mat4.Dot4(a11 * (a22 * a33 - a23 * a32) - a12 * (a21 * a33 - a23 * a31) + a13 * (a21 * a32 - a22 * a31), -a10 * (a22 * a33 - a23 * a32) + a12 * (a20 * a33 - a23 * a30) - a13 * (a20 * a32 - a22 * a30), a10 * (a21 * a33 - a23 * a31) - a11 * (a20 * a33 - a23 * a30) + a13 * (a20 * a31 - a21 * a30), -a10 * (a21 * a32 - a22 * a31) + a11 * (a20 * a32 - a22 * a30) - a12 * (a20 * a31 - a21 * a30), a30, a31, a32, a33) == 0.0
  {
  }

  lemma LaplaceColumn1(a00: real, a01: real, a02: real, a03: real, a10: real, a11: real, a12: real, a13: real, a20: real, a21: real, a22: real, a23: real, a30: real, a31: real, a32: real, a33: real,
      c1: real, c5: real, c9: real, c13: real, d: real)
    requires c1 == -a01 * (a22 * a33 - a23 * a32) + a02 * (a21 * a33 - a23 * a31) - a03 * (a21 * a32 - a22 * a31)
    requires c5 == a00 * (a22 * a33 - a23 * a32) - a02 * (a20 * a33 - a23 * a30) + a03 * (a20 * a32 - a22 * a30)
    requires c9 == -a00 * (a21 * a33 - a23 * a31) + a01 * (a20 * a33 - a23 * a30) - a03 * (a20 * a31 - a21 * a30)
    requires c13 == a00 * (a21 * a32 - a22 * a31) - a01 * (a20 * a32 - a22 * a30) + a02 * (a20 * a31 - a21 * a30)
    requires d == (a00 * a11 - a01 * a10) * (a22 * a33 - a23 * a32) - (a00 * a12 - a02 * a10) * (a21 * a33 - a23 * a31) + (a00 * a13 - a03 * a10) * (a21 * a32 - a22 * a31) + (a01 * a12 - a02 * a11) * (a20 * a33 - a23 * a30) - (a01 * a13 - a03 * a11) * (a20 * a32 - a22 * a30) + (a02 * a13 - a03 * a12) * (a20 * a31 - a21 * a30)
    ensures Mat4.Dot4(c1, c5, c9, c13, a00, a01, a02, a03) == 0.0
    ensures Mat4.Dot4(c1, c5, c9, c13, a10, a11, a12, a13) == d
    ensures Mat4.Dot4(c1, c5, c9, c13, a20, a21, a22, a23) == 0.0
    ensures Mat4.Dot4(c1, c5, c9, c13, a30, a31, a32, a33) == 0.0
  {
    ExpandedLaplaceColumn1(a00, a01, a02, a03, a10, a11, a12, a13, a20, a21, a22, a23, a30, a31, a32, a33, d);
  }

  lemma ExpandedLaplaceColumn1(a00: real, a01: real, a02: real, a03: real, a10: real, a11: real, a12: real, a13: real, a20: real, a21: real, a22: real, a23: real, a30: real, a31: real, a32: real, a33: real,
      d: real)
    requires d == (a00 * a11 - a01 * a10) * (a22 * a33 - a23 * a32) - (a00 * a12 - a02 * a10) * (a21 * a33 - a23 * a31) + (a00 * a13 - a03 * a10) * (a21 * a32 - a22 * a31) + (a01 * a12 - a02 * a11) * (a20 * a33 - a23 * a30) - (a01 * a13 - a03 * a11) * (a20 * a32 - a22 * a30) + (a02 * a13 - a03 * a12) * (a20 * a31 - a21 * a30)
    ensures Mat4.Dot4(-a01 * (a22 * a33 - a23 * a32) + a02 * (a21 * a33 - a23 * a31) - a03 * (a21 * a32 - a22 * a31), a00 * (a22 * a33 - a23 * a32) - a02 * (a20 * a33 - a23 * a30) + a03 * (a20 * a32 - a22 * a30), -a00 * (a21 * a33 - a23 * a31) + a01 * (a20 * a33 - a23 * a30) - a03 * (a20 * a31 - a21 * a30), a00 * (a21 * a32 - a22 * a31) - a01 * (a20 * a32 - a22 * a30) + a02 * (a20 * a31 - a21 * a30), a00, a01, a02, a03) == 0.0
    ensures Mat4.Dot4(-a01 * (a22 * a33 - a23 * a32) + a02 * (a21 * a33 - a23 * a31) - a03 * (a21 * a32 - a22 * a31), a00 * (a22 * a33 - a23 * a32) - a02 * (a20 * a33 - a23 * a30) + a03 * (a20 * a32 - a22 * a30), -a00 * (a21 * a33 - a23 * a31) + a01 * (a20 * a33 - a23 * a30) - a03 * (a20 * a31 - a21 * a30), a00 * (a21 * a32 - a22 * a31) - a01 * (a20 * a32 - a22 * a30) + a02 * (a20 * a31 - a21 * a30), a10, a11, a12, a13) == d
    ensures Mat4.Dot4(-a01 * (a22 * a33 - a23 * a32) + a02 * (a21 * a33 - a23 * a31) - a03 * (a21 * a32 - a22 * a31), a00 * (a22 * a33 - a23 * a32) - a02 * (a20 * a33 - a23 * a30) + a03 * (a20 * a32 - a22 * a30), -a00 * (a21 * a33 - a23 * a31) + a01 * (a20 * a33 - a23 * a30) - a03 * (a20 * a31 - a21 * a30), a00 * (a21 * a32 - a22 * a31) - a01 * (a20 * a32 - a22 * a30) + a02 * (a20 * a31 - a21 * a30), a20, a21, a22, a23) == 0.0
    ensures Mat4.Dot4(-a01 * (a22 * a33 - a23 * a32) + a02 * (a21 * a33 - a23 * a31) - a03 * (a21 * a32 - a22 * a31), a00 * (a22 * a33 - a23 * a32) - a02 * (a20 * a33 - a23 * a30) + a03 * (a20 * a32 - a22 * a30), -a00 * (a21 * a33 - a23 * a31) + a01 * (a20 * a33 - a23 * a30) - a03 * (a20 * a31 - a21 * a30), a00 * (a21 * a32 - a22 * a31) - a01 * (a20 * a32 - a22 * a30) + a02 * (a20 * a31 - a21 * a30), a30, a31, a32, a33) == 0.0
  {
  }

  lemma LaplaceColumn2(a00: real, a01: real, a02: real, a03: real, a10: real, a11: real, a12: real, a13: real, a20: real, a21: real, a22: real, a23: real, a30: real, a31: real, a32: real, a33: real,
      c2: real, c6: real, c10: real, c14: real, d: real)
    requires c2 == a31 * (a02 * a13 - a03 * a12) - a32 * (a01 * a13 - a03 * a11) + a33 * (a01 * a12 - a02 * a11)
    requires c6 == -a30 * (a02 * a13 - a03 * a12) + a32 * (a00 * a13 - a03 * a10) - a33 * (a00 * a12 - a02 * a10)
    requires c10 == a30 * (a01 * a13 - a03 * a11) - a31 * (a00 * a13 - a03 * a10) + a33 * (a00 * a11 - a01 * a10)
    requires c14 == -a30 * (a01 * a12 - a02 * a11) + a31 * (a00 * a12 - a02 * a10) - a32 * (a00 * a11 - a01 * a10)
    requires d == (a00 * a11 - a01 * a10) * (a22 * a33 - a23 * a32) - (a00 * a12 - a02 * a10) * (a21 * a33 - a23 * a31) + (a00 * a13 - a03 * a10) * (a21 * a32 - a22 * a31) + (a01 * a12 - a02 * a11) * (a20 * a33 - a23 * a30) - (a01 * a13 - a03 * a11) * (a20 * a32 - a22 * a30) + (a02 * a13 - a03 * a12) * (a20 * a31 - a21 * a30)
    ensures Mat4.Dot4(c2, c6, c10, c14, a00, a01, a02, a03) == 0.0
    ensures Mat4.Dot4(c2, c6, c10, c14, a10, a11, a12, a13) == 0.0
    ensures Mat4.Dot4(c2, c6, c10, c14, a20, a21, a22, a23) == d
    ensures Mat4.Dot4(c2, c6, c10, c14, a30, a31, a32, a33) == 0.0
  {
    ExpandedLaplaceColumn2(a00, a01, a02, a03, a10, a11, a12, a13, a20, a21, a22, a23, a30, a31, a32, a33, d);
  }

  lemma ExpandedLaplaceColumn2(a00: real, a01: real, a02: real, a03: real, a10: real, a11: real, a12: real, a13: real, a20: real, a21: real, a22: real, a23: real, a30: real, a31: real, a32: real, a33: real,
      d: real)
    requires d == (a00 * a11 - a01 * a10) * (a22 * a33 - a23 * a32) - (a00 * a12 - a02 * a10) * (a21 * a33 - a23 * a31) + (a00 * a13 - a03 * a10) * (a21 * a32 - a22 * a31) + (a01 * a12 - a02 * a11) * (a20 * a33 - a23 * a30) - (a01 * a13 - a03 * a11) * (a20 * a32 - a22 * a30) + (a02 * a13 - a03 * a12) * (a20 * a31 - a21 * a30)
    ensures Mat4.Dot4(a31 * (a02 * a13 - a03 * a12) - a32 * (a01 * a13 - a03 * a11) + a33 * (a01 * a12 - a02 * a11), -a30 * (a02 * a13 - a03 * a12) + a32 * (a00 * a13 - a03 * a10) - a33 * (a00 * a12 - a02 * a10), a30 * (a01 * a13 - a03 * a11) - a31 * (a00 * a13 - a03 * a10) + a33 * (a00 * a11 - a01 * a10), -a30 * (a01 * a12 - a02 * a11) + a31 * (a00 * a12 - a02 * a10) - a32 * (a00 * a11 - a01 * a10), a00, a01, a02, a03) == 0.0
    ensures Mat4.Dot4(a31 * (a02 * a13 - a03 * a12) - a32 * (a01 * a13 - a03 * a11) + a33 * (a01 * a12 - a02 * a11), -a30 * (a02 * a13 - a03 * a12) + a32 * (a00 * a13 - a03 * a10) - a33 * (a00 * a12 - a02 * a10), a30 * (a01 * a13 - a03 * a11) - a31 * (a00 * a13 - a03 * a10) + a33 * (a00 * a11 - a01 * a10), -a30 * (a01 * a12 - a02 * a11) + a31 * (a00 * a12 - a02 * a10) - a32 * (a00 * a11 - a01 * a10), a10, a11, a12, a13) == 0.0
    ensures Mat4.Dot4(a31 * (a02 * a13 - a03 * a12) - a32 * (a01 * a13 - a03 * a11) + a33 * (a01 * a12 - a02 * a11), -a30 * (a02 * a13 - a03 * a12) + a32 * (a00 * a13 - a03 * a10) - a33 * (a00 * a12 - a02 * a10), a30 * (a01 * a13 - a03 * a11) - a31 * (a00 * a13 - a03 * a10) + a33 * (a00 * a11 - a01 * a10), -a30 * (a01 * a12 - a02 * a11) + a31 * (a00 * a12 - a02 * a10) - a32 * (a00 * a11 - a01 * a10), a20, a21, a22, a23) == d
    ensures Mat4.Dot4(a31 * (a02 * a13 - a03 * a12) - a32 * (a01 * a13 - a03 * a11) + a33 * (a01 * a12 - a02 * a11), -a30 * (a02 * a13 - a03 * a12) + a32 * (a00 * a13 - a03 * a10) - a33 * (a00 * a12 - a02 * a10), a30 * (a01 * a13 - a03 * a11) - a31 * (a00 * a13 - a03 * a10) + a33 * (a00 * a11 - a01 * a10), -a30 * (a01 * a12 - a02 * a11) + a31 * (a00 * a12 - a02 * a10) - a32 * (a00 * a11 - a01 * a10), a30, a31, a32, a33) == 0.0
  {
  }

  lemma LaplaceColumn3(a00: real, a01: real, a02: real, a03: real, a10: real, a11: real, a12: real, a13: real, a20: real, a21: real, a22: real, a23: real, a30: real, a31: real, a32: real, a33: real,
      c3: real, c7: real, c11: real, c15: real, d: real)
    requires c3 == -a21 * (a02 * a13 - a03 * a12) + a22 * (a01 * a13 - a03 * a11) - a23 * (a01 * a12 - a02 * a11)
    requires c7 == a20 * (a02 * a13 - a03 * a12) - a22 * (a00 * a13 - a03 * a10) + a23 * (a00 * a12 - a02 * a10)
    requires c11 == -a20 * (a01 * a13 - a03 * a11) + a21 * (a00 * a13 - a03 * a10) - a23 * (a00 * a11 - a01 * a10)
    requires c15 == a20 * (a01 * a12 - a02 * a11) - a21 * (a00 * a12 - a02 * a10) + a22 * (a00 * a11 - a01 * a10)
    requires d == (a00 * a11 - a01 * a10) * (a22 * a33 - a23 * a32) - (a00 * a12 - a02 * a10) * (a21 * a33 - a23 * a31) + (a00 * a13 - a03 * a10) * (a21 * a32 - a22 * a31) + (a01 * a12 - a02 * a11) * (a20 * a33 - a23 * a30) - (a01 * a13 - a03 * a11) * (a20 * a32 - a22 * a30) + (a02 * a13 - a03 * a12) * (a20 * a31 - a21 * a30)
    ensures Mat4.Dot4(c3, c7, c11, c15, a00, a01, a02, a03) == 0.0
    ensures Mat4.Dot4(c3, c7, c11, c15, a10, a11, a12, a13) == 0.0
    ensures Mat4.Dot4(c3, c7, c11, c15, a20, a21, a22, a23) == 0.0
    ensures Mat4.Dot4(c3, c7, c11, c15, a30, a31, a32, a33) == d
  {
    ExpandedLaplaceColumn3(a00, a01, a02, a03, a10, a11, a12, a13, a20, a21, a22, a23, a30, a31, a32, a33, d);
  }

  lemma ExpandedLaplaceColumn3(a00: real, a01: real, a02: real, a03: real, a10: real, a11: real, a12: real, a13: real, a20: real, a21: real, a22: real, a23: real, a30: real, a31: real, a32: real, a33: real,
      d: real)
    requires d == (a00 * a11 - a01 * a10) * (a22 * a33 - a23 * a32) - (a00 * a12 - a02 * a10) * (a21 * a33 - a23 * a31) + (a00 * a13 - a03 * a10) * (a21 * a32 - a22 * a31) + (a01 * a12 - a02 * a11) * (a20 * a33 - a23 * a30) - (a01 * a13 - a03 * a11) * (a20 * a32 - a22 * a30) + (a02 * a13 - a03 * a12) * (a20 * a31 - a21 * a30)
    ensures Mat4.Dot4(-a21 * (a02 * a13 - a03 * a12) + a22 * (a01 * a13 - a03 * a11) - a23 * (a01 * a12 - a02 * a11), a20 * (a02 * a13 - a03 * a12) - a22 * (a00 * a13 - a03 * a10) + a23 * (a00 * a12 - a02 * a10), -a20 * (a01 * a13 - a03 * a11) + a21 * (a00 * a13 - a03 * a10) - a23 * (a00 * a11 - a01 * a10), a20 * (a01 * a12 - a02 * a11) - a21 * (a00 * a12 - a02 * a10) + a22 * (a00 * a11 - a01 * a10), a00, a01, a02, a03) == 0.0
    ensures Mat4.Dot4(-a21 * (a02 * a13 - a03 * a12) + a22 * (a01 * a13 - a03 * a11) - a23 * (a01 * a12 - a02 * a11), a20 * (a02 * a13 - a03 * a12) - a22 * (a00 * a13 - a03 * a10) + a23 * (a00 * a12 - a02 * a10), -a20 * (a01 * a13 - a03 * a11) + a21 * (a00 * a13 - a03 * a10) - a23 * (a00 * a11 - a01 * a10), a20 * (a01 * a12 - a02 * a11) - a21 * (a00 * a12 - a02 * a10) + a22 * (a00 * a11 - a01 * a10), a10, a11, a12, a13) == 0.0
    ensures Mat4.Dot4(-a21 * (a02 * a13 - a03 * a12) + a22 * (a01 * a13 - a03 * a11) - a23 * (a01 * a12 - a02 * a11), a20 * (a02 * a13 - a03 * a12) - a22 * (a00 * a13 - a03 * a10) + a23 * (a00 * a12 - a02 * a10), -a20 * (a01 * a13 - a03 * a11) + a21 * (a00 * a13 - a03 * a10) - a23 * (a00 * a11 - a01 * a10), a20 * (a01 * a12 - a02 * a11) - a21 * (a00 * a12 - a02 * a10) + a22 * (a00 * a11 - a01 * a10), a20, a21, a22, a23) == 0.0
    ensures Mat4.Dot4(-a21 * (a02 * a13 - a03 * a12) + a22 * (a01 * a13 - a03 * a11) - a23 * (a01 * a12 - a02 * a11), a20 * (a02 * a13 - a03 * a12) - a22 * (a00 * a13 - a03 * a10) + a23 * (a00 * a12 - a02 * a10), -a20 * (a01 * a13 - a03 * a11) + a21 * (a00 * a13 - a03 * a10) - a23 * (a00 * a11 - a01 * a10), a20 * (a01 * a12 - a02 * a11) - a21 * (a00 * a12 - a02 * a10) + a22 * (a00 * a11 - a01 * a10), a30, a31, a32, a33) == d
  {
  }

  /** The rows of the matrix against column i of the adjugate, for i = 0
      here and i = 1, 2, 3 below. */
  lemma LaplaceRow0(a00: real, a01: real, a02: real, a03: real, a10: real, a11: real, a12: real, a13: real, a20: real, a21: real, a22: real, a23: real, a30: real, a31: real, a32: real, a33: real,
      c0: real, c1: real, c2: real, c3: real, d: real)
    requires c0 == a11 * (a22 * a33 - a23 * a32) - a12 * (a21 * a33 - a23 * a31) + a13 * (a21 * a32 - a22 * a31)
    requires c1 == -a01 * (a22 * a33 - a23 * a32) + a02 * (a21 * a33 - a23 * a31) - a03 * (a21 * a32 - a22 * a31)
    requires c2 == a31 * (a02 * a13 - a03 * a12) - a32 * (a01 * a13 - a03 * a11) + a33 * (a01 * a12 - a02 * a11)
    requires c3 == -a21 * (a02 * a13 - a03 * a12) + a22 * (a01 * a13 - a03 * a11) - a23 * (a01 * a12 - a02 * a11)
    requires d == (a00 * a11 - a01 * a10) * (a22 * a33 - a23 * a32) - (a00 * a12 - a02 * a10) * (a21 * a33 - a23 * a31) + (a00 * a13 - a03 * a10) * (a21 * a32 - a22 * a31) + (a01 * a12 - a02 * a11) * (a20 * a33 - a23 * a30) - (a01 * a13 - a03 * a11) * (a20 * a32 - a22 * a30) + (a02 * a13 - a03 * a12) * (a20 * a31 - a21 * a30)
    ensures Mat4.Dot4(a00, a10, a20, a30, c0, c1, c2, c3) == d
    ensures Mat4.Dot4(a01, a11, a21, a31, c0, c1, c2, c3) == 0.0
    ensures Mat4.Dot4(a02, a12, a22, a32, c0, c1, c2, c3) == 0.0
  {
    ExpandedLaplaceRow0(a00, a01, a02, a03, a10, a11, a12, a13, a20, a21, a22, a23, a30, a31, a32, a33, d);
  }

  lemma ExpandedLaplaceRow0(a00: real, a01: real, a02: real, a03: real, a10: real, a11: real, a12: real, a13: real, a20: real, a21: real, a22: real, a23: real, a30: real, a31: real, a32: real, a33: real,
      d: real)
    requires d == (a00 * a11 - a01 * a10) * (a22 * a33 - a23 * a32) - (a00 * a12 - a02 * a10) * (a21 * a33 - a23 * a31) + (a00 * a13 - a03 * a10) * (a21 * a32 - a22 * a31) + (a01 * a12 - a02 * a11) * (a20 * a33 - a23 * a30) - (a01 * a13 - a03 * a11) * (a20 * a32 - a22 * a30) + (a02 * a13 - a03 * a12) * (a20 * a31 - a21 * a30)
    ensures Mat4.Dot4(a00, a10, a20, a30, a11 * (a22 * a33 - a23 * a32) - a12 * (a21 * a33 - a23 * a31) + a13 * (a21 * a32 - a22 * a31), -a01 * (a22 * a33 - a23 * a32) + a02 * (a21 * a33 - a23 * a31) - a03 * (a21 * a32 - a22 * a31), a31 * (a02 * a13 - a03 * a12) - a32 * (a01 * a13 - a03 * a11) + a33 * (a01 * a12 - a02 * a11), -a21 * (a02 * a13 - a03 * a12) + a22 * (a01 * a13 - a03 * a11) - a23 * (a01 * a12 - a02 * a11)) == d
    ensures Mat4.Dot4(a01, a11, a21, a31, a11 * (a22 * a33 - a23 * a32) - a12 * (a21 * a33 - a23 * a31) + a13 * (a21 * a32 - a22 * a31), -a01 * (a22 * a33 - a23 * a32) + a02 * (a21 * a33 - a23 * a31) - a03 * (a21 * a32 - a22 * a31), a31 * (a02 * a13 - a03 * a12) - a32 * (a01 * a13 - a03 * a11) + a33 * (a01 * a12 - a02 * a11), -a21 * (a02 * a13 - a03 * a12) + a22 * (a01 * a13 - a03 * a11) - a23 * (a01 * a12 - a02 * a11)) == 0.0
    ensures Mat4.Dot4(a02, a12, a22, a32, a11 * (a22 * a33 - a23 * a32) - a12 * (a21 * a33 - a23 * a31) + a13 * (a21 * a32 - a22 * a31), -a01 * (a22 * a33 - a23 * a32) + a02 * (a21 * a33 - a23 * a31) - a03 * (a21 * a32 - a22 * a31), a31 * (a02 * a13 - a03 * a12) - a32 * (a01 * a13 - a03 * a11) + a33 * (a01 * a12 - a02 * a11), -a21 * (a02 * a13 - a03 * a12) + a22 * (a01 * a13 - a03 * a11) - a23 * (a01 * a12 - a02 * a11)) == 0.0
  {
  }

  lemma LaplaceRow0Column3(a00: real, a01: real, a02: real, a03: real, a10: real, a11: real, a12: real, a13: real, a20: real, a21: real, a22: real, a23: real, a30: real, a31: real, a32: real, a33: real,
      c0: real, c1: real, c2: real, c3: real, d: real)
    requires c0 == a11 * (a22 * a33 - a23 * a32) - a12 * (a21 * a33 - a23 * a31) + a13 * (a21 * a32 - a22 * a31)
    requires c1 == -a01 * (a22 * a33 - a23 * a32) + a02 * (a21 * a33 - a23 * a31) - a03 * (a21 * a32 - a22 * a31)
    requires c2 == a31 * (a02 * a13 - a03 * a12) - a32 * (a01 * a13 - a03 * a11) + a33 * (a01 * a12 - a02 * a11)
    requires c3 == -a21 * (a02 * a13 - a03 * a12) + a22 * (a01 * a13 - a03 * a11) - a23 * (a01 * a12 - a02 * a11)
    requires d == (a00 * a11 - a01 * a10) * (a22 * a33 - a23 * a32) - (a00 * a12 - a02 * a10) * (a21 * a33 - a23 * a31) + (a00 * a13 - a03 * a10) * (a21 * a32 - a22 * a31) + (a01 * a12 - a02 * a11) * (a20 * a33 - a23 * a30) - (a01 * a13 - a03 * a11) * (a20 * a32 - a22 * a30) + (a02 * a13 - a03 * a12) * (a20 * a31 - a21 * a30)
    ensures Mat4.Dot4(a03, a13, a23, a33, c0, c1, c2, c3) == 0.0
  {
    ExpandedLaplaceRow0Column3(a00, a01, a02, a03, a10, a11, a12, a13, a20, a21, a22, a23, a30, a31, a32, a33, d);
  }

  lemma ExpandedLaplaceRow0Column3(a00: real, a01: real, a02: real, a03: real, a10: real, a11: real, a12: real, a13: real, a20: real, a21: real, a22: real, a23: real, a30: real, a31: real, a32: real, a33: real,
      d: real)
    requires d == (a00 * a11 - a01 * a10) * (a22 * a33 - a23 * a32) - (a00 * a12 - a02 * a10) * (a21 * a33 - a23 * a31) + (a00 * a13 - a03 * a10) * (a21 * a32 - a22 * a31) + (a01 * a12 - a02 * a11) * (a20 * a33 - a23 * a30) - (a01 * a13 - a03 * a11) * (a20 * a32 - a22 * a30) + (a02 * a13 - a03 * a12) * (a20 * a31 - a21 * a30)
    ensures Mat4.Dot4(a03, a13, a23, a33, a11 * (a22 * a33 - a23 * a32) - a12 * (a21 * a33 - a23 * a31) + a13 * (a21 * a32 - a22 * a31), -a01 * (a22 * a33 - a23 * a32) + a02 * (a21 * a33 - a23 * a31) - a03 * (a21 * a32 - a22 * a31), a31 * (a02 * a13 - a03 * a12) - a32 * (a01 * a13 - a03 * a11) + a33 * (a01 * a12 - a02 * a11), -a21 * (a02 * a13 - a03 * a12) + a22 * (a01 * a13 - a03 * a11) - a23 * (a01 * a12 - a02 * a11)) == 0.0
  {
  }

  lemma LaplaceRow1(a00: real, a01: real, a02: real, a03: real, a10: real, a11: real, a12: real, a13: real, a20: real, a21: real, a22: real, a23: real, a30: real, a31: real, a32: real, a33: real,
      c4: real, c5: real, c6: real, c7: real, d: real)
    requires c4 == -a10 * (a22 * a33 - a23 * a32) + a12 * (a20 * a33 - a23 * a30) - a13 * (a20 * a32 - a22 * a30)
    requires c5 == a00 * (a22 * a33 - a23 * a32) - a02 * (a20 * a33 - a23 * a30) + a03 * (a20 * a32 - a22 * a30)
    requires c6 == -a30 * (a02 * a13 - a03 * a12) + a32 * (a00 * a13 - a03 * a10) - a33 * (a00 * a12 - a02 * a10)
    requires c7 == a20 * (a02 * a13 - a03 * a12) - a22 * (a00 * a13 - a03 * a10) + a23 * (a00 * a12 - a02 * a10)
    requires d == (a00 * a11 - a01 * a10) * (a22 * a33 - a23 * a32) - (a00 * a12 - a02 * a10) * (a21 * a33 - a23 * a31) + (a00 * a13 - a03 * a10) * (a21 * a32 - a22 * a31) + (a01 * a12 - a02 * a11) * (a20 * a33 - a23 * a30) - (a01 * a13 - a03 * a11) * (a20 * a32 - a22 * a30) + (a02 * a13 - a03 * a12) * (a20 * a31 - a21 * a30)
    ensures Mat4.Dot4(a00, a10, a20, a30, c4, c5, c6, c7) == 0.0
    ensures Mat4.Dot4(a01, a11, a21, a31, c4, c5, c6, c7) == d
    ensures Mat4.Dot4(a02, a12, a22, a32, c4, c5, c6, c7) == 0.0
    ensures Mat4.Dot4(a03, a13, a23, a33, c4, c5, c6, c7) == 0.0
  {
    ExpandedLaplaceRow1(a00, a01, a02, a03, a10, a11, a12, a13, a20, a21, a22, a23, a30, a31, a32, a33, d);
  }

  lemma ExpandedLaplaceRow1(a00: real, a01: real, a02: real, a03: real, a10: real, a11: real, a12: real, a13: real, a20: real, a21: real, a22: real, a23: real, a30: real, a31: real, a32: real, a33: real,
      d: real)
    requires d == (a00 * a11 - a01 * a10) * (a22 * a33 - a23 * a32) - (a00 * a12 - a02 * a10) * (a21 * a33 - a23 * a31) + (a00 * a13 - a03 * a10) * (a21 * a32 - a22 * a31) + (a01 * a12 - a02 * a11) * (a20 * a33 - a23 * a30) - (a01 * a13 - a03 * a11) * (a20 * a32 - a22 * a30) + (a02 * a13 - a03 * a12) * (a20 * a31 - a21 * a30)
    ensures Mat4.Dot4(a00, a10, a20, a30, -a10 * (a22 * a33 - a23 * a32) + a12 * (a20 * a33 - a23 * a30) - a13 * (a20 * a32 - a22 * a30), a00 * (a22 * a33 - a23 * a32) - a02 * (a20 * a33 - a23 * a30) + a03 * (a20 * a32 - a22 * a30), -a30 * (a02 * a13 - a03 * a12) + a32 * (a00 * a13 - a03 * a10) - a33 * (a00 * a12 - a02 * a10), a20 * (a02 * a13 - a03 * a12) - a22 * (a00 * a13 - a03 * a10) + a23 * (a00 * a12 - a02 * a10)) == 0.0
    ensures Mat4.Dot4(a01, a11, a21, a31, -a10 * (a22 * a33 - a23 * a32) + a12 * (a20 * a33 - a23 * a30) - a13 * (a20 * a32 - a22 * a30), a00 * (a22 * a33 - a23 * a32) - a02 * (a20 * a33 - a23 * a30) + a03 * (a20 * a32 - a22 * a30), -a30 * (a02 * a13 - a03 * a12) + a32 * (a00 * a13 - a03 * a10) - a33 * (a00 * a12 - a02 * a10), a20 * (a02 * a13 - a03 * a12) - a22 * (a00 * a13 - a03 * a10) + a23 * (a00 * a12 - a02 * a10)) == d
    ensures Mat4.Dot4(a02, a12, a22, a32, -a10 * (a22 * a33 - a23 * a32) + a12 * (a20 * a33 - a23 * a30) - a13 * (a20 * a32 - a22 * a30), a00 * (a22 * a33 - a23 * a32) - a02 * (a20 * a33 - a23 * a30) + a03 * (a20 * a32 - a22 * a30), -a30 * (a02 * a13 - a03 * a12) + a32 * (a00 * a13 - a03 * a10) - a33 * (a00 * a12 - a02 * a10), a20 * (a02 * a13 - a03 * a12) - a22 * (a00 * a13 - a03 * a10) + a23 * (a00 * a12 - a02 * a10)) == 0.0
    ensures Mat4.Dot4(a03, a13, a23, a33, -a10 * (a22 * a33 - a23 * a32) + a12 * (a20 * a33 - a23 * a30) - a13 * (a20 * a32 - a22 * a30), a00 * (a22 * a33 - a23 * a32) - a02 * (a20 * a33 - a23 * a30) + a03 * (a20 * a32 - a22 * a30), -a30 * (a02 * a13 - a03 * a12) + a32 * (a00 * a13 - a03 * a10) - a33 * (a00 * a12 - a02 * a10), a20 * (a02 * a13 - a03 * a12) - a22 * (a00 * a13 - a03 * a10) + a23 * (a00 * a12 - a02 * a10)) == 0.0
  {
  }

  lemma LaplaceRow2(a00: real, a01: real, a02: real, a03: real, a10: real, a11: real, a12: real, a13: real, a20: real, a21: real, a22: real, a23: real, a30: real, a31: real, a32: real, a33: real,
      c8: real, c9: real, c10: real, c11: real, d: real)
    requires c8 == a10 * (a21 * a33 - a23 * a31) - a11 * (a20 * a33 - a23 * a30) + a13 * (a20 * a31 - a21 * a30)
    requires c9 == -a00 * (a21 * a33 - a23 * a31) + a01 * (a20 * a33 - a23 * a30) - a03 * (a20 * a31 - a21 * a30)
    requires c10 == a30 * (a01 * a13 - a03 * a11) - a31 * (a00 * a13 - a03 * a10) + a33 * (a00 * a11 - a01 * a10)
    requires c11 == -a20 * (a01 * a13 - a03 * a11) + a21 * (a00 * a13 - a03 * a10) - a23 * (a00 * a11 - a01 * a10)
    requires d == (a00 * a11 - a01 * a10) * (a22 * a33 - a23 * a32) - (a00 * a12 - a02 * a10) * (a21 * a33 - a23 * a31) + (a00 * a13 - a03 * a10) * (a21 * a32 - a22 * a31) + (a01 * a12 - a02 * a11) * (a20 * a33 - a23 * a30) - (a01 * a13 - a03 * a11) * (a20 * a32 - a22 * a30) + (a02 * a13 - a03 * a12) * (a20 * a31 - a21 * a30)
    ensures Mat4.Dot4(a00, a10, a20, a30, c8, c9, c10, c11) == 0.0
    ensures Mat4.Dot4(a01, a11, a21, a31, c8, c9, c10, c11) == 0.0
    ensures Mat4.Dot4(a02, a12, a22, a32, c8, c9, c10, c11) == d
    ensures Mat4.Dot4(a03, a13, a23, a33, c8, c9, c10, c11) == 0.0
  {
    ExpandedLaplaceRow2(a00, a01, a02, a03, a10, a11, a12, a13, a20, a21, a22, a23, a30, a31, a32, a33, d);
  }

  lemma ExpandedLaplaceRow2(a00: real, a01: real, a02: real, a03: real, a10: real, a11: real, a12: real, a13: real, a20: real, a21: real, a22: real, a23: real, a30: real, a31: real, a32: real, a33: real,
      d: real)
    requires d == (a00 * a11 - a01 * a10) * (a22 * a33 - a23 * a32) - (a00 * a12 - a02 * a10) * (a21 * a33 - a23 * a31) + (a00 * a13 - a03 * a10) * (a21 * a32 - a22 * a31) + (a01 * a12 - a02 * a11) * (a20 * a33 - a23 * a30) - (a01 * a13 - a03 * a11) * (a20 * a32 - a22 * a30) + (a02 * a13 - a03 * a12) * (a20 * a31 - a21 * a30)
    ensures Mat4.Dot4(a00, a10, a20, a30, a10 * (a21 * a33 - a23 * a31) - a11 * (a20 * a33 - a23 * a30) + a13 * (a20 * a31 - a21 * a30), -a00 * (a21 * a33 - a23 * a31) + a01 * (a20 * a33 - a23 * a30) - a03 * (a20 * a31 - a21 * a30), a30 * (a01 * a13 - a03 * a11) - a31 * (a00 * a13 - a03 * a10) + a33 * (a00 * a11 - a01 * a10), -a20 * (a01 * a13 - a03 * a11) + a21 * (a00 * a13 - a03 * a10) - a23 * (a00 * a11 - a01 * a10)) == 0.0
    ensures Mat4.Dot4(a01, a11, a21, a31, a10 * (a21 * a33 - a23 * a31) - a11 * (a20 * a33 - a23 * a30) + a13 * (a20 * a31 - a21 * a30), -a00 * (a21 * a33 - a23 * a31) + a01 * (a20 * a33 - a23 * a30) - a03 * (a20 * a31 - a21 * a30), a30 * (a01 * a13 - a03 * a11) - a31 * (a00 * a13 - a03 * a10) + a33 * (a00 * a11 - a01 * a10), -a20 * (a01 * a13 - a03 * a11) + a21 * (a00 * a13 - a03 * a10) - a23 * (a00 * a11 - a01 * a10)) == 0.0
    ensures Mat4.Dot4(a02, a12, a22, a32, a10 * (a21 * a33 - a23 * a31) - a11 * (a20 * a33 - a23 * a30) + a13 * (a20 * a31 - a21 * a30), -a00 * (a21 * a33 - a23 * a31) + a01 * (a20 * a33 - a23 * a30) - a03 * (a20 * a31 - a21 * a30), a30 * (a01 * a13 - a03 * a11) - a31 * (a00 * a13 - a03 * a10) + a33 * (a00 * a11 - a01 * a10), -a20 * (a01 * a13 - a03 * a11) + a21 * (a00 * a13 - a03 * a10) - a23 * (a00 * a11 - a01 * a10)) == d
    ensures Mat4.Dot4(a03, a13, a23, a33, a10 * (a21 * a33 - a23 * a31) - a11 * (a20 * a33 - a23 * a30) + a13 * (a20 * a31 - a21 * a30), -a00 * (a21 * a33 - a23 * a31) + a01 * (a20 * a33 - a23 * a30) - a03 * (a20 * a31 - a21 * a30), a30 * (a01 * a13 - a03 * a11) - a31 * (a00 * a13 - a03 * a10) + a33 * (a00 * a11 - a01 * a10), -a20 * (a01 * a13 - a03 * a11) + a21 * (a00 * a13 - a03 * a10) - a23 * (a00 * a11 - a01 * a10)) == 0.0
  {
  }

  lemma LaplaceRow3(a00: real, a01: real, a02: real, a03: real, a10: real, a11: real, a12: real, a13: real, a20: real, a21: real, a22: real, a23: real, a30: real, a31: real, a32: real, a33: real,
      c12: real, c13: real, c14: real, c15: real, d: real)
    requires c12 == -a10 * (a21 * a32 - a22 * a31) + a11 * (a20 * a32 - a22 * a30) - a12 * (a20 * a31 - a21 * a30)
    requires c13 == a00 * (a21 * a32 - a22 * a31) - a01 * (a20 * a32 - a22 * a30) + a02 * (a20 * a31 - a21 * a30)
    requires c14 == -a30 * (a01 * a12 - a02 * a11) + a31 * (a00 * a12 - a02 * a10) - a32 * (a00 * a11 - a01 * a10)
    requires c15 == a20 * (a01 * a12 - a02 * a11) - a21 * (a00 * a12 - a02 * a10) + a22 * (a00 * a11 - a01 * a10)
    requires d == (a00 * a11 - a01 * a10) * (a22 * a33 - a23 * a32) - (a00 * a12 - a02 * a10) * (a21 * a33 - a23 * a31) + (a00 * a13 - a03 * a10) * (a21 * a32 - a22 * a31) + (a01 * a12 - a02 * a11) * (a20 * a33 - a23 * a30) - (a01 * a13 - a03 * a11) * (a20 * a32 - a22 * a30) + (a02 * a13 - a03 * a12) * (a20 * a31 - a21 * a30)
    ensures Mat4.Dot4(a00, a10, a20, a30, c12, c13, c14, c15) == 0.0
    ensures Mat4.Dot4(a01, a11, a21, a31, c12, c13, c14, c15) == 0.0
    ensures Mat4.Dot4(a02, a12, a22, a32, c12, c13, c14, c15) == 0.0
    ensures Mat4.Dot4(a03, a13, a23, a33, c12, c13, c14, c15) == d
  {
    ExpandedLaplaceRow3(a00, a01, a02, a03, a10, a11, a12, a13, a20, a21, a22, a23, a30, a31, a32, a33, d);
  }

  lemma ExpandedLaplaceRow3(a00: real, a01: real, a02: real, a03: real, a10: real, a11: real, a12: real, a13: real, a20: real, a21: real, a22: real, a23: real, a30: real, a31: real, a32: real, a33: real,
      d: real)
    requires d == (a00 * a11 - a01 * a10) * (a22 * a33 - a23 * a32) - (a00 * a12 - a02 * a10) * (a21 * a33 - a23 * a31) + (a00 * a13 - a03 * a10) * (a21 * a32 - a22 * a31) + (a01 * a12 - a02 * a11) * (a20 * a33 - a23 * a30) - (a01 * a13 - a03 * a11) * (a20 * a32 - a22 * a30) + (a02 * a13 - a03 * a12) * (a20 * a31 - a21 * a30)
    ensures Mat4.Dot4(a00, a10, a20, a30, -a10 * (a21 * a32 - a22 * a31) + a11 * (a20 * a32 - a22 * a30) - a12 * (a20 * a31 - a21 * a30), a00 * (a21 * a32 - a22 * a31) - a01 * (a20 * a32 - a22 * a30) + a02 * (a20 * a31 - a21 * a30), -a30 * (a01 * a12 - a02 * a11) + a31 * (a00 * a12 - a02 * a10) - a32 * (a00 * a11 - a01 * a10), a20 * (a01 * a12 - a02 * a11) - a21 * (a00 * a12 - a02 * a10) + a22 * (a00 * a11 - a01 * a10)) == 0.0
    ensures Mat4.Dot4(a01, a11, a21, a31, -a10 * (a21 * a32 - a22 * a31) + a11 * (a20 * a32 - a22 * a30) - a12 * (a20 * a31 - a21 * a30), a00 * (a21 * a32 - a22 * a31) - a01 * (a20 * a32 - a22 * a30) + a02 * (a20 * a31 - a21 * a30), -a30 * (a01 * a12 - a02 * a11) + a31 * (a00 * a12 - a02 * a10) - a32 * (a00 * a11 - a01 * a10), a20 * (a01 * a12 - a02 * a11) - a21 * (a00 * a12 - a02 * a10) + a22 * (a00 * a11 - a01 * a10)) == 0.0
    ensures Mat4.Dot4(a02, a12, a22, a32, -a10 * (a21 * a32 - a22 * a31) + a11 * (a20 * a32 - a22 * a30) - a12 * (a20 * a31 - a21 * a30), a00 * (a21 * a32 - a22 * a31) - a01 * (a20 * a32 - a22 * a30) + a02 * (a20 * a31 - a21 * a30), -a30 * (a01 * a12 - a02 * a11) + a31 * (a00 * a12 - a02 * a10) - a32 * (a00 * a11 - a01 * a10), a20 * (a01 * a12 - a02 * a11) - a21 * (a00 * a12 - a02 * a10) + a22 * (a00 * a11 - a01 * a10)) == 0.0
    ensures Mat4.Dot4(a03, a13, a23, a33, -a10 * (a21 * a32 - a22 * a31) + a11 * (a20 * a32 - a22 * a30) - a12 * (a20 * a31 - a21 * a30), a00 * (a21 * a32 - a22 * a31) - a01 * (a20 * a32 - a22 * a30) + a02 * (a20 * a31 - a21 * a30), -a30 * (a01 * a12 - a02 * a11) + a31 * (a00 * a12 - a02 * a10) - a32 * (a00 * a11 - a01 * a10), a20 * (a01 * a12 - a02 * a11) - a21 * (a00 * a12 - a02 * a10) + a22 * (a00 * a11 - a01 * a10)) == d
  {
  }
}
