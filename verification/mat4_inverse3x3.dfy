/** `mat4.inverse3x3`: the inverse of the upper-left 3x3 block of a 4x4
    matrix (its rotation and scale part, as needed for a normal matrix),
    returned as a `mat3`. Slots are named as in the source: a_ij is the
    entry in row j and column i of the block. */
module Mat4Inverse3x3 {

  import Mat3
  import Mat4
  import Nullable
  import Reals

  /** The upper-left 3x3 block of a 4x4 matrix (slots 0-2, 4-6 and 8-10),
      in the 3x3 column-major layout. */
  function UpperLeft(m: Mat4.Matrix4): (r: Mat3.Matrix3)
    ensures forall i, j | 0 <= i < 3 && 0 <= j < 3 :: r[3 * j + i] == Mat4.Entry(m, i, j)
  {
    [m[0], m[1], m[2], m[4], m[5], m[6], m[8], m[9], m[10]]
  }

  /** The determinant as `mat4.inverse3x3` computes it: the first column
      of the block against the cofactors b01, b11, b21. */
  function BlockDeterminant(u: Mat3.Matrix3): (r: real)
    ensures r == Mat3.Determinant(u)
  {
    var a00, a01, a02 := u[0], u[1], u[2];
    var a10, a11, a12 := u[3], u[4], u[5];
    var a20, a21, a22 := u[6], u[7], u[8];
    var b01 := a22 * a11 - a12 * a21;
    var b11 := -a22 * a10 + a12 * a20;
    var b21 := a21 * a10 - a11 * a20;
    a00 * b01 + a01 * b11 + a02 * b21
  }

  /** The nine numerators `mat4.inverse3x3` writes before scaling: the
      adjugate of the block (b01, b11 and b21 are its first column).
      `CofactorRight` and `CofactorLeft` show that their product with the
      block, in either order, is d times the identity. */
  function Cofactors(u: Mat3.Matrix3): Mat3.Matrix3
  {
    var a00, a01, a02 := u[0], u[1], u[2];
    var a10, a11, a12 := u[3], u[4], u[5];
    var a20, a21, a22 := u[6], u[7], u[8];
    var b01 := a22 * a11 - a12 * a21;
    var b11 := -a22 * a10 + a12 * a20;
    var b21 := a21 * a10 - a11 * a20;
    [b01, -a22 * a01 + a02 * a21, a12 * a01 - a02 * a11,
     b11, a22 * a00 - a02 * a20, -a12 * a00 + a02 * a10,
     b21, -a21 * a00 + a01 * a20, a11 * a00 - a01 * a10]
  }

  /** `mat4.inverse3x3`: null when the upper-left block is singular (and
      nothing is written); otherwise slot k holds numerator k times
      id = 1 / d. The destination, a caller's `mat3` or a fresh one, has all
      nine slots overwritten, so the result does not depend on it. */
  function Inverse3x3(m: Mat4.Matrix4): (r: Nullable.Nullable<Mat3.Matrix3>)
    ensures r.Null? <==> Mat3.Determinant(UpperLeft(m)) == 0.0
  {
    var u := UpperLeft(m);
    var d := BlockDeterminant(u);
    if d == 0.0 then Nullable.Null
    else
      var id := 1.0 / d;
      var c := Cofactors(u);
      Nullable.NonNull(seq(9, k requires 0 <= k < 9 => c[k] * id))
  }

  /** When the block is invertible, `mat4.inverse3x3` returns its inverse:
      the product with the block, in either order, is the 3x3 identity. */
  lemma Inverse3x3IsInverse(m: Mat4.Matrix4)
    requires Mat3.Determinant(UpperLeft(m)) != 0.0
    ensures Inverse3x3(m).NonNull?
    ensures Mat3.Multiply(UpperLeft(m), Inverse3x3(m).value) == Mat3.Identity()
    ensures Mat3.Multiply(Inverse3x3(m).value, UpperLeft(m)) == Mat3.Identity()
  {
    Inverse3x3Slots(m);
    BlockInverse(UpperLeft(m), Inverse3x3(m).value);
  }

  /** The numerators over d, for a block u with d != 0, are its two-sided
      inverse. */
  lemma BlockInverse(u: Mat3.Matrix3, r: Mat3.Matrix3)
    requires BlockDeterminant(u) != 0.0
    requires forall k | 0 <= k < 9 :: r[k] == Cofactors(u)[k] * (1.0 / BlockDeterminant(u))
    ensures Mat3.Multiply(u, r) == Mat3.Identity()
    ensures Mat3.Multiply(r, u) == Mat3.Identity()
  {
    var d := BlockDeterminant(u);
    var id, c := 1.0 / d, Cofactors(u);
    Reals.TimesReciprocal(d);
    CofactorRightInverse(u, d, id, c, r);
    CofactorLeftInverse(u, d, id, c, r);
  }

  /** For an invertible block, slot k of the result is numerator k over d. */
  lemma Inverse3x3Slots(m: Mat4.Matrix4)
    requires Mat3.Determinant(UpperLeft(m)) != 0.0
    ensures BlockDeterminant(UpperLeft(m)) != 0.0
    ensures Inverse3x3(m).NonNull?
    ensures forall k | 0 <= k < 9 :: Inverse3x3(m).value[k] == Cofactors(UpperLeft(m))[k] * (1.0 / BlockDeterminant(UpperLeft(m)))
  {
  }

  /** The cofactor numerators c of a block u, scaled by id with d * id == 1,
      are a right inverse of u. */
  lemma CofactorRightInverse(u: Mat3.Matrix3, d: real, id: real, c: Mat3.Matrix3, r: Mat3.Matrix3)
    requires d == BlockDeterminant(u)
    requires d * id == 1.0
    requires c == Cofactors(u)
    requires forall k | 0 <= k < 9 :: r[k] == c[k] * id
    ensures Mat3.Multiply(u, r) == Mat3.Identity()
  {
    InverseRight(u[0], u[1], u[2], u[3], u[4], u[5], u[6], u[7], u[8], d, id,
      c[0], c[1], c[2], c[3], c[4], c[5], c[6], c[7], c[8],
      r[0], r[1], r[2], r[3], r[4], r[5], r[6], r[7], r[8]);
    Mat3.ProductIsIdentity(u, r);
  }

  /** The cofactor numerators c of a block u, scaled by id with d * id == 1,
      are a left inverse of u. */
  lemma CofactorLeftInverse(u: Mat3.Matrix3, d: real, id: real, c: Mat3.Matrix3, r: Mat3.Matrix3)
    requires d == BlockDeterminant(u)
    requires d * id == 1.0
    requires c == Cofactors(u)
    requires forall k | 0 <= k < 9 :: r[k] == c[k] * id
    ensures Mat3.Multiply(r, u) == Mat3.Identity()
  {
    InverseLeft(u[0], u[1], u[2], u[3], u[4], u[5], u[6], u[7], u[8], d, id,
      c[0], c[1], c[2], c[3], c[4], c[5], c[6], c[7], c[8],
      r[0], r[1], r[2], r[3], r[4], r[5], r[6], r[7], r[8]);
    Mat3.ProductIsIdentity(r, u);
  }

  /** The block times the numerators c scaled by id, where d * id == 1, has
      the entries of the identity. */
  lemma InverseRight(a00: real, a01: real, a02: real, a10: real, a11: real, a12: real, a20: real, a21: real, a22: real, d: real, id: real,
      c0: real, c1: real, c2: real, c3: real, c4: real, c5: real, c6: real, c7: real, c8: real,
      r0: real, r1: real, r2: real, r3: real, r4: real, r5: real, r6: real, r7: real, r8: real)
    requires d == a00 * (a22 * a11 - a12 * a21) + a01 * (-a22 * a10 + a12 * a20) + a02 * (a21 * a10 - a11 * a20)
    requires d * id == 1.0
    requires c0 == a22 * a11 - a12 * a21
    requires c1 == -a22 * a01 + a02 * a21
    requires c2 == a12 * a01 - a02 * a11
    requires c3 == -a22 * a10 + a12 * a20
    requires c4 == a22 * a00 - a02 * a20
    requires c5 == -a12 * a00 + a02 * a10
    requires c6 == a21 * a10 - a11 * a20
    requires c7 == -a21 * a00 + a01 * a20
    requires c8 == a11 * a00 - a01 * a10
    requires r0 == c0 * id
    requires r1 == c1 * id
    requires r2 == c2 * id
    requires r3 == c3 * id
    requires r4 == c4 * id
    requires r5 == c5 * id
    requires r6 == c6 * id
    requires r7 == c7 * id
    requires r8 == c8 * id
    ensures Mat3.Dot(a00, a10, a20, r0, r1, r2) == 1.0
    ensures Mat3.Dot(a01, a11, a21, r0, r1, r2) == 0.0
    ensures Mat3.Dot(a02, a12, a22, r0, r1, r2) == 0.0
    ensures Mat3.Dot(a00, a10, a20, r3, r4, r5) == 0.0
    ensures Mat3.Dot(a01, a11, a21, r3, r4, r5) == 1.0
    ensures Mat3.Dot(a02, a12, a22, r3, r4, r5) == 0.0
    ensures Mat3.Dot(a00, a10, a20, r6, r7, r8) == 0.0
    ensures Mat3.Dot(a01, a11, a21, r6, r7, r8) == 0.0
    ensures Mat3.Dot(a02, a12, a22, r6, r7, r8) == 1.0
  {
    CofactorRight(a00, a01, a02, a10, a11, a12, a20, a21, a22, d, c0, c1, c2, c3, c4, c5, c6, c7, c8);
    ScaledSum3(a00, a10, a20, c0, c1, c2, r0, r1, r2, id, d);
    ScaledSum3(a01, a11, a21, c0, c1, c2, r0, r1, r2, id, 0.0);
    ScaledSum3(a02, a12, a22, c0, c1, c2, r0, r1, r2, id, 0.0);
    ScaledSum3(a00, a10, a20, c3, c4, c5, r3, r4, r5, id, 0.0);
    ScaledSum3(a01, a11, a21, c3, c4, c5, r3, r4, r5, id, d);
    ScaledSum3(a02, a12, a22, c3, c4, c5, r3, r4, r5, id, 0.0);
    ScaledSum3(a00, a10, a20, c6, c7, c8, r6, r7, r8, id, 0.0);
    ScaledSum3(a01, a11, a21, c6, c7, c8, r6, r7, r8, id, 0.0);
    ScaledSum3(a02, a12, a22, c6, c7, c8, r6, r7, r8, id, d);
  }

  /** The numerators c scaled by id, where d * id == 1, times the block has
      the entries of the identity. */
  lemma InverseLeft(a00: real, a01: real, a02: real, a10: real, a11: real, a12: real, a20: real, a21: real, a22: real, d: real, id: real,
      c0: real, c1: real, c2: real, c3: real, c4: real, c5: real, c6: real, c7: real, c8: real,
      r0: real, r1: real, r2: real, r3: real, r4: real, r5: real, r6: real, r7: real, r8: real)
    requires d == a00 * (a22 * a11 - a12 * a21) + a01 * (-a22 * a10 + a12 * a20) + a02 * (a21 * a10 - a11 * a20)
    requires d * id == 1.0
    requires c0 == a22 * a11 - a12 * a21
    requires c1 == -a22 * a01 + a02 * a21
    requires c2 == a12 * a01 - a02 * a11
    requires c3 == -a22 * a10 + a12 * a20
    requires c4 == a22 * a00 - a02 * a20
    requires c5 == -a12 * a00 + a02 * a10
    requires c6 == a21 * a10 - a11 * a20
    requires c7 == -a21 * a00 + a01 * a20
    requires c8 == a11 * a00 - a01 * a10
    requires r0 == c0 * id
    requires r1 == c1 * id
    requires r2 == c2 * id
    requires r3 == c3 * id
    requires r4 == c4 * id
    requires r5 == c5 * id
    requires r6 == c6 * id
    requires r7 == c7 * id
    requires r8 == c8 * id
    ensures Mat3.Dot(r0, r3, r6, a00, a01, a02) == 1.0
    ensures Mat3.Dot(r1, r4, r7, a00, a01, a02) == 0.0
    ensures Mat3.Dot(r2, r5, r8, a00, a01, a02) == 0.0
    ensures Mat3.Dot(r0, r3, r6, a10, a11, a12) == 0.0
    ensures Mat3.Dot(r1, r4, r7, a10, a11, a12) == 1.0
    ensures Mat3.Dot(r2, r5, r8, a10, a11, a12) == 0.0
    ensures Mat3.Dot(r0, r3, r6, a20, a21, a22) == 0.0
    ensures Mat3.Dot(r1, r4, r7, a20, a21, a22) == 0.0
    ensures Mat3.Dot(r2, r5, r8, a20, a21, a22) == 1.0
  {
    CofactorLeft(a00, a01, a02, a10, a11, a12, a20, a21, a22, d, c0, c1, c2, c3, c4, c5, c6, c7, c8);
    ScaledSum3(a00, a01, a02, c0, c3, c6, r0, r3, r6, id, d);
    ScaledSum3(a00, a01, a02, c1, c4, c7, r1, r4, r7, id, 0.0);
    ScaledSum3(a00, a01, a02, c2, c5, c8, r2, r5, r8, id, 0.0);
    ScaledSum3(a10, a11, a12, c0, c3, c6, r0, r3, r6, id, 0.0);
    ScaledSum3(a10, a11, a12, c1, c4, c7, r1, r4, r7, id, d);
    ScaledSum3(a10, a11, a12, c2, c5, c8, r2, r5, r8, id, 0.0);
    ScaledSum3(a20, a21, a22, c0, c3, c6, r0, r3, r6, id, 0.0);
    ScaledSum3(a20, a21, a22, c1, c4, c7, r1, r4, r7, id, 0.0);
    ScaledSum3(a20, a21, a22, c2, c5, c8, r2, r5, r8, id, d);
  }

  /** The block times its cofactor numerators is d times the identity. */
  lemma CofactorRight(a00: real, a01: real, a02: real, a10: real, a11: real, a12: real, a20: real, a21: real, a22: real, d: real,
      c0: real, c1: real, c2: real, c3: real, c4: real, c5: real, c6: real, c7: real, c8: real)
    requires d == a00 * (a22 * a11 - a12 * a21) + a01 * (-a22 * a10 + a12 * a20) + a02 * (a21 * a10 - a11 * a20)
    requires c0 == a22 * a11 - a12 * a21
    requires c1 == -a22 * a01 + a02 * a21
    requires c2 == a12 * a01 - a02 * a11
    requires c3 == -a22 * a10 + a12 * a20
    requires c4 == a22 * a00 - a02 * a20
    requires c5 == -a12 * a00 + a02 * a10
    requires c6 == a21 * a10 - a11 * a20
    requires c7 == -a21 * a00 + a01 * a20
    requires c8 == a11 * a00 - a01 * a10
    ensures a00 * c0 + a10 * c1 + a20 * c2 == d
    ensures a01 * c0 + a11 * c1 + a21 * c2 == 0.0
    ensures a02 * c0 + a12 * c1 + a22 * c2 == 0.0
    ensures a00 * c3 + a10 * c4 + a20 * c5 == 0.0
    ensures a01 * c3 + a11 * c4 + a21 * c5 == d
    ensures a02 * c3 + a12 * c4 + a22 * c5 == 0.0
    ensures a00 * c6 + a10 * c7 + a20 * c8 == 0.0
    ensures a01 * c6 + a11 * c7 + a21 * c8 == 0.0
    ensures a02 * c6 + a12 * c7 + a22 * c8 == d
  {
    assert d == a00 * a22 * a11 - a00 * a12 * a21 - a01 * a22 * a10 + a01 * a12 * a20 + a02 * a21 * a10 - a02 * a11 * a20;
    assert a02 * c6 + a12 * c7 + a22 * c8 == a02 * a21 * a10 - a02 * a11 * a20 - a12 * a21 * a00 + a12 * a01 * a20 + a22 * a11 * a00 - a22 * a01 * a10;
  }

  /** The cofactor numerators times the block is d times the identity. */
  lemma CofactorLeft(a00: real, a01: real, a02: real, a10: real, a11: real, a12: real, a20: real, a21: real, a22: real, d: real,
      c0: real, c1: real, c2: real, c3: real, c4: real, c5: real, c6: real, c7: real, c8: real)
    requires d == a00 * (a22 * a11 - a12 * a21) + a01 * (-a22 * a10 + a12 * a20) + a02 * (a21 * a10 - a11 * a20)
    requires c0 == a22 * a11 - a12 * a21
    requires c1 == -a22 * a01 + a02 * a21
    requires c2 == a12 * a01 - a02 * a11
    requires c3 == -a22 * a10 + a12 * a20
    requires c4 == a22 * a00 - a02 * a20
    requires c5 == -a12 * a00 + a02 * a10
    requires c6 == a21 * a10 - a11 * a20
    requires c7 == -a21 * a00 + a01 * a20
    requires c8 == a11 * a00 - a01 * a10
    ensures c0 * a00 + c3 * a01 + c6 * a02 == d
    ensures c1 * a00 + c4 * a01 + c7 * a02 == 0.0
    ensures c2 * a00 + c5 * a01 + c8 * a02 == 0.0
    ensures c0 * a10 + c3 * a11 + c6 * a12 == 0.0
    ensures c1 * a10 + c4 * a11 + c7 * a12 == d
    ensures c2 * a10 + c5 * a11 + c8 * a12 == 0.0
    ensures c0 * a20 + c3 * a21 + c6 * a22 == 0.0
    ensures c1 * a20 + c4 * a21 + c7 * a22 == 0.0
    ensures c2 * a20 + c5 * a21 + c8 * a22 == d
  {
    assert d == a00 * a22 * a11 - a00 * a12 * a21 - a01 * a22 * a10 + a01 * a12 * a20 + a02 * a21 * a10 - a02 * a11 * a20;
    assert c2 * a20 + c5 * a21 + c8 * a22 == a12 * a01 * a20 - a02 * a11 * a20 - a12 * a00 * a21 + a02 * a10 * a21 + a11 * a00 * a22 - a01 * a10 * a22;
  }

  /** A sum of three products whose second factors are all scaled by k is
      the unscaled sum s scaled by k. */
  lemma ScaledSum3(x0: real, x1: real, x2: real, y0: real, y1: real, y2: real, z0: real, z1: real, z2: real, k: real, s: real)
    requires z0 == y0 * k && z1 == y1 * k && z2 == y2 * k
    requires s == x0 * y0 + x1 * y1 + x2 * y2
    ensures Mat3.Dot(x0, x1, x2, z0, z1, z2) == s * k
    ensures Mat3.Dot(z0, z1, z2, x0, x1, x2) == s * k
  {
  }
}
