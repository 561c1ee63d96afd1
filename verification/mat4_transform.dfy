/** Pure meaning of the `mat4` transformation operations of glMatrix.js:
    `translate`, `scale`, `rotate`, `rotateX`, `rotateY` and `rotateZ`. Each
    one post-multiplies the matrix by an elementary transformation, so that
    the elementary transformation is applied to a point first. Math.sin and
    Math.cos of the angle enter as the parameters `s` and `c`; the square
    root of the axis length enters as `len` with `Vec3.IsLength`. */
module Mat4Transform {

  import Reals
  import Nullable
  import Vec3
  import Mat4

  // ---------------------------------------------------------------------
  // translate

  /** The translation by v (reference definition). */
  function Translation(v: Vec3.Vector3): (r: Mat4.Matrix4)
    ensures Mat4.IsAffine(r)
  {
    [1.0, 0.0, 0.0, 0.0,
     0.0, 1.0, 0.0, 0.0,
     0.0, 0.0, 1.0, 0.0,
     v[0], v[1], v[2], 1.0]
  }

  /** `mat4.translate` into a separate destination: slots 0 to 11 are
      copied, slots 12 to 15 receive each row of the matrix applied to the
      point v. */
  function Translate(m: Mat4.Matrix4, v: Vec3.Vector3): (r: Mat4.Matrix4)
    ensures r[..12] == m[..12]
  {
    var x, y, z := v[0], v[1], v[2];
    var a00, a01, a02, a03 := m[0], m[1], m[2], m[3];
    var a10, a11, a12, a13 := m[4], m[5], m[6], m[7];
    var a20, a21, a22, a23 := m[8], m[9], m[10], m[11];
    [a00, a01, a02, a03,
     a10, a11, a12, a13,
     a20, a21, a22, a23,
     a00 * x + a10 * y + a20 * z + m[12],
     a01 * x + a11 * y + a21 * z + m[13],
     a02 * x + a12 * y + a22 * z + m[14],
     a03 * x + a13 * y + a23 * z + m[15]]
  }

  /** `mat4.translate` with the destination omitted or equal to the
      matrix: the four stores of slots 12 to 15, in order, each reading the
      buffer as it stands. */
  function TranslateInPlace(m: Mat4.Matrix4, v: Vec3.Vector3): (r: Mat4.Matrix4)
    ensures r[..12] == m[..12]
  {
    var x, y, z := v[0], v[1], v[2];
    var m12 := m[12 := m[0] * x + m[4] * y + m[8] * z + m[12]];
    var m13 := m12[13 := m12[1] * x + m12[5] * y + m12[9] * z + m12[13]];
    var m14 := m13[14 := m13[2] * x + m13[6] * y + m13[10] * z + m13[14]];
    m14[15 := m14[3] * x + m14[7] * y + m14[11] * z + m14[15]]
  }

  /** Both aliasing modes of `mat4.translate` compute the same matrix. */
  lemma TranslateInPlaceIsTranslate(m: Mat4.Matrix4, v: Vec3.Vector3)
    ensures TranslateInPlace(m, v) == Translate(m, v)
  {
    var r, t := TranslateInPlace(m, v), Translate(m, v);
    assert r[..12] == t[..12];
    assert r[12] == t[12] && r[13] == t[13] && r[14] == t[14] && r[15] == t[15];
    assert forall k | 0 <= k < 12 :: r[k] == r[..12][k] == t[..12][k] == t[k];
    Mat4.SlotwiseEqual(r, t);
  }

  /** `mat4.translate` post-multiplies by the translation matrix. */
  lemma TranslateIsProduct(m: Mat4.Matrix4, v: Vec3.Vector3)
    ensures Translate(m, v) == Mat4.Multiply(m, Translation(v))
  {
    TranslateSlots(m, v);
    Mat4.ProductBySlots(Translate(m, v), m,
      1.0, 0.0, 0.0, 0.0, 0.0, 1.0, 0.0, 0.0,
      0.0, 0.0, 1.0, 0.0, v[0], v[1], v[2], 1.0);
    Mat4.ProductUnique(Translate(m, v), m, Translation(v));
  }

  lemma TranslateSlots(m: Mat4.Matrix4, v: Vec3.Vector3)
    ensures Mat4.SlotsAreProduct(Translate(m, v), m,
      1.0, 0.0, 0.0, 0.0, 0.0, 1.0, 0.0, 0.0,
      0.0, 0.0, 1.0, 0.0, v[0], v[1], v[2], 1.0)
  {
    var r := Translate(m, v);
    assert r[12] == Mat4.Dot4(m[0], m[4], m[8], m[12], v[0], v[1], v[2], 1.0);
    assert r[13] == Mat4.Dot4(m[1], m[5], m[9], m[13], v[0], v[1], v[2], 1.0);
    assert r[14] == Mat4.Dot4(m[2], m[6], m[10], m[14], v[0], v[1], v[2], 1.0);
    assert r[15] == Mat4.Dot4(m[3], m[7], m[11], m[15], v[0], v[1], v[2], 1.0);
  }

  /** The translation matrix moves every point by v. */
  lemma TranslationMovesPoints(v: Vec3.Vector3, p: Vec3.Vector3)
    ensures Mat4.MultiplyVec3(Translation(v), p) == Vec3.Add(p, v)
  {
  }

  /** A translated matrix maps p to where the original maps p + v. */
  lemma TranslateThenTransform(m: Mat4.Matrix4, v: Vec3.Vector3, p: Vec3.Vector3)
    ensures Mat4.MultiplyVec3(Translate(m, v), p) == Mat4.MultiplyVec3(m, Vec3.Add(p, v))
  {
    TranslateIsProduct(m, v);
    Mat4.MultiplyVec3Compose(m, Translation(v), p);
    TranslationMovesPoints(v, p);
  }

  /** Translating by u and then by v is translating by u + v. */
  lemma TranslateTwice(m: Mat4.Matrix4, u: Vec3.Vector3, v: Vec3.Vector3)
    ensures Translate(Translate(m, u), v) == Translate(m, Vec3.Add(u, v))
  {
    var m1 := Translate(m, u);
    TranslateIsProduct(m, u);
    TranslateIsProduct(m1, v);
    TranslateIsProduct(m, Vec3.Add(u, v));
    TranslationTwice(u, v);
    PostMultiplyTwice(m, Translation(u), Translation(v), Translation(Vec3.Add(u, v)), m1, Translate(m1, v));
  }

  lemma TranslationTwice(u: Vec3.Vector3, v: Vec3.Vector3)
    ensures Mat4.Multiply(Translation(u), Translation(v)) == Translation(Vec3.Add(u, v))
  {
    TranslateIsProduct(Translation(u), v);
    Mat4.SlotwiseEqual(Translate(Translation(u), v), Translation(Vec3.Add(u, v)));
  }

  /** Post-multiplying by f1 and then by f2 is post-multiplying by their
      product g. */
  lemma PostMultiplyTwice(m: Mat4.Matrix4, f1: Mat4.Matrix4, f2: Mat4.Matrix4, g: Mat4.Matrix4, p1: Mat4.Matrix4, p2: Mat4.Matrix4)
    requires p1 == Mat4.Multiply(m, f1) && p2 == Mat4.Multiply(p1, f2)
    requires Mat4.Multiply(f1, f2) == g
    ensures p2 == Mat4.Multiply(m, g)
  {
    Mat4.MultiplyAssociative(m, f1, f2);
  }

  // ---------------------------------------------------------------------
  // scale

  /** The scaling by the factors v (reference definition). */
  function Scaling(v: Vec3.Vector3): (r: Mat4.Matrix4)
    ensures Mat4.IsAffine(r)
  {
    [v[0], 0.0, 0.0, 0.0,
     0.0, v[1], 0.0, 0.0,
     0.0, 0.0, v[2], 0.0,
     0.0, 0.0, 0.0, 1.0]
  }

  /** `mat4.scale` into a separate destination: columns 0, 1 and 2 are
      multiplied by x, y and z, column 3 is copied. */
  function Scale(m: Mat4.Matrix4, v: Vec3.Vector3): (r: Mat4.Matrix4)
    ensures r[12..] == m[12..]
  {
    var x, y, z := v[0], v[1], v[2];
    [m[0] * x, m[1] * x, m[2] * x, m[3] * x,
     m[4] * y, m[5] * y, m[6] * y, m[7] * y,
     m[8] * z, m[9] * z, m[10] * z, m[11] * z,
     m[12], m[13], m[14], m[15]]
  }

  /** `mat4.scale` with the destination omitted or equal to the matrix:
      twelve `*=` stores in slot order. */
  function ScaleInPlace(m: Mat4.Matrix4, v: Vec3.Vector3): (r: Mat4.Matrix4)
    ensures r[12..] == m[12..]
  {
    var x, y, z := v[0], v[1], v[2];
    var m0 := m[0 := m[0] * x];
    var m1 := m0[1 := m0[1] * x];
    var m2 := m1[2 := m1[2] * x];
    var m3 := m2[3 := m2[3] * x];
    var m4 := m3[4 := m3[4] * y];
    var m5 := m4[5 := m4[5] * y];
    var m6 := m5[6 := m5[6] * y];
    var m7 := m6[7 := m6[7] * y];
    var m8 := m7[8 := m7[8] * z];
    var m9 := m8[9 := m8[9] * z];
    var m10 := m9[10 := m9[10] * z];
    m10[11 := m10[11] * z]
  }

  /** Both aliasing modes of `mat4.scale` compute the same matrix. */
  lemma ScaleInPlaceIsScale(m: Mat4.Matrix4, v: Vec3.Vector3)
    ensures ScaleInPlace(m, v) == Scale(m, v)
  {
    var r, t := ScaleInPlace(m, v), Scale(m, v);
    assert r[12..] == t[12..];
    assert r[12] == r[12..][0] == t[12..][0] == t[12];
    assert r[13] == r[12..][1] == t[12..][1] == t[13];
    assert r[14] == r[12..][2] == t[12..][2] == t[14];
    assert r[15] == r[12..][3] == t[12..][3] == t[15];
    assert r[0] == t[0] && r[1] == t[1] && r[2] == t[2] && r[3] == t[3];
    assert r[4] == t[4] && r[5] == t[5] && r[6] == t[6] && r[7] == t[7];
    assert r[8] == t[8] && r[9] == t[9] && r[10] == t[10] && r[11] == t[11];
    Mat4.SlotwiseEqual(r, t);
  }

  /** `mat4.scale` post-multiplies by the scaling matrix. */
  lemma ScaleIsProduct(m: Mat4.Matrix4, v: Vec3.Vector3)
    ensures Scale(m, v) == Mat4.Multiply(m, Scaling(v))
  {
    ScaleSlots(m, v);
    Mat4.ProductBySlots(Scale(m, v), m,
      v[0], 0.0, 0.0, 0.0, 0.0, v[1], 0.0, 0.0,
      0.0, 0.0, v[2], 0.0, 0.0, 0.0, 0.0, 1.0);
    Mat4.ProductUnique(Scale(m, v), m, Scaling(v));
  }

  lemma ScaleSlots(m: Mat4.Matrix4, v: Vec3.Vector3)
    ensures Mat4.SlotsAreProduct(Scale(m, v), m,
      v[0], 0.0, 0.0, 0.0, 0.0, v[1], 0.0, 0.0,
      0.0, 0.0, v[2], 0.0, 0.0, 0.0, 0.0, 1.0)
  {
    var r := Scale(m, v);
    assert r[0] == Mat4.Dot4(m[0], m[4], m[8], m[12], v[0], 0.0, 0.0, 0.0);
    assert r[1] == Mat4.Dot4(m[1], m[5], m[9], m[13], v[0], 0.0, 0.0, 0.0);
    assert r[2] == Mat4.Dot4(m[2], m[6], m[10], m[14], v[0], 0.0, 0.0, 0.0);
    assert r[3] == Mat4.Dot4(m[3], m[7], m[11], m[15], v[0], 0.0, 0.0, 0.0);
    assert r[4] == Mat4.Dot4(m[0], m[4], m[8], m[12], 0.0, v[1], 0.0, 0.0);
    assert r[5] == Mat4.Dot4(m[1], m[5], m[9], m[13], 0.0, v[1], 0.0, 0.0);
    assert r[6] == Mat4.Dot4(m[2], m[6], m[10], m[14], 0.0, v[1], 0.0, 0.0);
    assert r[7] == Mat4.Dot4(m[3], m[7], m[11], m[15], 0.0, v[1], 0.0, 0.0);
    assert r[8] == Mat4.Dot4(m[0], m[4], m[8], m[12], 0.0, 0.0, v[2], 0.0);
    assert r[9] == Mat4.Dot4(m[1], m[5], m[9], m[13], 0.0, 0.0, v[2], 0.0);
    assert r[10] == Mat4.Dot4(m[2], m[6], m[10], m[14], 0.0, 0.0, v[2], 0.0);
    assert r[11] == Mat4.Dot4(m[3], m[7], m[11], m[15], 0.0, 0.0, v[2], 0.0);
  }

  /** The scaling matrix multiplies each coordinate of a point by its
      factor. */
  lemma ScalingMovesPoints(v: Vec3.Vector3, p: Vec3.Vector3)
    ensures Mat4.MultiplyVec3(Scaling(v), p) == [p[0] * v[0], p[1] * v[1], p[2] * v[2]]
  {
    var q := Mat4.MultiplyVec3(Scaling(v), p);
    assert q[0] == v[0] * p[0] + 0.0 * p[1] + 0.0 * p[2] + 0.0;
    assert q[1] == 0.0 * p[0] + v[1] * p[1] + 0.0 * p[2] + 0.0;
    assert q[2] == 0.0 * p[0] + 0.0 * p[1] + v[2] * p[2] + 0.0;
  }

  /** Scaling by u and then by v is scaling by the componentwise product. */
  lemma ScaleTwice(m: Mat4.Matrix4, u: Vec3.Vector3, v: Vec3.Vector3)
    ensures Scale(Scale(m, u), v) == Scale(m, [u[0] * v[0], u[1] * v[1], u[2] * v[2]])
  {
    var w: Vec3.Vector3 := [u[0] * v[0], u[1] * v[1], u[2] * v[2]];
    var m1 := Scale(m, u);
    ScaleIsProduct(m, u);
    ScaleIsProduct(m1, v);
    ScaleIsProduct(m, w);
    ScalingTwice(u, v);
    PostMultiplyTwice(m, Scaling(u), Scaling(v), Scaling(w), m1, Scale(m1, v));
  }

  lemma ScalingTwice(u: Vec3.Vector3, v: Vec3.Vector3)
    ensures Mat4.Multiply(Scaling(u), Scaling(v)) == Scaling([u[0] * v[0], u[1] * v[1], u[2] * v[2]])
  {
    ScaleIsProduct(Scaling(u), v);
    Mat4.SlotwiseEqual(Scale(Scaling(u), v), Scaling([u[0] * v[0], u[1] * v[1], u[2] * v[2]]));
  }

  // ---------------------------------------------------------------------
  // rotate

  /** The rotation by the angle with sine s and cosine c about the unit
      axis u, in the layout `mat4.rotate` builds it: slot 4 * j + i holds
      the source's b_ji, the coefficient of column i of the matrix in
      column j of the result. */
  function AxisRotation(u: Vec3.Vector3, s: real, c: real): (r: Mat4.Matrix4)
    ensures Mat4.IsAffine(r)
  {
    var x, y, z := u[0], u[1], u[2];
    var t := 1.0 - c;
    [x * x * t + c, y * x * t + z * s, z * x * t - y * s, 0.0,
     x * y * t - z * s, y * y * t + c, z * y * t + x * s, 0.0,
     x * z * t + y * s, y * z * t - x * s, z * z * t + c, 0.0,
     0.0, 0.0, 0.0, 1.0]
  }

  /** `mat4.rotate`. `len` is Math.sqrt of the axis' squared length. A
      zero axis yields null; any other axis is normalized (skipped when
      `len` is 1), the nine coefficients are built and columns 0 to 2 are
      recomputed from the cached columns; slots 12 to 15 are kept, by not
      writing them in place or by copying them to a separate destination,
      so both aliasing modes compute the same matrix. */
  function Rotate(m: Mat4.Matrix4, axis: Vec3.Vector3, len: real, s: real, c: real): (r: Nullable.Nullable<Mat4.Matrix4>)
    requires Vec3.IsLength(axis, len)
    ensures r.Null? <==> axis == Vec3.Zero()
    ensures r.NonNull? ==> r.value[12..] == m[12..]
  {
    Vec3.LengthProperties(axis, len, len);
    if len == 0.0 then Nullable.Null
    else
      Nullable.NonNull(MultiplyUpperLeft(m, AxisRotation(Vec3.Normalize(axis, len), s, c)))
  }

  /** For a non-zero axis, `mat4.rotate` post-multiplies by the rotation
      about the normalized axis. */
  lemma RotateIsProduct(m: Mat4.Matrix4, axis: Vec3.Vector3, len: real, s: real, c: real)
    requires Vec3.IsLength(axis, len) && axis != Vec3.Zero()
    ensures Rotate(m, axis, len, s, c).NonNull?
    ensures Rotate(m, axis, len, s, c).value == Mat4.Multiply(m, AxisRotation(Vec3.Normalize(axis, len), s, c))
  {
    Vec3.LengthProperties(axis, len, len);
    MultiplyUpperLeftIsProduct(m, AxisRotation(Vec3.Normalize(axis, len), s, c));
  }

  /** b acts on the first three coordinates only: its last row and column
      are those of the identity. */
  predicate IsLinear(b: Mat4.Matrix4)
  {
    Mat4.IsAffine(b) && b[12] == 0.0 && b[13] == 0.0 && b[14] == 0.0
  }

  /** The unrolled product of `mat4.rotate`: columns 0 to 2 of m are
      recombined with the nine coefficients of b's upper-left block and
      column 3 is kept. */
  function MultiplyUpperLeft(m: Mat4.Matrix4, b: Mat4.Matrix4): (r: Mat4.Matrix4)
    ensures r[12..] == m[12..]
  {
    var b00, b01, b02 := b[0], b[1], b[2];
    var b10, b11, b12 := b[4], b[5], b[6];
    var b20, b21, b22 := b[8], b[9], b[10];
    var a00, a01, a02, a03 := m[0], m[1], m[2], m[3];
    var a10, a11, a12, a13 := m[4], m[5], m[6], m[7];
    var a20, a21, a22, a23 := m[8], m[9], m[10], m[11];
    [a00 * b00 + a10 * b01 + a20 * b02,
     a01 * b00 + a11 * b01 + a21 * b02,
     a02 * b00 + a12 * b01 + a22 * b02,
     a03 * b00 + a13 * b01 + a23 * b02,
     a00 * b10 + a10 * b11 + a20 * b12,
     a01 * b10 + a11 * b11 + a21 * b12,
     a02 * b10 + a12 * b11 + a22 * b12,
     a03 * b10 + a13 * b11 + a23 * b12,
     a00 * b20 + a10 * b21 + a20 * b22,
     a01 * b20 + a11 * b21 + a21 * b22,
     a02 * b20 + a12 * b21 + a22 * b22,
     a03 * b20 + a13 * b21 + a23 * b22,
     m[12], m[13], m[14], m[15]]
  }

  /** For a linear b, the unrolled product is the full matrix product. */
  lemma MultiplyUpperLeftIsProduct(m: Mat4.Matrix4, b: Mat4.Matrix4)
    requires IsLinear(b)
    ensures MultiplyUpperLeft(m, b) == Mat4.Multiply(m, b)
  {
    MultiplyUpperLeftSlots(m, b);
    Mat4.ProductBySlots(MultiplyUpperLeft(m, b), m,
      b[0], b[1], b[2], 0.0, b[4], b[5], b[6], 0.0, b[8], b[9], b[10], 0.0, 0.0, 0.0, 0.0, 1.0);
    Mat4.SlotwiseEqual(b, [b[0], b[1], b[2], 0.0, b[4], b[5], b[6], 0.0, b[8], b[9], b[10], 0.0, 0.0, 0.0, 0.0, 1.0]);
    Mat4.ProductUnique(MultiplyUpperLeft(m, b), m, b);
  }

  lemma MultiplyUpperLeftSlots(m: Mat4.Matrix4, b: Mat4.Matrix4)
    ensures Mat4.SlotsAreProduct(MultiplyUpperLeft(m, b), m,
      b[0], b[1], b[2], 0.0, b[4], b[5], b[6], 0.0, b[8], b[9], b[10], 0.0, 0.0, 0.0, 0.0, 1.0)
  {
    var r := MultiplyUpperLeft(m, b);
    assert r[12] == Mat4.Dot4(m[0], m[4], m[8], m[12], 0.0, 0.0, 0.0, 1.0);
    assert r[13] == Mat4.Dot4(m[1], m[5], m[9], m[13], 0.0, 0.0, 0.0, 1.0);
    assert r[14] == Mat4.Dot4(m[2], m[6], m[10], m[14], 0.0, 0.0, 0.0, 1.0);
    assert r[15] == Mat4.Dot4(m[3], m[7], m[11], m[15], 0.0, 0.0, 0.0, 1.0);
  }

  /** The rotation leaves its unit axis where it is. */
  lemma AxisRotationFixesAxis(u: Vec3.Vector3, s: real, c: real)
    requires Vec3.SquaredLength(u) == 1.0
    ensures Mat4.MultiplyVec3(AxisRotation(u, s, c), u) == u
  {
    AxisRotationCoefficients(u, s, c);
    FixesPoint(AxisRotation(u, s, c), u, s, c);
  }

  lemma AxisRotationCoefficients(u: Vec3.Vector3, s: real, c: real)
    ensures var r, x, y, z := AxisRotation(u, s, c), u[0], u[1], u[2];
      && IsLinear(r)
      && r[0] == x * x * (1.0 - c) + c && r[4] == x * y * (1.0 - c) - z * s && r[8] == x * z * (1.0 - c) + y * s
      && r[5] == y * y * (1.0 - c) + c && r[9] == y * z * (1.0 - c) - x * s && r[1] == y * x * (1.0 - c) + z * s
      && r[10] == z * z * (1.0 - c) + c && r[2] == z * x * (1.0 - c) - y * s && r[6] == z * y * (1.0 - c) + x * s
  {
  }

  /** A linear matrix with the coefficients of the rotation about the unit
      vector (x, y, z) maps that vector to itself. */
  lemma FixesPoint(r: Mat4.Matrix4, v: Vec3.Vector3, s: real, c: real)
    requires Vec3.SquaredLength(v) == 1.0 && IsLinear(r)
    requires var x, y, z := v[0], v[1], v[2];
      && r[0] == x * x * (1.0 - c) + c && r[4] == x * y * (1.0 - c) - z * s && r[8] == x * z * (1.0 - c) + y * s
      && r[5] == y * y * (1.0 - c) + c && r[9] == y * z * (1.0 - c) - x * s && r[1] == y * x * (1.0 - c) + z * s
      && r[10] == z * z * (1.0 - c) + c && r[2] == z * x * (1.0 - c) - y * s && r[6] == z * y * (1.0 - c) + x * s
    ensures Mat4.MultiplyVec3(r, v) == v
  {
    FixesCoordinates(r, v[0], v[1], v[2], s, c);
    assert v == [v[0], v[1], v[2]];
  }

  lemma FixesCoordinates(r: Mat4.Matrix4, x: real, y: real, z: real, s: real, c: real)
    requires x * x + y * y + z * z == 1.0 && IsLinear(r)
    requires r[0] == x * x * (1.0 - c) + c && r[4] == x * y * (1.0 - c) - z * s && r[8] == x * z * (1.0 - c) + y * s
    requires r[5] == y * y * (1.0 - c) + c && r[9] == y * z * (1.0 - c) - x * s && r[1] == y * x * (1.0 - c) + z * s
    requires r[10] == z * z * (1.0 - c) + c && r[2] == z * x * (1.0 - c) - y * s && r[6] == z * y * (1.0 - c) + x * s
    ensures Mat4.MultiplyVec3(r, [x, y, z]) == [x, y, z]
  {
    var p := Mat4.MultiplyVec3(r, [x, y, z]);
    FixedRow(p[0], r[0], r[4], r[8], r[12], x, y, z, s, c);
    FixedRow(p[1], r[5], r[9], r[1], r[13], y, z, x, s, c);
    FixedRow(p[2], r[10], r[2], r[6], r[14], z, x, y, s, c);
  }

  /** One coordinate of the image: p is d*x + e*y + f*z + w for the row
      (d, e, f, w) of the rotation about the unit (x, y, z), listed
      cyclically from the coordinate. */
  lemma FixedRow(p: real, d: real, e: real, f: real, w: real, x: real, y: real, z: real, s: real, c: real)
    requires x * x + y * y + z * z == 1.0 && w == 0.0
    requires d == x * x * (1.0 - c) + c && e == x * y * (1.0 - c) - z * s && f == x * z * (1.0 - c) + y * s
    requires p == d * x + e * y + f * z + w
    ensures p == x
  {
    FixedCoordinate(x, y, z, x * x + y * y + z * z, s, c, d, e, f);
  }

  /** One coordinate of the rotated axis, with the coordinates listed
      cyclically from x: the diagonal coefficient, then the two
      off-diagonal ones of its row. */
  lemma {:induction false} FixedCoordinate(x: real, y: real, z: real, q: real, s: real, c: real, d: real, e: real, f: real)
    requires q == x * x + y * y + z * z && q == 1.0
    requires d == x * x * (1.0 - c) + c
    requires e == x * y * (1.0 - c) - z * s
    requires f == x * z * (1.0 - c) + y * s
    ensures d * x + e * y + f * z == x
  {
    assert d * x + e * y + f * z == x * (1.0 - c) * q + c * x;
  }

  /** Rotating a matrix leaves the points of the normalized axis mapped
      where the matrix mapped them. */
  lemma RotateFixesAxis(m: Mat4.Matrix4, axis: Vec3.Vector3, len: real, s: real, c: real, p: Vec3.Vector3)
    requires Vec3.IsLength(axis, len) && axis != Vec3.Zero()
    requires p == Vec3.Normalize(axis, len)
    ensures Mat4.MultiplyVec3(Rotate(m, axis, len, s, c).value, p) == Mat4.MultiplyVec3(m, p)
  {
    Vec3.LengthProperties(axis, len, len);
    Vec3.NormalizeIsUnit(axis, len);
    RotateIsProduct(m, axis, len, s, c);
    Mat4.MultiplyVec3Compose(m, AxisRotation(p, s, c), p);
    AxisRotationFixesAxis(p, s, c);
  }

  // ---------------------------------------------------------------------
  // rotateX, rotateY, rotateZ

  /** The rotation about the x axis (reference definition). */
  function RotationX(s: real, c: real): (r: Mat4.Matrix4)
    ensures Mat4.IsAffine(r)
  {
    [1.0, 0.0, 0.0, 0.0,
     0.0, c, s, 0.0,
     0.0, -s, c, 0.0,
     0.0, 0.0, 0.0, 1.0]
  }

  /** The rotation about the y axis (reference definition). */
  function RotationY(s: real, c: real): (r: Mat4.Matrix4)
    ensures Mat4.IsAffine(r)
  {
    [c, 0.0, -s, 0.0,
     0.0, 1.0, 0.0, 0.0,
     s, 0.0, c, 0.0,
     0.0, 0.0, 0.0, 1.0]
  }

  /** The rotation about the z axis (reference definition). */
  function RotationZ(s: real, c: real): (r: Mat4.Matrix4)
    ensures Mat4.IsAffine(r)
  {
    [c, s, 0.0, 0.0,
     -s, c, 0.0, 0.0,
     0.0, 0.0, 1.0, 0.0,
     0.0, 0.0, 0.0, 1.0]
  }

  /** `mat4.rotateX`: columns 1 and 2 are recomputed from their cached
      values; slots 0 to 3 and 12 to 15 are kept in place or copied to a
      separate destination, so both aliasing modes agree. */
  function RotateX(m: Mat4.Matrix4, s: real, c: real): (r: Mat4.Matrix4)
    ensures r[..4] == m[..4] && r[12..] == m[12..]
  {
    var a10, a11, a12, a13 := m[4], m[5], m[6], m[7];
    var a20, a21, a22, a23 := m[8], m[9], m[10], m[11];
    [m[0], m[1], m[2], m[3],
     a10 * c + a20 * s, a11 * c + a21 * s, a12 * c + a22 * s, a13 * c + a23 * s,
     a10 * -s + a20 * c, a11 * -s + a21 * c, a12 * -s + a22 * c, a13 * -s + a23 * c,
     m[12], m[13], m[14], m[15]]
  }

  /** `mat4.rotateY`: columns 0 and 2 are recomputed; slots 4 to 7 and 12
      to 15 are kept. */
  function RotateY(m: Mat4.Matrix4, s: real, c: real): (r: Mat4.Matrix4)
    ensures r[4..8] == m[4..8] && r[12..] == m[12..]
  {
    var a00, a01, a02, a03 := m[0], m[1], m[2], m[3];
    var a20, a21, a22, a23 := m[8], m[9], m[10], m[11];
    [a00 * c + a20 * -s, a01 * c + a21 * -s, a02 * c + a22 * -s, a03 * c + a23 * -s,
     m[4], m[5], m[6], m[7],
     a00 * s + a20 * c, a01 * s + a21 * c, a02 * s + a22 * c, a03 * s + a23 * c,
     m[12], m[13], m[14], m[15]]
  }

  /** `mat4.rotateZ`: columns 0 and 1 are recomputed; slots 8 to 15 are
      kept. */
  function RotateZ(m: Mat4.Matrix4, s: real, c: real): (r: Mat4.Matrix4)
    ensures r[8..] == m[8..]
  {
    var a00, a01, a02, a03 := m[0], m[1], m[2], m[3];
    var a10, a11, a12, a13 := m[4], m[5], m[6], m[7];
    [a00 * c + a10 * s, a01 * c + a11 * s, a02 * c + a12 * s, a03 * c + a13 * s,
     a00 * -s + a10 * c, a01 * -s + a11 * c, a02 * -s + a12 * c, a03 * -s + a13 * c,
     m[8], m[9], m[10], m[11],
     m[12], m[13], m[14], m[15]]
  }

  /** `mat4.rotateX` post-multiplies by the rotation about the x axis. */
  lemma RotateXIsProduct(m: Mat4.Matrix4, s: real, c: real)
    ensures RotateX(m, s, c) == Mat4.Multiply(m, RotationX(s, c))
  {
    RotateXSlots(m, s, c);
    Mat4.ProductBySlots(RotateX(m, s, c), m,
      1.0, 0.0, 0.0, 0.0, 0.0, c, s, 0.0,
      0.0, -s, c, 0.0, 0.0, 0.0, 0.0, 1.0);
    Mat4.ProductUnique(RotateX(m, s, c), m, RotationX(s, c));
  }

  lemma RotateXSlots(m: Mat4.Matrix4, s: real, c: real)
    ensures Mat4.SlotsAreProduct(RotateX(m, s, c), m,
      1.0, 0.0, 0.0, 0.0, 0.0, c, s, 0.0,
      0.0, -s, c, 0.0, 0.0, 0.0, 0.0, 1.0)
  {
    var r := RotateX(m, s, c);
    assert r[4] == Mat4.Dot4(m[0], m[4], m[8], m[12], 0.0, c, s, 0.0);
    assert r[5] == Mat4.Dot4(m[1], m[5], m[9], m[13], 0.0, c, s, 0.0);
    assert r[6] == Mat4.Dot4(m[2], m[6], m[10], m[14], 0.0, c, s, 0.0);
    assert r[7] == Mat4.Dot4(m[3], m[7], m[11], m[15], 0.0, c, s, 0.0);
    assert r[8] == Mat4.Dot4(m[0], m[4], m[8], m[12], 0.0, -s, c, 0.0);
    assert r[9] == Mat4.Dot4(m[1], m[5], m[9], m[13], 0.0, -s, c, 0.0);
    assert r[10] == Mat4.Dot4(m[2], m[6], m[10], m[14], 0.0, -s, c, 0.0);
    assert r[11] == Mat4.Dot4(m[3], m[7], m[11], m[15], 0.0, -s, c, 0.0);
  }

  /** `mat4.rotateY` post-multiplies by the rotation about the y axis. */
  lemma RotateYIsProduct(m: Mat4.Matrix4, s: real, c: real)
    ensures RotateY(m, s, c) == Mat4.Multiply(m, RotationY(s, c))
  {
    RotateYSlots(m, s, c);
    Mat4.ProductBySlots(RotateY(m, s, c), m,
      c, 0.0, -s, 0.0, 0.0, 1.0, 0.0, 0.0,
      s, 0.0, c, 0.0, 0.0, 0.0, 0.0, 1.0);
    Mat4.ProductUnique(RotateY(m, s, c), m, RotationY(s, c));
  }

  lemma RotateYSlots(m: Mat4.Matrix4, s: real, c: real)
    ensures Mat4.SlotsAreProduct(RotateY(m, s, c), m,
      c, 0.0, -s, 0.0, 0.0, 1.0, 0.0, 0.0,
      s, 0.0, c, 0.0, 0.0, 0.0, 0.0, 1.0)
  {
    var r := RotateY(m, s, c);
    assert r[0] == Mat4.Dot4(m[0], m[4], m[8], m[12], c, 0.0, -s, 0.0);
    assert r[1] == Mat4.Dot4(m[1], m[5], m[9], m[13], c, 0.0, -s, 0.0);
    assert r[2] == Mat4.Dot4(m[2], m[6], m[10], m[14], c, 0.0, -s, 0.0);
    assert r[3] == Mat4.Dot4(m[3], m[7], m[11], m[15], c, 0.0, -s, 0.0);
    assert r[8] == Mat4.Dot4(m[0], m[4], m[8], m[12], s, 0.0, c, 0.0);
    assert r[9] == Mat4.Dot4(m[1], m[5], m[9], m[13], s, 0.0, c, 0.0);
    assert r[10] == Mat4.Dot4(m[2], m[6], m[10], m[14], s, 0.0, c, 0.0);
    assert r[11] == Mat4.Dot4(m[3], m[7], m[11], m[15], s, 0.0, c, 0.0);
  }

  /** `mat4.rotateZ` post-multiplies by the rotation about the z axis. */
  lemma RotateZIsProduct(m: Mat4.Matrix4, s: real, c: real)
    ensures RotateZ(m, s, c) == Mat4.Multiply(m, RotationZ(s, c))
  {
    RotateZSlots(m, s, c);
    Mat4.ProductBySlots(RotateZ(m, s, c), m,
      c, s, 0.0, 0.0, -s, c, 0.0, 0.0,
      0.0, 0.0, 1.0, 0.0, 0.0, 0.0, 0.0, 1.0);
    Mat4.ProductUnique(RotateZ(m, s, c), m, RotationZ(s, c));
  }

  lemma RotateZSlots(m: Mat4.Matrix4, s: real, c: real)
    ensures Mat4.SlotsAreProduct(RotateZ(m, s, c), m,
      c, s, 0.0, 0.0, -s, c, 0.0, 0.0,
      0.0, 0.0, 1.0, 0.0, 0.0, 0.0, 0.0, 1.0)
  {
    var r := RotateZ(m, s, c);
    assert r[0] == Mat4.Dot4(m[0], m[4], m[8], m[12], c, s, 0.0, 0.0);
    assert r[1] == Mat4.Dot4(m[1], m[5], m[9], m[13], c, s, 0.0, 0.0);
    assert r[2] == Mat4.Dot4(m[2], m[6], m[10], m[14], c, s, 0.0, 0.0);
    assert r[3] == Mat4.Dot4(m[3], m[7], m[11], m[15], c, s, 0.0, 0.0);
    assert r[4] == Mat4.Dot4(m[0], m[4], m[8], m[12], -s, c, 0.0, 0.0);
    assert r[5] == Mat4.Dot4(m[1], m[5], m[9], m[13], -s, c, 0.0, 0.0);
    assert r[6] == Mat4.Dot4(m[2], m[6], m[10], m[14], -s, c, 0.0, 0.0);
    assert r[7] == Mat4.Dot4(m[3], m[7], m[11], m[15], -s, c, 0.0, 0.0);
  }

  /** `rotateX`, `rotateY` and `rotateZ` are `rotate` about the unit
      coordinate axes. */
  lemma RotateAboutCoordinateAxes(m: Mat4.Matrix4, s: real, c: real)
    ensures Rotate(m, [1.0, 0.0, 0.0], 1.0, s, c) == Nullable.NonNull(RotateX(m, s, c))
    ensures Rotate(m, [0.0, 1.0, 0.0], 1.0, s, c) == Nullable.NonNull(RotateY(m, s, c))
    ensures Rotate(m, [0.0, 0.0, 1.0], 1.0, s, c) == Nullable.NonNull(RotateZ(m, s, c))
  {
    var ex, ey, ez: Vec3.Vector3 := [1.0, 0.0, 0.0], [0.0, 1.0, 0.0], [0.0, 0.0, 1.0];
    assert Vec3.IsLength(ex, 1.0) && Vec3.IsLength(ey, 1.0) && Vec3.IsLength(ez, 1.0);
    assert ex != Vec3.Zero() && ey != Vec3.Zero() && ez != Vec3.Zero();
    CoordinateAxisRotations(s, c);
    RotateIsProduct(m, ex, 1.0, s, c);
    RotateIsProduct(m, ey, 1.0, s, c);
    RotateIsProduct(m, ez, 1.0, s, c);
    RotateXIsProduct(m, s, c);
    RotateYIsProduct(m, s, c);
    RotateZIsProduct(m, s, c);
  }

  /** The rotation about a unit coordinate axis is the matching
      elementary rotation. */
  lemma CoordinateAxisRotations(s: real, c: real)
    ensures AxisRotation([1.0, 0.0, 0.0], s, c) == RotationX(s, c)
    ensures AxisRotation([0.0, 1.0, 0.0], s, c) == RotationY(s, c)
    ensures AxisRotation([0.0, 0.0, 1.0], s, c) == RotationZ(s, c)
  {
    Mat4.SlotwiseEqual(AxisRotation([1.0, 0.0, 0.0], s, c), RotationX(s, c));
    Mat4.SlotwiseEqual(AxisRotation([0.0, 1.0, 0.0], s, c), RotationY(s, c));
    Mat4.SlotwiseEqual(AxisRotation([0.0, 0.0, 1.0], s, c), RotationZ(s, c));
  }


/** Rotating about the x axis by two angles in turn is rotating by
      their sum (sine and cosine by the addition formulas). */
  lemma RotateXTwice(m: Mat4.Matrix4, s1: real, c1: real, s2: real, c2: real)
    ensures RotateX(RotateX(m, s1, c1), s2, c2) == RotateX(m, s1 * c2 + c1 * s2, c1 * c2 - s1 * s2)
  {
    var s, c := s1 * c2 + c1 * s2, c1 * c2 - s1 * s2;
    var m1 := RotateX(m, s1, c1);
    RotateXIsProduct(m, s1, c1);
    RotateXIsProduct(m1, s2, c2);
    RotateXIsProduct(m, s, c);
    RotationXTwice(s1, c1, s2, c2);
    PostMultiplyTwice(m, RotationX(s1, c1), RotationX(s2, c2), RotationX(s, c), m1, RotateX(m1, s2, c2));
  }

  lemma RotationXTwice(s1: real, c1: real, s2: real, c2: real)
    ensures Mat4.Multiply(RotationX(s1, c1), RotationX(s2, c2)) == RotationX(s1 * c2 + c1 * s2, c1 * c2 - s1 * s2)
  {
    RotateXIsProduct(RotationX(s1, c1), s2, c2);
    Mat4.SlotwiseEqual(RotateX(RotationX(s1, c1), s2, c2), RotationX(s1 * c2 + c1 * s2, c1 * c2 - s1 * s2));
  }

lemma RotateYTwice(m: Mat4.Matrix4, s1: real, c1: real, s2: real, c2: real)
    ensures RotateY(RotateY(m, s1, c1), s2, c2) == RotateY(m, s1 * c2 + c1 * s2, c1 * c2 - s1 * s2)
  {
    var s, c := s1 * c2 + c1 * s2, c1 * c2 - s1 * s2;
    var m1 := RotateY(m, s1, c1);
    RotateYIsProduct(m, s1, c1);
    RotateYIsProduct(m1, s2, c2);
    RotateYIsProduct(m, s, c);
    RotationYTwice(s1, c1, s2, c2);
    PostMultiplyTwice(m, RotationY(s1, c1), RotationY(s2, c2), RotationY(s, c), m1, RotateY(m1, s2, c2));
  }

  lemma RotationYTwice(s1: real, c1: real, s2: real, c2: real)
    ensures Mat4.Multiply(RotationY(s1, c1), RotationY(s2, c2)) == RotationY(s1 * c2 + c1 * s2, c1 * c2 - s1 * s2)
  {
    RotateYIsProduct(RotationY(s1, c1), s2, c2);
    Mat4.SlotwiseEqual(RotateY(RotationY(s1, c1), s2, c2), RotationY(s1 * c2 + c1 * s2, c1 * c2 - s1 * s2));
  }

lemma RotateZTwice(m: Mat4.Matrix4, s1: real, c1: real, s2: real, c2: real)
    ensures RotateZ(RotateZ(m, s1, c1), s2, c2) == RotateZ(m, s1 * c2 + c1 * s2, c1 * c2 - s1 * s2)
  {
    var s, c := s1 * c2 + c1 * s2, c1 * c2 - s1 * s2;
    var m1 := RotateZ(m, s1, c1);
    RotateZIsProduct(m, s1, c1);
    RotateZIsProduct(m1, s2, c2);
    RotateZIsProduct(m, s, c);
    RotationZTwice(s1, c1, s2, c2);
    PostMultiplyTwice(m, RotationZ(s1, c1), RotationZ(s2, c2), RotationZ(s, c), m1, RotateZ(m1, s2, c2));
  }

  lemma RotationZTwice(s1: real, c1: real, s2: real, c2: real)
    ensures Mat4.Multiply(RotationZ(s1, c1), RotationZ(s2, c2)) == RotationZ(s1 * c2 + c1 * s2, c1 * c2 - s1 * s2)
  {
    RotateZIsProduct(RotationZ(s1, c1), s2, c2);
    Mat4.SlotwiseEqual(RotateZ(RotationZ(s1, c1), s2, c2), RotationZ(s1 * c2 + c1 * s2, c1 * c2 - s1 * s2));
  }

  /** Rotating back by the opposite angle (sine negated, same cosine)
      restores the matrix. */
  lemma RotateXUndo(m: Mat4.Matrix4, s: real, c: real)
    requires s * s + c * c == 1.0
    ensures RotateX(RotateX(m, s, c), -s, c) == m
  {
    var back := -s;
    RotateXTwice(m, s, c, back, c);
    Reals.OppositeTurn(s, c);
    assert s * c + c * back == 0.0;
    assert c * c - s * back == 1.0;
    RotateXByZero(m);
  }

  lemma RotateXByZero(m: Mat4.Matrix4)
    ensures RotateX(m, 0.0, 1.0) == m
  {
    Mat4.SlotwiseEqual(RotateX(m, 0.0, 1.0), m);
  }

  lemma RotateYUndo(m: Mat4.Matrix4, s: real, c: real)
    requires s * s + c * c == 1.0
    ensures RotateY(RotateY(m, s, c), -s, c) == m
  {
    var back := -s;
    RotateYTwice(m, s, c, back, c);
    Reals.OppositeTurn(s, c);
    assert s * c + c * back == 0.0;
    assert c * c - s * back == 1.0;
    RotateYByZero(m);
  }

  lemma RotateYByZero(m: Mat4.Matrix4)
    ensures RotateY(m, 0.0, 1.0) == m
  {
    Mat4.SlotwiseEqual(RotateY(m, 0.0, 1.0), m);
  }

  lemma RotateZUndo(m: Mat4.Matrix4, s: real, c: real)
    requires s * s + c * c == 1.0
    ensures RotateZ(RotateZ(m, s, c), -s, c) == m
  {
    var back := -s;
    RotateZTwice(m, s, c, back, c);
    Reals.OppositeTurn(s, c);
    assert s * c + c * back == 0.0;
    assert c * c - s * back == 1.0;
    RotateZByZero(m);
  }

  lemma RotateZByZero(m: Mat4.Matrix4)
    ensures RotateZ(m, 0.0, 1.0) == m
  {
    Mat4.SlotwiseEqual(RotateZ(m, 0.0, 1.0), m);
  }
}
