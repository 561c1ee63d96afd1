/** Pure meaning of the basic `mat4` operations of glMatrix.js. A 4x4
    matrix is a flat sequence of sixteen reals in column-major order, as
    WebGL expects: slot `4 * col + row` holds the entry in row `row` and
    column `col`. */
module Mat4 {

  import Buffer
  import Nullable
  import Vec3

  type Matrix4 = m: seq<real> | |m| == 16 witness seq(16, _ => 0.0)

  /** A 4-vector (x, y, z, w) as taken by `mat4.multiplyVec4`. */
  type Vector4 = v: seq<real> | |v| == 4 witness [0.0, 0.0, 0.0, 0.0]

  /** The entry in row `row` and column `col`. */
  function Entry(m: Matrix4, row: int, col: int): real
    requires 0 <= row < 4 && 0 <= col < 4
  {
    m[4 * col + row]
  }

  /** Two matrices with the same entries are the same matrix. */
  lemma EntryExtensional(a: Matrix4, b: Matrix4)
    requires forall i, j | 0 <= i < 4 && 0 <= j < 4 :: Entry(a, i, j) == Entry(b, i, j)
    ensures a == b
  {
    forall k | 0 <= k < 16
      ensures a[k] == b[k]
    {
      assert Entry(a, k % 4, k / 4) == Entry(b, k % 4, k / 4);
    }
  }

  /** Two matrices that agree slot by slot are equal (the sixteen slots
      spelled out, so that each is checked on its own). */
  lemma SlotwiseEqual(a: Matrix4, b: Matrix4)
    requires a[0] == b[0] && a[1] == b[1] && a[2] == b[2] && a[3] == b[3]
    requires a[4] == b[4] && a[5] == b[5] && a[6] == b[6] && a[7] == b[7]
    requires a[8] == b[8] && a[9] == b[9] && a[10] == b[10] && a[11] == b[11]
    requires a[12] == b[12] && a[13] == b[13] && a[14] == b[14] && a[15] == b[15]
    ensures a == b
  {
    assert forall k | 0 <= k < 16 :: a[k] == b[k];
  }

  /** `mat4.create`: a fresh buffer of sixteen zeros, or a copy of the
      first sixteen slots of the array passed in. */
  function Create(src: Nullable.Nullable<seq<real>>): (r: Matrix4)
    requires src.NonNull? ==> |src.value| >= 16
    ensures src.Null? ==> forall k | 0 <= k < 16 :: r[k] == 0.0
    ensures src.NonNull? ==> r == src.value[..16]
  {
    match src
    case Null => Buffer.Zeros(16)
    case NonNull(m) =>
      Buffer.CopySlotsPrefix(m, Buffer.Zeros(16), 16);
      Buffer.CopySlots(m, Buffer.Zeros(16), 16)
  }

  /** `mat4.identity`. */
  function Identity(): (r: Matrix4)
    ensures forall i, j | 0 <= i < 4 && 0 <= j < 4 :: Entry(r, i, j) == if i == j then 1.0 else 0.0
  {
    [1.0, 0.0, 0.0, 0.0,
     0.0, 1.0, 0.0, 0.0,
     0.0, 0.0, 1.0, 0.0,
     0.0, 0.0, 0.0, 1.0]
  }

  /** `mat4.transpose` into a separate destination. */
  function Transpose(m: Matrix4): (r: Matrix4)
    ensures forall i, j | 0 <= i < 4 && 0 <= j < 4 :: Entry(r, i, j) == Entry(m, j, i)
  {
    [m[0], m[4], m[8], m[12],
     m[1], m[5], m[9], m[13],
     m[2], m[6], m[10], m[14],
     m[3], m[7], m[11], m[15]]
  }

  /** `mat4.transpose` in place: the three upper entries of each row are
      cached, then twelve slots are overwritten in the order the source
      writes them; the diagonal is never written. */
  function TransposeInPlace(m: Matrix4): (r: Matrix4)
    ensures forall k | k in {0, 5, 10, 15} :: r[k] == m[k]
  {
    var a01, a02, a03 := m[1], m[2], m[3];
    var a12, a13 := m[6], m[7];
    var a23 := m[11];
    var m1 := m[1 := m[4]];
    var m2 := m1[2 := m1[8]];
    var m3 := m2[3 := m2[12]];
    var m4 := m3[4 := a01];
    var m6 := m4[6 := m4[9]];
    var m7 := m6[7 := m6[13]];
    var m8 := m7[8 := a02];
    var m9 := m8[9 := a12];
    var m11 := m9[11 := m9[14]];
    var m12 := m11[12 := a03];
    var m13 := m12[13 := a13];
    m13[14 := a23]
  }

  /** Transposing in place gives the same matrix as transposing into a
      separate destination. */
  lemma TransposeInPlaceIsTranspose(m: Matrix4)
    ensures TransposeInPlace(m) == Transpose(m)
  {
  }

  lemma TransposeInvolution(m: Matrix4)
    ensures Transpose(Transpose(m)) == m
  {
  }

  /** x0 * y0 + x1 * y1 + x2 * y2 + x3 * y3: a row against a column. */
  function Dot4(x0: real, x1: real, x2: real, x3: real, y0: real, y1: real, y2: real, y3: real): real
  {
    x0 * y0 + x1 * y1 + x2 * y2 + x3 * y3
  }

  /** Row `i` of `a` times column `j` of `b`: entry (i, j) of the
      textbook matrix product a * b. */
  function RowTimesColumn(a: Matrix4, b: Matrix4, i: int, j: int): real
    requires 0 <= i < 4 && 0 <= j < 4
  {
    Dot4(Entry(a, i, 0), Entry(a, i, 1), Entry(a, i, 2), Entry(a, i, 3),
      Entry(b, 0, j), Entry(b, 1, j), Entry(b, 2, j), Entry(b, 3, j))
  }

  /** `mat4.multiply(mat, mat2)`: the matrix product mat * mat2 (apply
      mat2 first, then mat), computed by `ProductSlots`. */
  function Multiply(a: Matrix4, b: Matrix4): (r: Matrix4)
    ensures IsProduct(r, a, b)
  {
    ProductSlotsEntries(a, b);
    ProductSlots(a, b)
  }

  /** The sixteen sums `mat4.multiply` stores, slot by slot and in the
      order the source writes them. */
  function ProductSlots(a: Matrix4, b: Matrix4): Matrix4
  {
    var a00, a01, a02, a03 := a[0], a[1], a[2], a[3];
    var a10, a11, a12, a13 := a[4], a[5], a[6], a[7];
    var a20, a21, a22, a23 := a[8], a[9], a[10], a[11];
    var a30, a31, a32, a33 := a[12], a[13], a[14], a[15];
    var b00, b01, b02, b03 := b[0], b[1], b[2], b[3];
    var b10, b11, b12, b13 := b[4], b[5], b[6], b[7];
    var b20, b21, b22, b23 := b[8], b[9], b[10], b[11];
    var b30, b31, b32, b33 := b[12], b[13], b[14], b[15];
    [b00 * a00 + b01 * a10 + b02 * a20 + b03 * a30,
     b00 * a01 + b01 * a11 + b02 * a21 + b03 * a31,
     b00 * a02 + b01 * a12 + b02 * a22 + b03 * a32,
     b00 * a03 + b01 * a13 + b02 * a23 + b03 * a33,
     b10 * a00 + b11 * a10 + b12 * a20 + b13 * a30,
     b10 * a01 + b11 * a11 + b12 * a21 + b13 * a31,
     b10 * a02 + b11 * a12 + b12 * a22 + b13 * a32,
     b10 * a03 + b11 * a13 + b12 * a23 + b13 * a33,
     b20 * a00 + b21 * a10 + b22 * a20 + b23 * a30,
     b20 * a01 + b21 * a11 + b22 * a21 + b23 * a31,
     b20 * a02 + b21 * a12 + b22 * a22 + b23 * a32,
     b20 * a03 + b21 * a13 + b22 * a23 + b23 * a33,
     b30 * a00 + b31 * a10 + b32 * a20 + b33 * a30,
     b30 * a01 + b31 * a11 + b32 * a21 + b33 * a31,
     b30 * a02 + b31 * a12 + b32 * a22 + b33 * a32,
     b30 * a03 + b31 * a13 + b32 * a23 + b33 * a33]
  }

  /** p is the product a * b, entry by entry. */
  predicate IsProduct(p: Matrix4, a: Matrix4, b: Matrix4)
  {
    forall i, j | 0 <= i < 4 && 0 <= j < 4 :: Entry(p, i, j) == RowTimesColumn(a, b, i, j)
  }

  /** A matrix whose entries are those of the product a * b is
      `Multiply(a, b)`. */
  lemma ProductUnique(p: Matrix4, a: Matrix4, b: Matrix4)
    requires IsProduct(p, a, b)
    ensures p == Multiply(a, b)
  {
    EntryExtensional(p, Multiply(a, b));
  }

  /** Each slot of p is the matching row of a times column of b, for a b
      given by its sixteen slots. */
  predicate SlotsAreProduct(p: Matrix4, a: Matrix4,
      b0: real, b1: real, b2: real, b3: real, b4: real, b5: real, b6: real, b7: real,
      b8: real, b9: real, b10: real, b11: real, b12: real, b13: real, b14: real, b15: real)
  {
    p[0] == Dot4(a[0], a[4], a[8], a[12], b0, b1, b2, b3) &&
    p[1] == Dot4(a[1], a[5], a[9], a[13], b0, b1, b2, b3) &&
    p[2] == Dot4(a[2], a[6], a[10], a[14], b0, b1, b2, b3) &&
    p[3] == Dot4(a[3], a[7], a[11], a[15], b0, b1, b2, b3) &&
    p[4] == Dot4(a[0], a[4], a[8], a[12], b4, b5, b6, b7) &&
    p[5] == Dot4(a[1], a[5], a[9], a[13], b4, b5, b6, b7) &&
    p[6] == Dot4(a[2], a[6], a[10], a[14], b4, b5, b6, b7) &&
    p[7] == Dot4(a[3], a[7], a[11], a[15], b4, b5, b6, b7) &&
    p[8] == Dot4(a[0], a[4], a[8], a[12], b8, b9, b10, b11) &&
    p[9] == Dot4(a[1], a[5], a[9], a[13], b8, b9, b10, b11) &&
    p[10] == Dot4(a[2], a[6], a[10], a[14], b8, b9, b10, b11) &&
    p[11] == Dot4(a[3], a[7], a[11], a[15], b8, b9, b10, b11) &&
    p[12] == Dot4(a[0], a[4], a[8], a[12], b12, b13, b14, b15) &&
    p[13] == Dot4(a[1], a[5], a[9], a[13], b12, b13, b14, b15) &&
    p[14] == Dot4(a[2], a[6], a[10], a[14], b12, b13, b14, b15) &&
    p[15] == Dot4(a[3], a[7], a[11], a[15], b12, b13, b14, b15)
  }

  /** p is the product a * b when its slots say so. */
  lemma ProductBySlots(p: Matrix4, a: Matrix4,
      b0: real, b1: real, b2: real, b3: real, b4: real, b5: real, b6: real, b7: real,
      b8: real, b9: real, b10: real, b11: real, b12: real, b13: real, b14: real, b15: real)
    requires SlotsAreProduct(p, a, b0, b1, b2, b3, b4, b5, b6, b7,
      b8, b9, b10, b11, b12, b13, b14, b15)
    ensures IsProduct(p, a, [b0, b1, b2, b3, b4, b5, b6, b7, b8, b9, b10, b11, b12, b13, b14, b15])
  {
    var b: Matrix4 := [b0, b1, b2, b3, b4, b5, b6, b7, b8, b9, b10, b11, b12, b13, b14, b15];
    forall i, j | 0 <= i < 4 && 0 <= j < 4
      ensures Entry(p, i, j) == RowTimesColumn(a, b, i, j)
    {
      if j == 0 {} else if j == 1 {} else if j == 2 {} else {}
    }
  }

  /** The slot formulas of `mat4.multiply` compute the textbook product. */
  lemma ProductSlotsEntries(a: Matrix4, b: Matrix4)
    ensures IsProduct(ProductSlots(a, b), a, b)
  {
    forall i, j | 0 <= i < 4 && 0 <= j < 4
      ensures Entry(ProductSlots(a, b), i, j) == RowTimesColumn(a, b, i, j)
    {
      if j == 0 {
        ProductSlotsColumn0(a, b, i);
      } else if j == 1 {
        ProductSlotsColumn1(a, b, i);
      } else if j == 2 {
        ProductSlotsColumn2(a, b, i);
      } else {
        ProductSlotsColumn3(a, b, i);
      }
    }
  }

  lemma ProductSlotsColumn0(a: Matrix4, b: Matrix4, i: int)
    requires 0 <= i < 4
    ensures Entry(ProductSlots(a, b), i, 0) == RowTimesColumn(a, b, i, 0)
  {
    if i == 0 {} else if i == 1 {} else if i == 2 {} else {}
  }

  lemma ProductSlotsColumn1(a: Matrix4, b: Matrix4, i: int)
    requires 0 <= i < 4
    ensures Entry(ProductSlots(a, b), i, 1) == RowTimesColumn(a, b, i, 1)
  {
    if i == 0 {} else if i == 1 {} else if i == 2 {} else {}
  }

  lemma ProductSlotsColumn2(a: Matrix4, b: Matrix4, i: int)
    requires 0 <= i < 4
    ensures Entry(ProductSlots(a, b), i, 2) == RowTimesColumn(a, b, i, 2)
  {
    if i == 0 {} else if i == 1 {} else if i == 2 {} else {}
  }

  lemma ProductSlotsColumn3(a: Matrix4, b: Matrix4, i: int)
    requires 0 <= i < 4
    ensures Entry(ProductSlots(a, b), i, 3) == RowTimesColumn(a, b, i, 3)
  {
    if i == 0 {} else if i == 1 {} else if i == 2 {} else {}
  }

  /** The identity matrix is a unit for the product on both sides. */
  lemma MultiplyIdentity(m: Matrix4)
    ensures Multiply(m, Identity()) == m
    ensures Multiply(Identity(), m) == m
  {
  }

  /** Summing a double sum of products row-first or column-first gives the
      same value: the arithmetic core of associativity. */
  lemma RegroupSums(a0: real, a1: real, a2: real, a3: real, b00: real, b01: real, b02: real, b03: real, b10: real, b11: real, b12: real, b13: real, b20: real, b21: real, b22: real, b23: real, b30: real, b31: real, b32: real, b33: real, c0: real, c1: real, c2: real, c3: real, p0: real, p1: real, p2: real, p3: real, q0: real, q1: real, q2: real, q3: real)
    requires p0 == Dot4(a0, a1, a2, a3, b00, b10, b20, b30)
    requires p1 == Dot4(a0, a1, a2, a3, b01, b11, b21, b31)
    requires p2 == Dot4(a0, a1, a2, a3, b02, b12, b22, b32)
    requires p3 == Dot4(a0, a1, a2, a3, b03, b13, b23, b33)
    requires q0 == Dot4(b00, b01, b02, b03, c0, c1, c2, c3)
    requires q1 == Dot4(b10, b11, b12, b13, c0, c1, c2, c3)
    requires q2 == Dot4(b20, b21, b22, b23, c0, c1, c2, c3)
    requires q3 == Dot4(b30, b31, b32, b33, c0, c1, c2, c3)
    ensures Dot4(p0, p1, p2, p3, c0, c1, c2, c3) == Dot4(a0, a1, a2, a3, q0, q1, q2, q3)
  {
    ExpandRowFirst(a0, a1, a2, a3, b00, b01, b02, b03, b10, b11, b12, b13, b20, b21, b22, b23, b30, b31, b32, b33, c0, c1, c2, c3, p0, p1, p2, p3);
    ExpandColumnFirst(a0, a1, a2, a3, b00, b01, b02, b03, b10, b11, b12, b13, b20, b21, b22, b23, b30, b31, b32, b33, c0, c1, c2, c3, q0, q1, q2, q3);
  }
  /** The row-first double sum, expanded into its sixteen products. */
  lemma ExpandRowFirst(a0: real, a1: real, a2: real, a3: real, b00: real, b01: real, b02: real, b03: real, b10: real, b11: real, b12: real, b13: real, b20: real, b21: real, b22: real, b23: real, b30: real, b31: real, b32: real, b33: real, c0: real, c1: real, c2: real, c3: real, p0: real, p1: real, p2: real, p3: real)
    requires p0 == Dot4(a0, a1, a2, a3, b00, b10, b20, b30)
    requires p1 == Dot4(a0, a1, a2, a3, b01, b11, b21, b31)
    requires p2 == Dot4(a0, a1, a2, a3, b02, b12, b22, b32)
    requires p3 == Dot4(a0, a1, a2, a3, b03, b13, b23, b33)
    ensures Dot4(p0, p1, p2, p3, c0, c1, c2, c3) == a0 * b00 * c0 + a0 * b01 * c1 + a0 * b02 * c2 + a0 * b03 * c3 + a1 * b10 * c0 + a1 * b11 * c1 + a1 * b12 * c2 + a1 * b13 * c3 + a2 * b20 * c0 + a2 * b21 * c1 + a2 * b22 * c2 + a2 * b23 * c3 + a3 * b30 * c0 + a3 * b31 * c1 + a3 * b32 * c2 + a3 * b33 * c3
  {
  }
  /** The column-first double sum, expanded into the same sixteen
      products. */
  lemma ExpandColumnFirst(a0: real, a1: real, a2: real, a3: real, b00: real, b01: real, b02: real, b03: real, b10: real, b11: real, b12: real, b13: real, b20: real, b21: real, b22: real, b23: real, b30: real, b31: real, b32: real, b33: real, c0: real, c1: real, c2: real, c3: real, q0: real, q1: real, q2: real, q3: real)
    requires q0 == Dot4(b00, b01, b02, b03, c0, c1, c2, c3)
    requires q1 == Dot4(b10, b11, b12, b13, c0, c1, c2, c3)
    requires q2 == Dot4(b20, b21, b22, b23, c0, c1, c2, c3)
    requires q3 == Dot4(b30, b31, b32, b33, c0, c1, c2, c3)
    ensures Dot4(a0, a1, a2, a3, q0, q1, q2, q3) == a0 * b00 * c0 + a0 * b01 * c1 + a0 * b02 * c2 + a0 * b03 * c3 + a1 * b10 * c0 + a1 * b11 * c1 + a1 * b12 * c2 + a1 * b13 * c3 + a2 * b20 * c0 + a2 * b21 * c1 + a2 * b22 * c2 + a2 * b23 * c3 + a3 * b30 * c0 + a3 * b31 * c1 + a3 * b32 * c2 + a3 * b33 * c3
  {
  }

  /** The matrix product is associative, so a chain of `mat4.multiply`
      calls may be grouped either way. */
  lemma MultiplyAssociative(a: Matrix4, b: Matrix4, c: Matrix4)
    ensures Multiply(Multiply(a, b), c) == Multiply(a, Multiply(b, c))
  {
    var ab, bc := Multiply(a, b), Multiply(b, c);
    forall i, j | 0 <= i < 4 && 0 <= j < 4
      ensures Entry(Multiply(ab, c), i, j) == Entry(Multiply(a, bc), i, j)
    {
      RegroupEntries(a, b, c, ab, bc, i, j);
    }
    EntryExtensional(Multiply(ab, c), Multiply(a, bc));
  }

  /** Entry (i, j) of (a * b) * c equals that of a * (b * c), given the
      entries of the two inner products. */
  lemma RegroupEntries(a: Matrix4, b: Matrix4, c: Matrix4, ab: Matrix4, bc: Matrix4, i: int, j: int)
    requires 0 <= i < 4 && 0 <= j < 4
    requires forall k | 0 <= k < 4 :: Entry(ab, i, k) == RowTimesColumn(a, b, i, k)
    requires forall l | 0 <= l < 4 :: Entry(bc, l, j) == RowTimesColumn(b, c, l, j)
    ensures RowTimesColumn(ab, c, i, j) == RowTimesColumn(a, bc, i, j)
  {
    RegroupSums(Entry(a, i, 0), Entry(a, i, 1), Entry(a, i, 2), Entry(a, i, 3),
      Entry(b, 0, 0), Entry(b, 0, 1), Entry(b, 0, 2), Entry(b, 0, 3),
      Entry(b, 1, 0), Entry(b, 1, 1), Entry(b, 1, 2), Entry(b, 1, 3),
      Entry(b, 2, 0), Entry(b, 2, 1), Entry(b, 2, 2), Entry(b, 2, 3),
      Entry(b, 3, 0), Entry(b, 3, 1), Entry(b, 3, 2), Entry(b, 3, 3),
      Entry(c, 0, j), Entry(c, 1, j), Entry(c, 2, j), Entry(c, 3, j),
      Entry(ab, i, 0), Entry(ab, i, 1), Entry(ab, i, 2), Entry(ab, i, 3),
      Entry(bc, 0, j), Entry(bc, 1, j), Entry(bc, 2, j), Entry(bc, 3, j));
  }

  /** Row `i` of `m` times the column vector `v`. */
  function RowTimesVector(m: Matrix4, v: Vector4, i: int): real
    requires 0 <= i < 4
  {
    Dot4(Entry(m, i, 0), Entry(m, i, 1), Entry(m, i, 2), Entry(m, i, 3), v[0], v[1], v[2], v[3])
  }

  /** `mat4.multiplyVec4` as the matrix-vector product m * v, with the
      fourth slot computed from row 3 (see `MultiplyVec4AsWritten` for what
      the source writes). */
  function MultiplyVec4(m: Matrix4, v: Vector4): (r: Vector4)
    ensures forall i | 0 <= i < 4 :: r[i] == RowTimesVector(m, v, i)
  {
    var x, y, z, w := v[0], v[1], v[2], v[3];
    [m[0] * x + m[4] * y + m[8] * z + m[12] * w,
     m[1] * x + m[5] * y + m[9] * z + m[13] * w,
     m[2] * x + m[6] * y + m[10] * z + m[14] * w,
     m[3] * x + m[7] * y + m[11] * z + m[15] * w]
  }

  /** `mat4.multiplyVec4` as written: slots 0 to 2 receive the first three
      rows of m * v, slot 3 is never written, and slot 4 receives a mix of
      entries 4, 7, 11 and 15; on a four-slot typed array that store is
      lost. */
  function MultiplyVec4AsWritten(m: Matrix4, v: Vector4, dest: seq<real>): (r: seq<real>)
    requires |dest| >= 4
    ensures |r| == |dest|
    ensures r[0] == MultiplyVec4(m, v)[0] && r[1] == MultiplyVec4(m, v)[1] && r[2] == MultiplyVec4(m, v)[2]
    ensures r[3] == dest[3]
    ensures |dest| > 4 ==> r[4] == m[4] * v[0] + m[7] * v[1] + m[11] * v[2] + m[15] * v[3]
    ensures forall k | 5 <= k < |dest| :: r[k] == dest[k]
  {
    var x, y, z, w := v[0], v[1], v[2], v[3];
    var d0 := Buffer.Store(dest, 0, m[0] * x + m[4] * y + m[8] * z + m[12] * w);
    var d1 := Buffer.Store(d0, 1, m[1] * x + m[5] * y + m[9] * z + m[13] * w);
    var d2 := Buffer.Store(d1, 2, m[2] * x + m[6] * y + m[10] * z + m[14] * w);
    var p := MultiplyVec4(m, v);
    assert d2[0] == p[0] && d2[1] == p[1] && d2[2] == p[2] && d2[3] == dest[3];
    Buffer.Store(d2, 4, m[4] * x + m[7] * y + m[11] * z + m[15] * w)
  }

  /** The identity matrix maps the point (0, 0, 0, 1) to itself, but the
      source leaves a fresh four-slot destination's w at 0. */
  lemma MultiplyVec4AsWrittenDropsW()
    ensures MultiplyVec4(Identity(), [0.0, 0.0, 0.0, 1.0]) == [0.0, 0.0, 0.0, 1.0]
    ensures MultiplyVec4AsWritten(Identity(), [0.0, 0.0, 0.0, 1.0], [0.0, 0.0, 0.0, 0.0]) == [0.0, 0.0, 0.0, 0.0]
  {
  }

  /** Transforming by a product is transforming by each factor in turn. */
  lemma MultiplyVec4Compose(a: Matrix4, b: Matrix4, v: Vector4)
    ensures MultiplyVec4(Multiply(a, b), v) == MultiplyVec4(a, MultiplyVec4(b, v))
  {
    var ab, bv := Multiply(a, b), MultiplyVec4(b, v);
    forall i | 0 <= i < 4
      ensures MultiplyVec4(ab, v)[i] == MultiplyVec4(a, bv)[i]
    {
      RegroupComponent(a, b, v, ab, bv, i);
    }
  }

  lemma RegroupComponent(a: Matrix4, b: Matrix4, v: Vector4, ab: Matrix4, bv: Vector4, i: int)
    requires 0 <= i < 4
    requires forall k | 0 <= k < 4 :: Entry(ab, i, k) == RowTimesColumn(a, b, i, k)
    requires forall l | 0 <= l < 4 :: bv[l] == RowTimesVector(b, v, l)
    ensures RowTimesVector(ab, v, i) == RowTimesVector(a, bv, i)
  {
    RegroupSums(Entry(a, i, 0), Entry(a, i, 1), Entry(a, i, 2), Entry(a, i, 3),
      Entry(b, 0, 0), Entry(b, 0, 1), Entry(b, 0, 2), Entry(b, 0, 3),
      Entry(b, 1, 0), Entry(b, 1, 1), Entry(b, 1, 2), Entry(b, 1, 3),
      Entry(b, 2, 0), Entry(b, 2, 1), Entry(b, 2, 2), Entry(b, 2, 3),
      Entry(b, 3, 0), Entry(b, 3, 1), Entry(b, 3, 2), Entry(b, 3, 3),
      v[0], v[1], v[2], v[3],
      Entry(ab, i, 0), Entry(ab, i, 1), Entry(ab, i, 2), Entry(ab, i, 3),
      bv[0], bv[1], bv[2], bv[3]);
  }

  lemma MultiplyVec4Identity(v: Vector4)
    ensures MultiplyVec4(Identity(), v) == v
  {
  }

  /** The point (x, y, z) in homogeneous coordinates, w = 1. */
  function Homogeneous(v: Vec3.Vector3): Vector4
  {
    [v[0], v[1], v[2], 1.0]
  }

  /** `mat4.multiplyVec3`: the point v is transformed as (x, y, z, 1) and
      the first three coordinates are kept (no division by w). */
  function MultiplyVec3(m: Matrix4, v: Vec3.Vector3): (r: Vec3.Vector3)
    ensures r[0] == RowTimesVector(m, Homogeneous(v), 0)
    ensures r[1] == RowTimesVector(m, Homogeneous(v), 1)
    ensures r[2] == RowTimesVector(m, Homogeneous(v), 2)
  {
    RowTimesPoint(m, v, 0);
    RowTimesPoint(m, v, 1);
    RowTimesPoint(m, v, 2);
    var x, y, z := v[0], v[1], v[2];
    [m[0] * x + m[4] * y + m[8] * z + m[12],
     m[1] * x + m[5] * y + m[9] * z + m[13],
     m[2] * x + m[6] * y + m[10] * z + m[14]]
  }

  /** Row `i` against a point: the w = 1 coordinate contributes the
      translation entry unscaled. */
  lemma RowTimesPoint(m: Matrix4, v: Vec3.Vector3, i: int)
    requires 0 <= i < 4
    ensures RowTimesVector(m, Homogeneous(v), i) == Entry(m, i, 0) * v[0] + Entry(m, i, 1) * v[1] + Entry(m, i, 2) * v[2] + Entry(m, i, 3)
  {
  }

  /** An affine matrix keeps w = 1: its bottom row is (0, 0, 0, 1). */
  predicate IsAffine(m: Matrix4)
  {
    m[3] == 0.0 && m[7] == 0.0 && m[11] == 0.0 && m[15] == 1.0
  }

  /** For an affine inner factor, transforming a point by a product is
      transforming it by each factor in turn. */
  lemma MultiplyVec3Compose(a: Matrix4, b: Matrix4, v: Vec3.Vector3)
    requires IsAffine(b)
    ensures MultiplyVec3(Multiply(a, b), v) == MultiplyVec3(a, MultiplyVec3(b, v))
  {
    var bv := MultiplyVec3(b, v);
    assert MultiplyVec4(b, Homogeneous(v)) == Homogeneous(bv);
    MultiplyVec4Compose(a, b, Homogeneous(v));
    assert MultiplyVec3(Multiply(a, b), v) == MultiplyVec4(Multiply(a, b), Homogeneous(v))[..3];
    assert MultiplyVec3(a, bv) == MultiplyVec4(a, Homogeneous(bv))[..3];
  }

  lemma MultiplyVec3Identity(v: Vec3.Vector3)
    ensures MultiplyVec3(Identity(), v) == v
  {
  }

  /** `mat4.set`: the destination receives the first sixteen slots of the
      source. */
  function Set(src: seq<real>, dest: Matrix4): (r: Matrix4)
    requires |src| >= 16
    ensures r == src[..16]
  {
    Buffer.CopySlotsPrefix(src, dest, 16);
    Buffer.CopySlots(src, dest, 16)
  }

  /** Every entry multiplied by k (the final `* id` step of
      `mat4.inverse`). */
  function ScaleEntries(m: Matrix4, k: real): Matrix4
  {
    seq(16, i requires 0 <= i < 16 => m[i] * k)
  }

  /** q is m with every entry multiplied by k. */
  predicate IsScaled(q: Matrix4, m: Matrix4, k: real)
  {
    forall i, j | 0 <= i < 4 && 0 <= j < 4 :: Entry(q, i, j) == Entry(m, i, j) * k
  }

  lemma ScaleEntriesEntry(m: Matrix4, k: real)
    ensures IsScaled(ScaleEntries(m, k), m, k)
  {
  }

  /** Scaling a factor of a product scales the product. */
  lemma MultiplyScaled(a: Matrix4, b: Matrix4, k: real)
    ensures Multiply(a, ScaleEntries(b, k)) == ScaleEntries(Multiply(a, b), k)
    ensures Multiply(ScaleEntries(b, k), a) == ScaleEntries(Multiply(b, a), k)
  {
    var sb := ScaleEntries(b, k);
    ScaleEntriesEntry(b, k);
    ScaleEntriesEntry(Multiply(a, b), k);
    ScaleEntriesEntry(Multiply(b, a), k);
    ScaledProductRight(a, b, sb, Multiply(a, b), Multiply(a, sb), ScaleEntries(Multiply(a, b), k), k);
    ScaledProductLeft(a, b, sb, Multiply(b, a), Multiply(sb, a), ScaleEntries(Multiply(b, a), k), k);
  }

  /** p = a * sb and q = (a * b) scaled, given entrywise; then p == q. */
  lemma ScaledProductRight(a: Matrix4, b: Matrix4, sb: Matrix4, ab: Matrix4, p: Matrix4, q: Matrix4, k: real)
    requires IsScaled(sb, b, k) && IsProduct(p, a, sb)
    requires IsProduct(ab, a, b) && IsScaled(q, ab, k)
    ensures p == q
  {
    forall i, j | 0 <= i < 4 && 0 <= j < 4
      ensures Entry(p, i, j) == Entry(q, i, j)
    {
      ScaledEntryRight(a, b, sb, k, i, j, Entry(p, i, j), Entry(ab, i, j), Entry(q, i, j));
    }
    EntryExtensional(p, q);
  }

  /** p = sb * a and q = (b * a) scaled, given entrywise; then p == q. */
  lemma ScaledProductLeft(a: Matrix4, b: Matrix4, sb: Matrix4, ba: Matrix4, p: Matrix4, q: Matrix4, k: real)
    requires IsScaled(sb, b, k) && IsProduct(p, sb, a)
    requires IsProduct(ba, b, a) && IsScaled(q, ba, k)
    ensures p == q
  {
    forall i, j | 0 <= i < 4 && 0 <= j < 4
      ensures Entry(p, i, j) == Entry(q, i, j)
    {
      ScaledEntryLeft(a, b, sb, k, i, j, Entry(p, i, j), Entry(ba, i, j), Entry(q, i, j));
    }
    EntryExtensional(p, q);
  }

  /** Entry (i, j) of a * sb is k times that of a * b when column j of sb
      is k times column j of b. */
  lemma ScaledEntryRight(a: Matrix4, b: Matrix4, sb: Matrix4, k: real, i: int, j: int, pv: real, abv: real, qv: real)
    requires 0 <= i < 4 && 0 <= j < 4
    requires IsScaled(sb, b, k)
    requires pv == RowTimesColumn(a, sb, i, j)
    requires abv == RowTimesColumn(a, b, i, j)
    requires qv == abv * k
    ensures pv == qv
  {
    ScaledSum(Entry(a, i, 0), Entry(a, i, 1), Entry(a, i, 2), Entry(a, i, 3),
      Entry(b, 0, j), Entry(b, 1, j), Entry(b, 2, j), Entry(b, 3, j),
      Entry(sb, 0, j), Entry(sb, 1, j), Entry(sb, 2, j), Entry(sb, 3, j), k);
  }

  /** Entry (i, j) of sb * a is k times that of b * a when row i of sb is
      k times row i of b. */
  lemma ScaledEntryLeft(a: Matrix4, b: Matrix4, sb: Matrix4, k: real, i: int, j: int, pv: real, bav: real, qv: real)
    requires 0 <= i < 4 && 0 <= j < 4
    requires IsScaled(sb, b, k)
    requires pv == RowTimesColumn(sb, a, i, j)
    requires bav == RowTimesColumn(b, a, i, j)
    requires qv == bav * k
    ensures pv == qv
  {
    ScaledSum(Entry(a, 0, j), Entry(a, 1, j), Entry(a, 2, j), Entry(a, 3, j),
      Entry(b, i, 0), Entry(b, i, 1), Entry(b, i, 2), Entry(b, i, 3),
      Entry(sb, i, 0), Entry(sb, i, 1), Entry(sb, i, 2), Entry(sb, i, 3), k);
  }

  /** Scaling one factor of a row-times-column sum scales the sum. */
  lemma ScaledSum(x0: real, x1: real, x2: real, x3: real, y0: real, y1: real, y2: real, y3: real,
                  z0: real, z1: real, z2: real, z3: real, k: real)
    requires z0 == y0 * k && z1 == y1 * k && z2 == y2 * k && z3 == y3 * k
    ensures Dot4(x0, x1, x2, x3, z0, z1, z2, z3) == Dot4(x0, x1, x2, x3, y0, y1, y2, y3) * k
    ensures Dot4(z0, z1, z2, z3, x0, x1, x2, x3) == Dot4(y0, y1, y2, y3, x0, x1, x2, x3) * k
  {
  }

  /** A product whose entries are d on the diagonal and 0 elsewhere is d
      times the identity. */
  lemma ProductIsScaledIdentity(a: Matrix4, b: Matrix4, d: real)
    requires forall i, j | 0 <= i < 4 && 0 <= j < 4 :: RowTimesColumn(a, b, i, j) == (if i == j then d else 0.0)
    ensures Multiply(a, b) == ScaleEntries(Identity(), d)
  {
    ScaleEntriesEntry(Identity(), d);
    EntryExtensional(Multiply(a, b), ScaleEntries(Identity(), d));
  }

  /** d times the identity, scaled by 1 / d, is the identity. */
  lemma ScaledIdentityInverse(d: real)
    requires d != 0.0
    ensures ScaleEntries(ScaleEntries(Identity(), d), 1.0 / d) == Identity()
  {
    var r := ScaleEntries(ScaleEntries(Identity(), d), 1.0 / d);
    assert d * (1.0 / d) == 1.0;
    forall i | 0 <= i < 16
      ensures r[i] == Identity()[i]
    {
      if i in {0, 5, 10, 15} {
        assert r[i] == (1.0 * d) * (1.0 / d);
      } else {
        assert r[i] == (0.0 * d) * (1.0 / d);
      }
    }
  }
}
