/** Pure meaning of the `mat3` operations of glMatrix.js. A 3x3 matrix is a
    flat sequence of nine reals in column-major order: slot `3 * col + row`
    holds the entry in row `row` and column `col`. The library itself only
    creates and copies 3x3 matrices (they receive the result of
    `mat4.inverse3x3`); the product, identity and determinant below are
    reference definitions used to state what that inverse means. */
module Mat3 {

  import Buffer
  import Nullable

  type Matrix3 = m: seq<real> | |m| == 9 witness seq(9, _ => 0.0)

  /** `mat3.create`: a fresh buffer of nine zeros or, given a source, the
      source's first nine slots. The source code copies ten slots; the
      tenth store lands past the end of the nine-slot typed array and is
      lost. */
  function Create(src: Nullable.Nullable<seq<real>>): (r: Matrix3)
    requires src.NonNull? ==> |src.value| >= 9
    ensures src.Null? ==> forall k | 0 <= k < 9 :: r[k] == 0.0
    ensures src.NonNull? ==> r == src.value[..9]
  {
    match src
    case Null => Buffer.Zeros(9)
    case NonNull(m) =>
      Buffer.CopySlotsPrefix(m, Buffer.Zeros(9), 10);
      Buffer.CopySlots(m, Buffer.Zeros(9), 10)
  }

  /** `mat3.set`: the destination receives the first nine slots of the
      source. */
  function Set(src: seq<real>, dest: Matrix3): (r: Matrix3)
    requires |src| >= 9
    ensures r == src[..9]
  {
    Buffer.CopySlotsPrefix(src, dest, 9);
    Buffer.CopySlots(src, dest, 9)
  }

  /** The 3x3 identity (reference definition). */
  function Identity(): Matrix3
  {
    [1.0, 0.0, 0.0,
     0.0, 1.0, 0.0,
     0.0, 0.0, 1.0]
  }

  /** x0 * y0 + x1 * y1 + x2 * y2: a row of one matrix against a column of
      another. */
  function Dot(x0: real, x1: real, x2: real, y0: real, y1: real, y2: real): real
  {
    x0 * y0 + x1 * y1 + x2 * y2
  }

  /** The product a * b in the same column-major layout as `mat4.multiply`
      (reference definition): slot 3 * j + i is row i of a times column j
      of b. */
  function Multiply(a: Matrix3, b: Matrix3): Matrix3
  {
    [Dot(a[0], a[3], a[6], b[0], b[1], b[2]),
     Dot(a[1], a[4], a[7], b[0], b[1], b[2]),
     Dot(a[2], a[5], a[8], b[0], b[1], b[2]),
     Dot(a[0], a[3], a[6], b[3], b[4], b[5]),
     Dot(a[1], a[4], a[7], b[3], b[4], b[5]),
     Dot(a[2], a[5], a[8], b[3], b[4], b[5]),
     Dot(a[0], a[3], a[6], b[6], b[7], b[8]),
     Dot(a[1], a[4], a[7], b[6], b[7], b[8]),
     Dot(a[2], a[5], a[8], b[6], b[7], b[8])]
  }

  /** The determinant by the rule of Sarrus (reference definition). */
  function Determinant(m: Matrix3): real
  {
    m[0] * m[4] * m[8] + m[3] * m[7] * m[2] + m[6] * m[1] * m[5]
    - m[6] * m[4] * m[2] - m[0] * m[7] * m[5] - m[3] * m[1] * m[8]
  }

  lemma MultiplyIdentity(m: Matrix3)
    ensures Multiply(m, Identity()) == m
    ensures Multiply(Identity(), m) == m
  {
  }

  /** A product whose nine entries are those of the identity is the
      identity. */
  lemma ProductIsIdentity(a: Matrix3, b: Matrix3)
    requires Dot(a[0], a[3], a[6], b[0], b[1], b[2]) == 1.0
    requires Dot(a[1], a[4], a[7], b[0], b[1], b[2]) == 0.0
    requires Dot(a[2], a[5], a[8], b[0], b[1], b[2]) == 0.0
    requires Dot(a[0], a[3], a[6], b[3], b[4], b[5]) == 0.0
    requires Dot(a[1], a[4], a[7], b[3], b[4], b[5]) == 1.0
    requires Dot(a[2], a[5], a[8], b[3], b[4], b[5]) == 0.0
    requires Dot(a[0], a[3], a[6], b[6], b[7], b[8]) == 0.0
    requires Dot(a[1], a[4], a[7], b[6], b[7], b[8]) == 0.0
    requires Dot(a[2], a[5], a[8], b[6], b[7], b[8]) == 1.0
    ensures Multiply(a, b) == Identity()
  {
  }
}
