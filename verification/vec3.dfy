/** Pure meaning of the `vec3` operations of glMatrix.js: a 3-vector is a
    sequence of three reals (x, y, z). The array-level operations in
    `Vec3Api` are proved to compute these values. */
module Vec3 {

  import Reals
  import Buffer
  import Nullable

  type Vector3 = v: seq<real> | |v| == 3 witness [0.0, 0.0, 0.0]

  function Zero(): Vector3
  {
    [0.0, 0.0, 0.0]
  }

  /** `vec3.create`: a fresh buffer of three zeros, or a copy of the
      first three slots of the array passed in. */
  function Create(src: Nullable.Nullable<seq<real>>): (r: Vector3)
    requires src.NonNull? ==> |src.value| >= 3
    ensures src.Null? ==> r == Zero()
    ensures src.NonNull? ==> r == src.value[..3]
  {
    match src
    case Null => Buffer.Zeros(3)
    case NonNull(v) =>
      Buffer.CopySlotsPrefix(v, Buffer.Zeros(3), 3);
      Buffer.CopySlots(v, Buffer.Zeros(3), 3)
  }

  /** `vec3.set`: the destination receives the first three slots of the
      source, whatever it held before. */
  function Set(src: seq<real>, dest: Vector3): (r: Vector3)
    requires |src| >= 3
    ensures r == src[..3]
  {
    Buffer.CopySlotsPrefix(src, dest, 3);
    Buffer.CopySlots(src, dest, 3)
  }

  /** `vec3.add`: componentwise sum; subtracting b again gives back a. */
  function Add(a: Vector3, b: Vector3): (r: Vector3)
    ensures forall i | 0 <= i < 3 :: r[i] == a[i] + b[i]
    ensures Subtract(r, b) == a
  {
    [a[0] + b[0], a[1] + b[1], a[2] + b[2]]
  }

  /** `vec3.subtract`: componentwise difference, zero exactly when the
      operands are equal. */
  function Subtract(a: Vector3, b: Vector3): (r: Vector3)
    ensures forall i | 0 <= i < 3 :: r[i] == a[i] - b[i]
    ensures r == Zero() <==> a == b
  {
    ZeroComponents([a[0] - b[0], a[1] - b[1], a[2] - b[2]]);
    [a[0] - b[0], a[1] - b[1], a[2] - b[2]]
  }

  /** `vec3.negate`: the vector that, subtracted from nothing, is a. */
  function Negate(a: Vector3): (r: Vector3)
    ensures forall i | 0 <= i < 3 :: r[i] == -a[i]
    ensures Subtract(Zero(), a) == r
  {
    [-a[0], -a[1], -a[2]]
  }

  /** `vec3.scale`: componentwise product, which scales the squared length
      by k * k. */
  function Scale(a: Vector3, k: real): (r: Vector3)
    ensures forall i | 0 <= i < 3 :: r[i] == a[i] * k
    ensures SquaredLength(r) == SquaredLength(a) * (k * k)
  {
    var r: Vector3 := [a[0] * k, a[1] * k, a[2] * k];
    Reals.ScaledSumOfSquares(a[0], a[1], a[2], k, r[0], r[1], r[2], SquaredLength(a), SquaredLength(r));
    r
  }

  /** `vec3.dot`; a vector dotted with itself is its squared length. */
  function Dot(a: Vector3, b: Vector3): (r: real)
    ensures a == b ==> r == SquaredLength(a)
  {
    a[0] * b[0] + a[1] * b[1] + a[2] * b[2]
  }

  /** x*x + y*y + z*z, the radicand of `vec3.length`. */
  function SquaredLength(v: Vector3): real
  {
    v[0] * v[0] + v[1] * v[1] + v[2] * v[2]
  }

  /** The squared length is non-negative and vanishes only for the zero
      vector. */
  lemma SquaredLengthZero(v: Vector3)
    ensures SquaredLength(v) >= 0.0
    ensures SquaredLength(v) == 0.0 <==> v == Zero()
  {
    Reals.SumOfSquares(v[0], v[1], v[2], SquaredLength(v));
    ZeroComponents(v);
  }

  lemma ZeroComponents(v: Vector3)
    ensures v == Zero() <==> v[0] == 0.0 && v[1] == 0.0 && v[2] == 0.0
  {
    if v[0] == 0.0 && v[1] == 0.0 && v[2] == 0.0 {
      assert v == [v[0], v[1], v[2]];
    }
  }

  /** `len` is what `Math.sqrt(x * x + y * y + z * z)` returns for `v`: the
      non-negative square root of its squared length. */
  predicate IsLength(v: Vector3, len: real)
  {
    len >= 0.0 && len * len == SquaredLength(v)
  }

  /** The length is determined by the vector, and is zero exactly for the
      zero vector. */
  lemma LengthProperties(v: Vector3, len: real, len': real)
    requires IsLength(v, len) && IsLength(v, len')
    ensures len == len'
    ensures len == 0.0 <==> v == Zero()
  {
    Reals.SquareRootUnique(len, len', SquaredLength(v));
    Reals.Square(len, SquaredLength(v));
    SquaredLengthZero(v);
  }

  lemma DotCommutes(a: Vector3, b: Vector3)
    ensures Dot(a, b) == Dot(b, a)
  {
  }


  /** Subtracting undoes adding, and adding the negation is subtracting. */
  lemma AddSubtractInverse(a: Vector3, b: Vector3)
    ensures Subtract(Add(a, b), b) == a
    ensures Add(a, Negate(b)) == Subtract(a, b)
    ensures Negate(Negate(a)) == a
  {
  }

  /** `vec3.normalize`: the zero vector stays zero, a vector of length 1 is
      returned unchanged, any other is divided by its length. */
  function Normalize(v: Vector3, len: real): (r: Vector3)
    requires IsLength(v, len)
    ensures r == Zero() <==> v == Zero()
    ensures len == 1.0 ==> r == v
    ensures len != 0.0 ==> Scale(r, len) == v
  {
    LengthProperties(v, len, len);
    if len == 0.0 then
      Zero()
    else if len == 1.0 then
      v
    else
      var r := Scale(v, 1.0 / len);
      ScaleByReciprocal(v, len);
      r
  }

  /** Dividing by a non-zero length and multiplying back is the identity. */
  lemma ScaleByReciprocal(v: Vector3, len: real)
    requires len != 0.0
    ensures Scale(Scale(v, 1.0 / len), len) == v
  {
    var k := 1.0 / len;
    var w := Scale(v, k);
    assert w[0] == v[0] * k && w[1] == v[1] * k && w[2] == v[2] * k;
    var u := Scale(w, len);
    assert u[0] == w[0] * len && u[1] == w[1] * len && u[2] == w[2] * len;
    Reals.ReciprocalCancels(v[0], len);
    Reals.ReciprocalCancels(v[1], len);
    Reals.ReciprocalCancels(v[2], len);
    assert u[0] == v[0] && u[1] == v[1] && u[2] == v[2];
  }

  /** A non-zero vector normalizes to a unit vector. */
  lemma NormalizeIsUnit(v: Vector3, len: real)
    requires IsLength(v, len) && len != 0.0
    ensures SquaredLength(Normalize(v, len)) == 1.0
    ensures IsLength(Normalize(v, len), 1.0)
  {
    if len != 1.0 {
      assert Normalize(v, len) == Scale(v, 1.0 / len);
      Reals.ReciprocalSquare(len, SquaredLength(v));
    }
  }

  /** Normalizing twice is normalizing once: the first result has length 1
      (or is zero), so the second call takes a fast path. */
  lemma NormalizeIdempotent(v: Vector3, len: real, len2: real)
    requires IsLength(v, len)
    requires IsLength(Normalize(v, len), len2)
    ensures Normalize(Normalize(v, len), len2) == Normalize(v, len)
  {
    var r := Normalize(v, len);
    if len == 0.0 {
      LengthProperties(r, len2, 0.0);
    } else {
      NormalizeIsUnit(v, len);
      LengthProperties(r, len2, 1.0);
    }
  }

  /** The worked example: (3, 4, 0) has length 5 and normalizes to (0.6, 0.8, 0). */
  lemma NormalizeExample()
    ensures IsLength([3.0, 4.0, 0.0], 5.0)
    ensures Normalize([3.0, 4.0, 0.0], 5.0) == [0.6, 0.8, 0.0]
  {
  }

  /** `vec3.cross` as written: both operand triples are read from the first
      vector, so every component is of the form y*z - z*y. */
  function CrossAsWritten(a: Vector3, b: Vector3): (r: Vector3)
    ensures r == Zero()
  {
    var x, y, z := a[0], a[1], a[2];
    var x2, y2, z2 := a[0], a[1], a[2];
    Reals.RereadCancels(y, z, y2, z2, y * z2, z * y2);
    Reals.RereadCancels(z, x, z2, x2, z * x2, x * z2);
    Reals.RereadCancels(x, y, x2, y2, x * y2, y * x2);
    [y * z2 - z * y2, z * x2 - x * z2, x * y2 - y * x2]
  }

  /** The cross product the function is named after. */
  function Cross(a: Vector3, b: Vector3): (r: Vector3)
    ensures Dot(r, a) == 0.0 && Dot(r, b) == 0.0
  {
    var x, y, z := a[0], a[1], a[2];
    var x2, y2, z2 := b[0], b[1], b[2];
    [y * z2 - z * y2, z * x2 - x * z2, x * y2 - y * x2]
  }

  /** As written, the cross product is always the zero vector, whereas the
      cross product of the x and y unit vectors is the z unit vector. */
  lemma CrossAsWrittenIsZero(a: Vector3, b: Vector3)
    ensures CrossAsWritten(a, b) == Zero()
    ensures CrossAsWritten([1.0, 0.0, 0.0], [0.0, 1.0, 0.0]) != Cross([1.0, 0.0, 0.0], [0.0, 1.0, 0.0])
  {
  }

  lemma CrossAnticommutes(a: Vector3, b: Vector3)
    ensures Cross(a, b) == Negate(Cross(b, a))
    ensures Cross(a, a) == Zero()
  {
  }
}
