/** The `vec3` operations of glMatrix.js on mutable arrays, branch by
    branch, including their aliasing conventions: an omitted `dest`
    (`null`) or a `dest` that is the first operand means "work in place";
    any other `dest`, even one that is the second operand, receives the
    result. Every method is proved to compute the pure value of `Vec3`
    from the operands as they were on entry. */
module Vec3Api {

  import Reals
  import Vec3

  /** The first three slots of an array, as a vector. */
  function Head(a: array<real>): Vec3.Vector3
    requires a.Length >= 3
    reads a
  {
    a[..3]
  }

  /** `vec3.add(vec, vec2, dest)`. */
  method Add(vec: array<real>, vec2: array<real>, dest: array?<real>) returns (r: array<real>)
    requires vec.Length >= 3 && vec2.Length >= 3 && (dest != null ==> dest.Length >= 3)
    modifies vec, dest
    ensures r == if dest == null then vec else dest
    ensures Head(r) == Vec3.Add(old(Head(vec)), old(Head(vec2)))
    ensures r[3..] == old(r[3..])
    ensures r != vec ==> vec[..] == old(vec[..])
  {
    ghost var a, b := Head(vec), Head(vec2);
    if dest == null || vec == dest {
      vec[0] := vec[0] + vec2[0];
      vec[1] := vec[1] + vec2[1];
      vec[2] := vec[2] + vec2[2];
      assert Head(vec) == Vec3.Add(a, b);
      return vec;
    }
    dest[0] := vec[0] + vec2[0];
    dest[1] := vec[1] + vec2[1];
    dest[2] := vec[2] + vec2[2];
    assert Head(dest) == Vec3.Add(a, b);
    return dest;
  }

  /** `vec3.subtract(vec, vec2, dest)`. */
  method Subtract(vec: array<real>, vec2: array<real>, dest: array?<real>) returns (r: array<real>)
    requires vec.Length >= 3 && vec2.Length >= 3 && (dest != null ==> dest.Length >= 3)
    modifies vec, dest
    ensures r == if dest == null then vec else dest
    ensures Head(r) == Vec3.Subtract(old(Head(vec)), old(Head(vec2)))
    ensures r[3..] == old(r[3..])
    ensures r != vec ==> vec[..] == old(vec[..])
  {
    ghost var a, b := Head(vec), Head(vec2);
    if dest == null || vec == dest {
      vec[0] := vec[0] - vec2[0];
      vec[1] := vec[1] - vec2[1];
      vec[2] := vec[2] - vec2[2];
      assert Head(vec) == Vec3.Subtract(a, b);
      return vec;
    }
    dest[0] := vec[0] - vec2[0];
    dest[1] := vec[1] - vec2[1];
    dest[2] := vec[2] - vec2[2];
    assert Head(dest) == Vec3.Subtract(a, b);
    return dest;
  }

  /** `vec3.negate(vec, dest)`. */
  method Negate(vec: array<real>, dest: array?<real>) returns (r: array<real>)
    requires vec.Length >= 3 && (dest != null ==> dest.Length >= 3)
    modifies vec, dest
    ensures r == if dest == null then vec else dest
    ensures Head(r) == Vec3.Negate(old(Head(vec)))
    ensures r[3..] == old(r[3..])
    ensures r != vec ==> vec[..] == old(vec[..])
  {
    ghost var a := Head(vec);
    r := if dest == null then vec else dest;
    r[0] := -vec[0];
    r[1] := -vec[1];
    r[2] := -vec[2];
    assert Head(r) == Vec3.Negate(a);
  }

  /** `vec3.scale(vec, val, dest)`. */
  method Scale(vec: array<real>, val: real, dest: array?<real>) returns (r: array<real>)
    requires vec.Length >= 3 && (dest != null ==> dest.Length >= 3)
    modifies vec, dest
    ensures r == if dest == null then vec else dest
    ensures Head(r) == Vec3.Scale(old(Head(vec)), val)
    ensures r[3..] == old(r[3..])
    ensures r != vec ==> vec[..] == old(vec[..])
  {
    ghost var x, y, z := vec[0], vec[1], vec[2];
    ghost var a := Head(vec);
    HeadIs(vec, x, y, z);
    ScaleOf(x, y, z, val);
    if dest == null || vec == dest {
      vec[0], vec[1], vec[2] := vec[0] * val, vec[1] * val, vec[2] * val;
      HeadIs(vec, x * val, y * val, z * val);
      return vec;
    }
    dest[0], dest[1], dest[2] := vec[0] * val, vec[1] * val, vec[2] * val;
    HeadIs(dest, x * val, y * val, z * val);
    return dest;
  }

  /** `vec3.normalize(vec, dest)`; `len` is what Math.sqrt returns for the
      squared length of the operand. The components are read into locals
      before any store, so in place and out of place agree. */
  method Normalize(vec: array<real>, dest: array?<real>, len: real) returns (r: array<real>)
    requires vec.Length >= 3 && (dest != null ==> dest.Length >= 3)
    requires Vec3.IsLength(Head(vec), len)
    modifies vec, dest
    ensures r == if dest == null then vec else dest
    ensures Head(r) == Vec3.Normalize(old(Head(vec)), len)
    ensures r[3..] == old(r[3..])
    ensures r != vec ==> vec[..] == old(vec[..])
  {
    ghost var a := Head(vec);
    r := if dest == null then vec else dest;
    var x, y, z := vec[0], vec[1], vec[2];
    HeadIs(vec, x, y, z);
    if len == 0.0 {
      r[0], r[1], r[2] := 0.0, 0.0, 0.0;
      HeadIs(r, 0.0, 0.0, 0.0);
    } else if len == 1.0 {
      r[0], r[1], r[2] := x, y, z;
      HeadIs(r, x, y, z);
    } else {
      var ilen := 1.0 / len;
      r[0], r[1], r[2] := x * ilen, y * ilen, z * ilen;
      HeadIs(r, x * ilen, y * ilen, z * ilen);
      assert Vec3.Normalize(a, len) == Vec3.Scale(a, ilen);
      ScaleOf(x, y, z, ilen);
    }
  }

  /** `vec3.cross(vec, vec2, dest)` as written: both operand triples are
      read from `vec`, so the result is `Vec3.CrossAsWritten`. */
  method Cross(vec: array<real>, vec2: array<real>, dest: array?<real>) returns (r: array<real>)
    requires vec.Length >= 3 && vec2.Length >= 3 && (dest != null ==> dest.Length >= 3)
    modifies vec, dest
    ensures r == if dest == null then vec else dest
    ensures Head(r) == Vec3.CrossAsWritten(old(Head(vec)), old(Head(vec2)))
    ensures Head(r) == Vec3.Zero()
    ensures r[3..] == old(r[3..])
    ensures r != vec ==> vec[..] == old(vec[..])
  {
    ghost var a, b := Head(vec), Head(vec2);
    r := if dest == null then vec else dest;
    var x, y, z := vec[0], vec[1], vec[2];
    var x2, y2, z2 := vec[0], vec[1], vec[2];
    r[0] := y * z2 - z * y2;
    r[1] := z * x2 - x * z2;
    r[2] := x * y2 - y * x2;
    Reals.RereadCancels(y, z, y2, z2, y * z2, z * y2);
    Reals.RereadCancels(z, x, z2, x2, z * x2, x * z2);
    Reals.RereadCancels(x, y, x2, y2, x * y2, y * x2);
    HeadIs(r, 0.0, 0.0, 0.0);
    Vec3.CrossAsWrittenIsZero(a, b);
  }

  lemma ScaleOf(x: real, y: real, z: real, k: real)
    ensures Vec3.Scale([x, y, z], k) == [x * k, y * k, z * k]
  {
    var s := Vec3.Scale([x, y, z], k);
    assert s[0] == x * k && s[1] == y * k && s[2] == z * k;
  }

  lemma HeadIs(a: array<real>, x: real, y: real, z: real)
    requires a.Length >= 3 && a[0] == x && a[1] == y && a[2] == z
    ensures Head(a) == [x, y, z]
  {
  }

  /** `vec3.length(vec)`: `len` is the value Math.sqrt returns. */
  method Length(vec: array<real>, len: real) returns (r: real)
    requires vec.Length >= 3 && Vec3.IsLength(Head(vec), len)
    ensures r >= 0.0 && r * r == Vec3.SquaredLength(Head(vec))
    ensures r == 0.0 <==> Head(vec) == Vec3.Zero()
  {
    Vec3.LengthProperties(Head(vec), len, len);
    r := len;
  }

  /** `vec3.dot(vec, vec2)`: symmetric in its operands, and the squared
      length when both are the same array. */
  method Dot(vec: array<real>, vec2: array<real>) returns (r: real)
    requires vec.Length >= 3 && vec2.Length >= 3
    ensures r == Vec3.Dot(Head(vec), Head(vec2))
    ensures r == Vec3.Dot(Head(vec2), Head(vec))
    ensures vec == vec2 ==> r == Vec3.SquaredLength(Head(vec))
  {
    r := vec[0] * vec2[0] + vec[1] * vec2[1] + vec[2] * vec2[2];
  }
}
