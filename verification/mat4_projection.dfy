/** Meaning of `mat4.frustum`, `mat4.perspective` and `mat4.ortho`: the
    projection matrices that take eye coordinates to clip coordinates.
    Division by zero is excluded by preconditions; Math.tan is a
    parameter of `Perspective`. */
module Mat4Projection {

  import Reals
  import Mat4

  // ---------------------------------------------------------------------
  // frustum

  /** `mat4.frustum(left, right, bottom, top, near, far)`, the perspective
      matrix of glFrustum. */
  function Frustum(l: real, r: real, b: real, t: real, n: real, f: real): (m: Mat4.Matrix4)
    requires r - l != 0.0 && t - b != 0.0 && f - n != 0.0
    ensures forall v: Mat4.Vector4 :: Mat4.MultiplyVec4(m, v)[3] == -v[2]
  {
    [(2.0 * n) / (r - l), 0.0, 0.0, 0.0,
     0.0, 2.0 * n / (t - b), 0.0, 0.0,
     (r + l) / (r - l), (t + b) / (t - b), -(f + n) / (f - n), -1.0,
     0.0, 0.0, -(2.0 * f * n) / (f - n), 0.0]
  }

  /** The bottom-left corner of the near plane, (left, bottom, -near),
      goes to the corner (-1, -1, -1) of the clip cube once divided by
      w = near. */
  lemma FrustumNearBottomLeft(l: real, r: real, b: real, t: real, n: real, f: real)
    requires r - l != 0.0 && t - b != 0.0 && f - n != 0.0
    ensures Mat4.MultiplyVec4(Frustum(l, r, b, t, n, f), [l, b, -n, 1.0]) == [-n, -n, -n, n]
  {
    var p := Mat4.MultiplyVec4(Frustum(l, r, b, t, n, f), [l, b, -n, 1.0]);
    assert p[0] == -n by { EdgeAtNear(l, r, n); }
    assert p[1] == -n by { EdgeAtNear(b, t, n); }
    assert p[2] == -n by { DepthAtNear(n, f); }
  }

  /** The top-right corner of the near plane goes to (1, 1, -1). */
  lemma FrustumNearTopRight(l: real, r: real, b: real, t: real, n: real, f: real)
    requires r - l != 0.0 && t - b != 0.0 && f - n != 0.0
    ensures Mat4.MultiplyVec4(Frustum(l, r, b, t, n, f), [r, t, -n, 1.0]) == [n, n, -n, n]
  {
    var q := Mat4.MultiplyVec4(Frustum(l, r, b, t, n, f), [r, t, -n, 1.0]);
    assert q[0] == n by { EdgeAtNear(r, l, n); }
    assert q[1] == n by { EdgeAtNear(t, b, n); }
    assert q[2] == -n by { DepthAtNear(n, f); }
  }

  /** The far top-right corner, (right, top) scaled out to the far plane,
      goes to (1, 1, 1) once divided by w = far. */
  lemma FrustumFarCorner(l: real, r: real, b: real, t: real, n: real, f: real)
    requires r - l != 0.0 && t - b != 0.0 && f - n != 0.0 && n != 0.0
    ensures Mat4.MultiplyVec4(Frustum(l, r, b, t, n, f), [r * f / n, t * f / n, -f, 1.0]) == [f, f, f, f]
  {
    var m := Frustum(l, r, b, t, n, f);
    var p := Mat4.MultiplyVec4(m, [r * f / n, t * f / n, -f, 1.0]);
    assert p[0] == f by { EdgeAtFar(l, r, n, f); }
    assert p[1] == f by { EdgeAtFar(b, t, n, f); }
    assert p[2] == f by { DepthAtFar(n, f); }
  }

  /** Row 0 (or 1) of the frustum at a near-plane point on the edge `lo`:
      2n/(hi-lo) * lo - n (hi+lo)/(hi-lo) = n (lo - hi)/(hi - lo). */
  lemma {:induction false} EdgeAtNear(lo: real, hi: real, n: real)
    requires hi - lo != 0.0
    ensures (2.0 * n) / (hi - lo) * lo + 0.0 * 0.0 + (hi + lo) / (hi - lo) * -n + 0.0 * 1.0 == -n
    ensures (2.0 * n) / (lo - hi) * lo + 0.0 * 0.0 + (lo + hi) / (lo - hi) * -n + 0.0 * 1.0 == n
  {
    var d := hi - lo;
    assert (2.0 * n) / d * lo + (hi + lo) / d * -n == n * (lo - hi) / d;
    assert (2.0 * n) / -d * lo + (lo + hi) / -d * -n == n * (hi - lo) / d;
  }

  lemma {:induction false} DepthAtNear(n: real, f: real)
    requires f - n != 0.0
    ensures 0.0 * 0.0 + 0.0 * 0.0 + -(f + n) / (f - n) * -n + -(2.0 * f * n) / (f - n) * 1.0 == -n
  {
    assert -(f + n) / (f - n) * -n + -(2.0 * f * n) / (f - n) == n * (n - f) / (f - n);
  }

  lemma {:induction false} EdgeAtFar(lo: real, hi: real, n: real, f: real)
    requires hi - lo != 0.0 && n != 0.0
    ensures (2.0 * n) / (hi - lo) * (hi * f / n) + 0.0 * 0.0 + (hi + lo) / (hi - lo) * -f + 0.0 * 1.0 == f
  {
    assert (2.0 * n) / (hi - lo) * (hi * f / n) == 2.0 * hi * f / (hi - lo);
  }

  lemma {:induction false} DepthAtFar(n: real, f: real)
    requires f - n != 0.0
    ensures 0.0 * 0.0 + 0.0 * 0.0 + -(f + n) / (f - n) * -f + -(2.0 * f * n) / (f - n) * 1.0 == f
  {
    assert -(f + n) / (f - n) * -f + -(2.0 * f * n) / (f - n) == f * (f - n) / (f - n);
  }

  // ---------------------------------------------------------------------
  // perspective

  /** `mat4.perspective(fovy, aspect, near, far)`. `tanHalf` is what
      Math.tan returns for half the vertical field of view (fovy * pi /
      360 radians); the frustum is the symmetric one whose near plane
      reaches up to near * tanHalf and across to that times aspect, so
      the x and y offsets of the frustum (entries 8 and 9) vanish. */
  function Perspective(tanHalf: real, aspect: real, n: real, f: real): (m: Mat4.Matrix4)
    requires n != 0.0 && tanHalf != 0.0 && aspect != 0.0 && f - n != 0.0
    ensures m[8] == 0.0 && m[9] == 0.0
  {
    var top := n * tanHalf;
    var right := top * aspect;
    HalfExtents(n, tanHalf, aspect, top, right);
    Frustum(-right, right, -top, top, n, f)
  }

  lemma HalfExtents(n: real, tanHalf: real, aspect: real, top: real, right: real)
    requires n != 0.0 && tanHalf != 0.0 && aspect != 0.0
    requires top == n * tanHalf && right == top * aspect
    ensures top - -top != 0.0 && right - -right != 0.0
  {
    Reals.ProductNonzero(n, tanHalf, top);
    Reals.ProductNonzero(top, aspect, right);
  }

  /** The matrix gluPerspective documents, with cot the cotangent of half
      the field of view (reference definition). */
  function GluPerspective(tanHalf: real, aspect: real, n: real, f: real): Mat4.Matrix4
    requires tanHalf != 0.0 && aspect != 0.0 && n - f != 0.0
  {
    var cot := 1.0 / tanHalf;
    [cot / aspect, 0.0, 0.0, 0.0,
     0.0, cot, 0.0, 0.0,
     0.0, 0.0, (f + n) / (n - f), -1.0,
     0.0, 0.0, (2.0 * f * n) / (n - f), 0.0]
  }

  /** `mat4.perspective` builds the gluPerspective matrix. */
  lemma PerspectiveIsGluPerspective(tanHalf: real, aspect: real, n: real, f: real)
    requires n != 0.0 && tanHalf != 0.0 && aspect != 0.0 && f - n != 0.0
    ensures Perspective(tanHalf, aspect, n, f) == GluPerspective(tanHalf, aspect, n, f)
  {
    PerspectiveScales(tanHalf, aspect, n, f);
    PerspectiveDepth(tanHalf, aspect, n, f);
    Mat4.SlotwiseEqual(Perspective(tanHalf, aspect, n, f), GluPerspective(tanHalf, aspect, n, f));
  }

  lemma PerspectiveScales(tanHalf: real, aspect: real, n: real, f: real)
    requires n != 0.0 && tanHalf != 0.0 && aspect != 0.0 && f - n != 0.0
    ensures Perspective(tanHalf, aspect, n, f)[0] == GluPerspective(tanHalf, aspect, n, f)[0]
    ensures Perspective(tanHalf, aspect, n, f)[5] == GluPerspective(tanHalf, aspect, n, f)[5]
  {
    NearOverExtent(n, tanHalf * aspect, n * tanHalf * aspect);
    NearOverExtent(n, tanHalf, n * tanHalf);
    Reals.ReciprocalOfProduct(tanHalf, aspect);
  }

  lemma PerspectiveDepth(tanHalf: real, aspect: real, n: real, f: real)
    requires n != 0.0 && tanHalf != 0.0 && aspect != 0.0 && f - n != 0.0
    ensures Perspective(tanHalf, aspect, n, f)[10] == GluPerspective(tanHalf, aspect, n, f)[10]
    ensures Perspective(tanHalf, aspect, n, f)[14] == GluPerspective(tanHalf, aspect, n, f)[14]
  {
    FlippedDenominator(f + n, f, n);
    FlippedDenominator(2.0 * f * n, f, n);
  }

  /** 2n / (e - -e) with e = n * k is 1 / k. */
  lemma {:induction false} NearOverExtent(n: real, k: real, e: real)
    requires n != 0.0 && k != 0.0 && e == n * k
    ensures 2.0 * n / (e - -e) == 1.0 / k
  {
    assert e - -e == 2.0 * n * k;
  }

  lemma {:induction false} FlippedDenominator(x: real, f: real, n: real)
    requires f - n != 0.0
    ensures -x / (f - n) == x / (n - f)
  {
  }

  // ---------------------------------------------------------------------
  // ortho

  /** `mat4.ortho` as written. Compared with glOrtho, entry 0 divides by
      left - right instead of right - left, and entries 13 and 14 lack the
      minus sign, so the x axis is mirrored and the y and z offsets point
      the wrong way. */
  function OrthoAsWritten(l: real, r: real, b: real, t: real, n: real, f: real): (m: Mat4.Matrix4)
    requires l - r != 0.0 && t - b != 0.0 && f - n != 0.0
    ensures Mat4.IsAffine(m)
  {
    [2.0 / (l - r), 0.0, 0.0, 0.0,
     0.0, 2.0 / (t - b), 0.0, 0.0,
     0.0, 0.0, -2.0 / (f - n), 0.0,
     (l + r) / (l - r), (t + b) / (t - b), (f + n) / (f - n), 1.0]
  }

  /** The orthographic matrix of glOrtho: it maps the box
      [left, right] x [bottom, top] x [-near, -far] onto the clip cube. */
  function Ortho(l: real, r: real, b: real, t: real, n: real, f: real): (m: Mat4.Matrix4)
    requires r - l != 0.0 && t - b != 0.0 && f - n != 0.0
    ensures Mat4.IsAffine(m)
  {
    [2.0 / (r - l), 0.0, 0.0, 0.0,
     0.0, 2.0 / (t - b), 0.0, 0.0,
     0.0, 0.0, -2.0 / (f - n), 0.0,
     -(r + l) / (r - l), -(t + b) / (t - b), -(f + n) / (f - n), 1.0]
  }

  /** glOrtho sends the near bottom-left corner of the box to (-1, -1, -1)
      and the far top-right corner to (1, 1, 1). */
  lemma OrthoCorners(l: real, r: real, b: real, t: real, n: real, f: real)
    requires r - l != 0.0 && t - b != 0.0 && f - n != 0.0
    ensures Mat4.MultiplyVec4(Ortho(l, r, b, t, n, f), [l, b, -n, 1.0]) == [-1.0, -1.0, -1.0, 1.0]
    ensures Mat4.MultiplyVec4(Ortho(l, r, b, t, n, f), [r, t, -f, 1.0]) == [1.0, 1.0, 1.0, 1.0]
  {
    var m := Ortho(l, r, b, t, n, f);
    var p := Mat4.MultiplyVec4(m, [l, b, -n, 1.0]);
    assert p[0] == -1.0 by { OrthoEdges(l, r); }
    assert p[1] == -1.0 by { OrthoEdges(b, t); }
    assert p[2] == -1.0 by { OrthoEdges(n, f); }
    var q := Mat4.MultiplyVec4(m, [r, t, -f, 1.0]);
    assert q[0] == 1.0 by { OrthoEdges(l, r); }
    assert q[1] == 1.0 by { OrthoEdges(b, t); }
    assert q[2] == 1.0 by { OrthoEdges(n, f); }
  }

  /** One axis of glOrtho: the low end goes to -1, the high end to 1. */
  lemma {:induction false} OrthoEdges(lo: real, hi: real)
    requires hi - lo != 0.0
    ensures 2.0 / (hi - lo) * lo + -(hi + lo) / (hi - lo) == -1.0
    ensures 2.0 / (hi - lo) * hi + -(hi + lo) / (hi - lo) == 1.0
    ensures -2.0 / (hi - lo) * -lo + -(hi + lo) / (hi - lo) == -1.0
    ensures -2.0 / (hi - lo) * -hi + -(hi + lo) / (hi - lo) == 1.0
  {
  }

  /** As written, entries 0, 13 and 14 are the negations of glOrtho's and
      every other entry agrees. */
  lemma OrthoAsWrittenMirrors(l: real, r: real, b: real, t: real, n: real, f: real)
    requires r - l != 0.0 && t - b != 0.0 && f - n != 0.0
    ensures var w, g := OrthoAsWritten(l, r, b, t, n, f), Ortho(l, r, b, t, n, f);
      && w[0] == -g[0] && w[13] == -g[13] && w[14] == -g[14]
      && forall k | 0 <= k < 16 && k != 0 && k != 13 && k != 14 :: w[k] == g[k]
  {
    var w, g := OrthoAsWritten(l, r, b, t, n, f), Ortho(l, r, b, t, n, f);
    assert w[0] == -g[0] by { FlippedDenominator(2.0, r, l); }
    assert w[12] == g[12] by { FlippedDenominator(l + r, r, l); }
  }

  /** A concrete box, [-1, 1] x [-1, 1] x [-1, -3]: as written, its near
      bottom-left corner lands at (1, -1, 3), outside the clip cube, where
      glOrtho puts it at (-1, -1, -1). */
  lemma OrthoAsWrittenCounterexample()
    ensures Mat4.MultiplyVec4(OrthoAsWritten(-1.0, 1.0, -1.0, 1.0, 1.0, 3.0), [-1.0, -1.0, -1.0, 1.0]) == [1.0, -1.0, 3.0, 1.0]
    ensures Mat4.MultiplyVec4(Ortho(-1.0, 1.0, -1.0, 1.0, 1.0, 3.0), [-1.0, -1.0, -1.0, 1.0]) == [-1.0, -1.0, -1.0, 1.0]
  {
  }
}
