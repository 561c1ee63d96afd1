# glMatrix.js 0.9 in Dafny

A model of the vector and matrix core of glMatrix.js 0.9, a small WebGL math
library. The model covers `vec3`, the `mat3` constructors and `mat4`. Vectors
and matrices are sequences of `real`. Matrices are stored column-major as in
OpenGL, so slot `4 * col + row` of a 4x4 matrix is its entry at (row, col)
(`Mat4.Entry`). Buffers are typed arrays (`WebGLFloatArray`). A store past the
end of a typed array is dropped (`Buffer.Store`), and JavaScript's `null` is
`Nullable.Null`.

Modules:

- `Buffer`: typed-array stores and the unrolled copy loops.
- `Nullable`: `null` or a value.
- `Reals`: small facts about real arithmetic.
- `Vec3`: the pure meaning of each `vec3` operation.
- `Vec3Api`: the same operations as methods on `array<real>`, with the
  library's aliasing rule. An omitted `dest`, or a `dest` that is the first
  operand, means the work is done in place.
- `Mat3`: `mat3.create` and `mat3.set`, plus 3x3 product, identity and
  determinant.
- `Mat4`: `mat4.create`, `set`, `identity`, `transpose`, `multiply`,
  `multiplyVec3` and `multiplyVec4`.
- `Mat4Inverse`: `determinant` and `inverse`.
- `Mat4Inverse3x3`: `inverse3x3`.
- `Mat4Transform`: `translate`, `scale`, `rotate`, `rotateX`, `rotateY` and
  `rotateZ`.
- `Mat4Projection`: `frustum`, `perspective` and `ortho`.

`Math.sqrt`, `Math.sin`, `Math.cos` and `Math.tan` are not modelled. Their
results are parameters:

- `len` is a square root when `Vec3.IsLength(v, len)` holds (`len >= 0` and
  `len * len` is the squared length).
- `s` and `c` are the sine and cosine of the angle.
- `tanHalf` is `Math.tan(fovy * Math.PI / 360)`.

Every transformation is proved to be a post-multiplication by a reference
matrix (`Translation`, `Scaling`, `AxisRotation`, `RotationX/Y/Z`). Each
in-place variant is proved equal to the out-of-place one. The proofs also
cover compositions, inverses, and the geometric meaning of the projection
matrices.

In three places the code departs from what the operation's name and the
OpenGL conventions promise. The model follows the code:

- `vec3.cross` reads both operands from its first argument.
- `mat4.multiplyVec4` writes slot 4, not slot 3.
- `mat4.ortho` has the opposite sign from `glOrtho` at slots 0, 13 and 14.

All three are listed under Findings.

## Model

| member | source | states |
|---|---|---|
| Buffer.Store | glMatrix.js:178-180 | a store inside the typed array replaces that one slot and leaves every other slot unchanged; a store past the end leaves the buffer unchanged |
| Buffer.CopySlots | glMatrix.js:167-184 | copying n slots gives slot k from the source when k < n and keeps the destination's slot otherwise, and the length never changes |
| Buffer.CopySlotsPrefix | glMatrix.js:167-184 | copying at least as many slots as the destination holds gives exactly the source's prefix, so extra stores are lost |
| Vec3.Create | glMatrix.js:42-52 | with no argument the result is the zero vector; otherwise it is the argument's first three slots |
| Vec3.Set | glMatrix.js:54-60 | the destination ends up holding the source's first three slots |
| Vec3.Add | glMatrix.js:62-74 | each component is the sum of the operands' components, and subtracting the second operand from the sum gives back the first |
| Vec3.Subtract | glMatrix.js:76-88 | each component is the difference of the operands' components, and the difference is the zero vector exactly when the operands are equal |
| Vec3.Negate | glMatrix.js:90-97 | each component is the negated component, and the result is the zero vector minus the operand |
| Vec3.Scale | glMatrix.js:99-111 | each component is multiplied by the scalar, and the squared length is multiplied by its square |
| Vec3.AddSubtractInverse | glMatrix.js:62-97 | subtract undoes add; adding the negation is subtracting; negation is an involution |
| Vec3.Normalize | glMatrix.js:113-136 | the result is zero exactly when the input is zero; an input of length 1 comes back unchanged; otherwise the result times the length gives back the input |
| Vec3.NormalizeIsUnit | glMatrix.js:113-136 | a nonzero vector normalizes to a vector of squared length 1 whose length is 1 |
| Vec3.NormalizeIdempotent | glMatrix.js:113-136 | normalizing a normalized vector changes nothing |
| Vec3.Cross | glMatrix.js:138-148 | the intended cross product is orthogonal to both operands |
| Vec3.CrossAnticommutes | glMatrix.js:138-148 | the intended cross product is anticommutative, and a vector crossed with itself is zero |
| Vec3.CrossAsWritten | glMatrix.js:138-148 | as written, the result is the zero vector for all operands |
| Vec3.CrossAsWrittenIsZero | glMatrix.js:141-146 | the product as written is the zero vector for all operands, and it differs from the cross product of the x and y unit vectors |
| Vec3.LengthProperties | glMatrix.js:150-153 | the length is unique, and it is 0 exactly for the zero vector |
| Vec3.SquaredLengthZero | glMatrix.js:150-153 | the squared length is nonnegative and is zero exactly for the zero vector |
| Vec3.DotCommutes | glMatrix.js:155-157 | the dot product is symmetric |
| Vec3.Dot | glMatrix.js:150-157 | a vector dotted with itself is the square under the root in length |
| Vec3Api.Add | glMatrix.js:62-74 | returns the first operand when dest is omitted and dest otherwise; its first three slots are the sum of the operands as they were on entry, even when dest is the second operand; the other slots are untouched, and the first operand is unchanged unless it is the result |
| Vec3Api.Subtract | glMatrix.js:76-88 | the same aliasing contract as Add, holding the difference |
| Vec3Api.Negate | glMatrix.js:90-97 | the same aliasing contract, holding the negation |
| Vec3Api.Scale | glMatrix.js:99-111 | the same aliasing contract, holding the scaled vector |
| Vec3Api.Normalize | glMatrix.js:113-136 | the same aliasing contract, holding Vec3.Normalize of the input as it was on entry |
| Vec3Api.Cross | glMatrix.js:138-148 | the same aliasing contract, holding the as-written product, which is always zero |
| Vec3Api.Length | glMatrix.js:150-153 | returns a nonnegative number whose square is the squared length; it is 0 exactly for the zero vector |
| Vec3Api.Dot | glMatrix.js:155-157 | returns the dot product of the two operands, the same with the operands swapped, and the squared length when both are the same array |
| Mat3.Create | glMatrix.js:167-184 | with no argument, nine zeros; otherwise the argument's first nine slots (the tenth store is dropped) |
| Mat3.Set | glMatrix.js:186-197 | the destination ends up holding the source's first nine slots |
| Mat4.Create | glMatrix.js:204-228 | with no argument, sixteen zeros; otherwise the argument's first sixteen slots |
| Mat4.Set | glMatrix.js:230-248 | the destination ends up holding the source's first sixteen slots |
| Mat4.Identity | glMatrix.js:250-268 | entry (i, j) is 1 on the diagonal and 0 off it |
| Mat4.Transpose | glMatrix.js:292-309 | entry (i, j) of the result is entry (j, i) of the input |
| Mat4.TransposeInPlace | glMatrix.js:272-290 | the in-place branch's store sequence, with the saved locals, leaves the diagonal where it was |
| Mat4.TransposeInPlaceIsTranspose | glMatrix.js:270-309 | the in-place and out-of-place branches compute the same matrix |
| Mat4.TransposeInvolution | glMatrix.js:270-309 | transposing twice gives back the matrix |
| Mat4.Multiply | glMatrix.js:401-433 | entry (i, j) of the product is row i of the first matrix times column j of the second |
| Mat4.ProductSlotsEntries | glMatrix.js:415-430 | the sixteen slot formulas, with their operands in the source's order, give row i of the first matrix times column j of the second at entry (i, j) |
| Mat4.MultiplyIdentity | glMatrix.js:401-433 | the identity is a two-sided unit of the product |
| Mat4.MultiplyAssociative | glMatrix.js:401-433 | the product is associative |
| Mat4.MultiplyVec4 | glMatrix.js:447-458 | the intended transform: component i is row i of the matrix times the 4-vector |
| Mat4.MultiplyVec4Compose | glMatrix.js:447-458 | the intended transform by a product is the transform by each factor in turn |
| Mat4.MultiplyVec4Identity | glMatrix.js:447-458 | the identity leaves every 4-vector unchanged |
| Mat4.MultiplyVec4AsWritten | glMatrix.js:447-458 | as written: slots 0 to 2 get the first three rows, slot 3 is never written, slot 4 (if it exists) gets entries 4, 7, 11 and 15 times the vector, and the rest stays the same |
| Mat4.MultiplyVec4AsWrittenDropsW | glMatrix.js:447-458 | the identity maps (0, 0, 0, 1) to itself, but as written a fresh four-slot destination ends as (0, 0, 0, 0) |
| Mat4.MultiplyVec3 | glMatrix.js:435-445 | component i is row i of the matrix times the point with w = 1 |
| Mat4.MultiplyVec3Compose | glMatrix.js:435-445 | transforming a point by a * b, when b is affine, is transforming it by b and then by a |
| Mat4.MultiplyVec3Identity | glMatrix.js:435-445 | the identity leaves every point unchanged |
| Mat4Inverse.Determinant | glMatrix.js:311-324 | for a matrix whose bottom row is (0, 0, 0, 1), the 24-term determinant is the determinant of the upper-left 3x3 block |
| Mat4Inverse.PairMinorDeterminant | glMatrix.js:335-349 | the d computed inside inverse from six pairs of 2x2 minors equals the 24-term determinant |
| Mat4Inverse.DeterminantOfIdentity | glMatrix.js:311-324 | the identity has determinant 1 |
| Mat4Inverse.DeterminantOfTranspose | glMatrix.js:311-324 | a matrix and its transpose have the same determinant |
| Mat4Inverse.AdjugateProducts | glMatrix.js:335-367 | the sixteen numerators of inverse (the adjugate), multiplied with the matrix on either side, give d times the identity |
| Mat4Inverse.Inverse | glMatrix.js:326-370 | for nonzero d the result multiplied with the matrix, in either order, is the identity |
| Mat4Inverse.InverseUnique | glMatrix.js:326-370 | any right inverse of an invertible matrix equals the computed inverse |
| Mat4Inverse3x3.UpperLeft | glMatrix.js:373-376 | the nine cached slots are the upper-left 3x3 block, entry by entry |
| Mat4Inverse3x3.BlockDeterminant | glMatrix.js:378-382 | the d tested by inverse3x3 is the determinant of the upper-left block |
| Mat4Inverse3x3.Inverse3x3 | glMatrix.js:372-399 | the result is null exactly when the block's determinant is zero |
| Mat4Inverse3x3.Inverse3x3IsInverse | glMatrix.js:372-399 | for a nonzero determinant the result is a two-sided inverse of the upper-left block |
| Mat4Inverse3x3.Inverse3x3Slots | glMatrix.js:383-397 | for a nonzero determinant, slot k of the result is numerator k times 1 / d |
| Mat4Inverse3x3.BlockInverse | glMatrix.js:383-397 | the numerators times 1 / d are a two-sided inverse of the block |
| Mat4Inverse3x3.CofactorRight | glMatrix.js:378-396 | the block times the nine numerators of inverse3x3 (the Cofactors function) is d times the identity |
| Mat4Inverse3x3.CofactorLeft | glMatrix.js:378-396 | the nine numerators of inverse3x3 (the Cofactors function) times the block is d times the identity |
| Mat4Transform.Translation | glMatrix.js:460-493 | the translation matrix is affine |
| Mat4Transform.Translate | glMatrix.js:470-492 | the out-of-place branch copies slots 0 to 11 |
| Mat4Transform.TranslateInPlace | glMatrix.js:463-468 | the in-place branch leaves slots 0 to 11 untouched |
| Mat4Transform.TranslateInPlaceIsTranslate | glMatrix.js:460-493 | both aliasing modes compute the same matrix |
| Mat4Transform.TranslateIsProduct | glMatrix.js:460-493 | translate post-multiplies by the translation matrix |
| Mat4Transform.TranslationMovesPoints | glMatrix.js:460-493 | the translation matrix moves every point by v |
| Mat4Transform.TranslateThenTransform | glMatrix.js:460-493 | a translated matrix maps p to where the original maps p + v |
| Mat4Transform.TranslateTwice | glMatrix.js:460-493 | translating by u and then by v is translating by u + v |
| Mat4Transform.TranslationTwice | glMatrix.js:460-493 | the product of the translations by u and by v is the translation by u + v |
| Mat4Transform.Scaling | glMatrix.js:495-531 | the scaling matrix is affine |
| Mat4Transform.Scale | glMatrix.js:514-530 | the out-of-place branch copies slots 12 to 15 |
| Mat4Transform.ScaleInPlace | glMatrix.js:498-511 | the in-place branch leaves slots 12 to 15 untouched |
| Mat4Transform.ScaleInPlaceIsScale | glMatrix.js:495-531 | both aliasing modes compute the same matrix |
| Mat4Transform.ScaleIsProduct | glMatrix.js:495-531 | scale post-multiplies by the scaling matrix |
| Mat4Transform.ScalingMovesPoints | glMatrix.js:495-531 | the scaling matrix multiplies each coordinate by its factor |
| Mat4Transform.ScaleTwice | glMatrix.js:495-531 | scaling by u and then by v is scaling by the componentwise product |
| Mat4Transform.ScalingTwice | glMatrix.js:495-531 | the product of the scalings by u and by v is the scaling by the componentwise product |
| Mat4Transform.AxisRotation | glMatrix.js:553-555 | the rotation about an axis (the b coefficients) is affine |
| Mat4Transform.AxisRotationCoefficients | glMatrix.js:553-555 | the rotation's upper-left slots are the b coefficients, and its last row and column are those of the identity |
| Mat4Transform.Rotate | glMatrix.js:533-582 | the result is null exactly when the axis is zero; otherwise slots 12 to 15 are those of the input |
| Mat4Transform.RotateIsProduct | glMatrix.js:533-582 | for a nonzero axis, rotate post-multiplies by the rotation about the normalized axis |
| Mat4Transform.MultiplyUpperLeft | glMatrix.js:557-581 | the rotation-specific product leaves slots 12 to 15 where they were |
| Mat4Transform.MultiplyUpperLeftIsProduct | glMatrix.js:566-580 | for a linear right factor, the rotation-specific product is the full product |
| Mat4Transform.AxisRotationFixesAxis | glMatrix.js:553-555 | the rotation about a unit axis leaves the axis fixed |
| Mat4Transform.RotateFixesAxis | glMatrix.js:533-582 | a rotated matrix maps points of the normalized axis where the original maps them |
| Mat4Transform.RotationX | glMatrix.js:584-617 | the reference rotation about x is affine |
| Mat4Transform.RotationY | glMatrix.js:619-652 | the reference rotation about y is affine |
| Mat4Transform.RotationZ | glMatrix.js:654-688 | the reference rotation about z is affine |
| Mat4Transform.RotateX | glMatrix.js:584-617 | slots 0 to 3 and 12 to 15 are those of the input |
| Mat4Transform.RotateY | glMatrix.js:619-652 | slots 4 to 7 and 12 to 15 are those of the input |
| Mat4Transform.RotateZ | glMatrix.js:654-688 | slots 8 to 15 are those of the input |
| Mat4Transform.RotateXIsProduct | glMatrix.js:584-617 | rotateX post-multiplies by the rotation about x |
| Mat4Transform.RotateYIsProduct | glMatrix.js:619-652 | rotateY post-multiplies by the rotation about y |
| Mat4Transform.RotateZIsProduct | glMatrix.js:654-688 | rotateZ post-multiplies by the rotation about z |
| Mat4Transform.CoordinateAxisRotations | glMatrix.js:533-688 | the general rotation about a unit coordinate axis is the matching axis-specific rotation matrix |
| Mat4Transform.RotateAboutCoordinateAxes | glMatrix.js:533-688 | rotate about (1,0,0), (0,1,0) or (0,0,1) agrees with rotateX, rotateY or rotateZ |
| Mat4Transform.RotateXTwice | glMatrix.js:584-617 | two rotations about x compose by the angle-addition formulas |
| Mat4Transform.RotateYTwice | glMatrix.js:619-652 | two rotations about y compose by the angle-addition formulas |
| Mat4Transform.RotateZTwice | glMatrix.js:654-688 | two rotations about z compose by the angle-addition formulas |
| Mat4Transform.RotationXTwice | glMatrix.js:584-617 | the product of two x rotation matrices is the x rotation by the summed angle |
| Mat4Transform.RotationYTwice | glMatrix.js:619-652 | the product of two y rotation matrices is the y rotation by the summed angle |
| Mat4Transform.RotationZTwice | glMatrix.js:654-688 | the product of two z rotation matrices is the z rotation by the summed angle |
| Mat4Transform.RotateXUndo | glMatrix.js:584-617 | rotating about x by an angle and then by its opposite gives back the matrix |
| Mat4Transform.RotateYUndo | glMatrix.js:619-652 | rotating about y by an angle and then by its opposite gives back the matrix |
| Mat4Transform.RotateZUndo | glMatrix.js:654-688 | rotating about z by an angle and then by its opposite gives back the matrix |
| Mat4Transform.RotateXByZero | glMatrix.js:584-617 | rotating about x by angle 0 changes nothing |
| Mat4Transform.RotateYByZero | glMatrix.js:619-652 | rotating about y by angle 0 changes nothing |
| Mat4Transform.RotateZByZero | glMatrix.js:654-688 | rotating about z by angle 0 changes nothing |
| Mat4Projection.Frustum | glMatrix.js:690-708 | the clip w of every point is minus its eye-space z |
| Mat4Projection.FrustumNearBottomLeft | glMatrix.js:690-708 | the near bottom-left corner goes to normalized coordinates (-1, -1, -1) |
| Mat4Projection.FrustumNearTopRight | glMatrix.js:690-708 | the near top-right corner goes to normalized x = y = 1 and z = -1 |
| Mat4Projection.FrustumFarCorner | glMatrix.js:690-708 | the far top-right corner goes to normalized coordinates (1, 1, 1) |
| Mat4Projection.Perspective | glMatrix.js:710-714 | the symmetric frustum has no off-centre terms (slots 8 and 9 are 0) |
| Mat4Projection.HalfExtents | glMatrix.js:710-714 | the frustum that perspective builds has nonzero width and height |
| Mat4Projection.PerspectiveIsGluPerspective | glMatrix.js:710-714 | perspective is the gluPerspective matrix with cot(fovy / 2) = 1 / tanHalf |
| Mat4Projection.PerspectiveScales | glMatrix.js:710-714 | the x and y scale factors are those of gluPerspective |
| Mat4Projection.PerspectiveDepth | glMatrix.js:710-714 | the depth slots are those of gluPerspective |
| Mat4Projection.OrthoAsWritten | glMatrix.js:716-734 | the matrix as written is affine |
| Mat4Projection.OrthoAsWrittenMirrors | glMatrix.js:716-734 | the matrix as written is the negation of glOrtho's at slots 0, 13 and 14 and equals it everywhere else |
| Mat4Projection.OrthoAsWrittenCounterexample | glMatrix.js:716-734 | for the box [-1,1] x [-1,1] x [1,3] the near bottom-left corner goes to (1, -1, 3), not (-1, -1, -1) |
| Mat4Projection.Ortho | glMatrix.js:716-734 | glOrtho's matrix is affine |
| Mat4Projection.OrthoCorners | glMatrix.js:716-734 | glOrtho's matrix maps the near bottom-left corner to (-1, -1, -1) and the far top-right corner to (1, 1, 1) |

## Left out

- `Math.sqrt`, `Math.sin`, `Math.cos` and `Math.tan` are not modelled. Their values enter as parameters: `len` with `Vec3.IsLength`, `s` and `c`, and `tanHalf`. Nothing relates `s` and `c` to an angle; only the Undo lemmas assume `s * s + c * c == 1`.
- IEEE floating point is not modelled. Numbers are exact reals, so rounding, infinities and NaN are absent. The source divides without checking in `inverse`, `frustum`, `perspective` and `ortho`. In the model a zero denominator is a precondition, and a nonzero determinant is a precondition of `Mat4Inverse.Inverse`.
- `glMatrixArrayType` falls back to a plain `Array` when `WebGLFloatArray` is missing. That case is not modelled: every buffer is a fixed-length typed array. A plain array would grow on the extra stores of `mat3.create` and `multiplyVec4`.
- `mat4.str` is not modelled because it only formats text.
- `Mat4Inverse3x3.Inverse3x3`: the optional `dest` argument and the fresh `mat3.create()` buffer are not modelled. The result is the nine slots written. When d is 0 the function returns null before writing anything, and the model returns `Nullable.Null`.
- The `mat4` operations are modelled as pure functions, not as array methods. The in-place branch of `transpose`, `translate` and `scale` is modelled as its own function (`TransposeInPlace`, `TranslateInPlace`, `ScaleInPlace`) and proved equal to the out-of-place branch. `multiply`, `inverse`, `rotate` and the axis rotations read every operand slot into locals before storing. So their in-place and out-of-place branches compute the same slots, and one function stands for both.
- `frustum`, `perspective` and `ortho` always overwrite all sixteen slots of their required `dest`. The model returns the sixteen values as a fresh matrix.
- `perspective` takes `fovy` in degrees; the conversion `fovy * Math.PI / 360` happens inside the `tanHalf` parameter.

## Findings

| source | as written | input that shows it | evidently intended | confidence | as-written member | corrected member |
|---|---|---|---|---|---|---|
| glMatrix.js:141-146 | `vec3.cross` loads x2, y2 and z2 from `vec` instead of `vec2`, so every result is the zero vector | vec = (1, 0, 0), vec2 = (0, 1, 0) gives (0, 0, 0), not (0, 0, 1) | the second triple is read from `vec2`, giving the cross product | not executed | Vec3.CrossAsWrittenIsZero | Vec3.CrossAnticommutes |
| glMatrix.js:455 | `mat4.multiplyVec4` stores the fourth component into `dest[4]`, from slots 4, 7, 11 and 15, and never writes `dest[3]` | the identity applied to (0, 0, 0, 1) with a fresh four-slot dest gives (0, 0, 0, 0), not (0, 0, 0, 1) | `dest[3] = mat[3] * x + mat[7] * y + mat[11] * z + mat[15] * w` | not executed | Mat4.MultiplyVec4AsWrittenDropsW | Mat4.MultiplyVec4Compose |
| glMatrix.js:717-733 | `mat4.ortho` has slot 0 = 2 / (left - right), slot 13 = (top + bottom) / (top - bottom) and slot 14 = (far + near) / (far - near), the negations of glOrtho's | box [-1, 1] x [-1, 1] x [1, 3]: the near bottom-left corner (-1, -1, -1) goes to (1, -1, 3), outside the clip cube | glOrtho's matrix, which sends the near bottom-left corner to (-1, -1, -1) and the far top-right corner to (1, 1, 1) | not executed | Mat4Projection.OrthoAsWrittenCounterexample | Mat4Projection.OrthoCorners |
