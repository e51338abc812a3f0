# LVT geometry helpers in Dafny

This project models the general geometry helpers that the LVT dataset
converters (nuScenes and Waymo to the LVT frame format) share. They live in
`src/utils/geometry_utils.py`:

- `translation_and_rotation` splits a 4x4 homogeneous rigid transform into
  two parts. The translation is rows 0..2 of the last column. The rotation is
  the upper-left 3x3 block, turned into a quaternion by the rotation
  library, which returns it scalar-last (x, y, z, w). The function reorders it
  to scalar-first (w, x, y, z), the order LVT expects.
- `is_overlapping` is an axis-aligned bounding-box test. Each box is its
  origin ± half its size on each of the three axes. Touching boxes count as
  overlapping. The first separated axis ends the loop. Orientation is ignored.
- `box_dist` is the Euclidean distance between two box origins.

Everything is in one module, `GeometryUtils` (`geometry_utils.dfy`). Python
floats are idealised as `real`. Two library calls become function parameters:

- `matrixToQuat: Matrix3 -> Quat4` is the matrix-to-quaternion decomposition
  (`R.from_matrix(...).as_quat()`). It is left uninterpreted.
- `sqrt: real -> real` is `math.sqrt`. The ghost predicate `IsSqrt` requires
  it to be the exact non-negative square root. That it is monotone and maps 0
  to 0 is proved from this, not assumed.

`is_overlapping` is a loop with an early exit, so it is a method. It is
proved equal to the all-axes predicate `Overlapping`. The other two
functions are straight-line code, so they are pure functions with lemmas.

## Model

| member | source | states |
|---|---|---|
| `GeometryUtils.TranslationAndRotation` | src/utils/geometry_utils.py:18-40 | The translation's entry i is `m[i][3]` for i in 0..2. The rotation's first component is the decomposition's scalar part (index 3). Moving that scalar back to the end gives exactly the decomposition's scalar-last quaternion. |
| `GeometryUtils.ToScalarFirst` | src/utils/geometry_utils.py:37-38 | The reordered quaternion starts with the scalar `q[3]`. Converting it back to scalar-last order recovers `q`, so the vector part keeps its order. |
| `GeometryUtils.ScalarFirstOfScalarLast` | src/utils/geometry_utils.py:37-38 | The reorder is also a left inverse: scalar-last then scalar-first is the identity. |
| `GeometryUtils.TranslationReadsLastColumn` | src/utils/geometry_utils.py:28-29 | Two matrices that agree on rows 0..2 of column 3 give the same translation. |
| `GeometryUtils.RotationReadsUpperLeftBlock` | src/utils/geometry_utils.py:31-38 | Two matrices that agree on the upper-left 3x3 block give the same rotation. |
| `GeometryUtils.BottomRowIgnored` | src/utils/geometry_utils.py:28-32 | Two matrices that agree on rows 0..2 give identical results: the bottom row affects neither output. |
| `GeometryUtils.IdentityTranslation` | src/utils/geometry_utils.py:28-29 | The identity transform yields translation (0,0,0), whatever the decomposition. |
| `GeometryUtils.IdentityTransform` | src/utils/geometry_utils.py:18-40 | If the decomposition maps the identity rotation to (0,0,0,1), the identity transform yields exactly the pair ((0,0,0), (1,0,0,0)). |
| `GeometryUtils.IsOverlapping` | src/utils/geometry_utils.py:43-57 | The loop with early `return False` returns true exactly when `Overlapping` holds, that is, when on every axis `a_min <= b_max` and `a_max >= b_min` with bounds origin ± size/2. |
| `GeometryUtils.OverlapSymmetric` | src/utils/geometry_utils.py:50-57 | `Overlapping(A, B)` iff `Overlapping(B, A)`. |
| `GeometryUtils.OverlapReadsOnlyOriginAndSize` | src/utils/geometry_utils.py:45-48 | Boxes with equal origins and sizes give the same answer, whatever their rotation, annotation or confidence. |
| `GeometryUtils.OverlapSelf` | src/utils/geometry_utils.py:50-55 | A box overlaps itself iff none of its three sizes is negative. |
| `GeometryUtils.TouchingBoxesOverlap` | src/utils/geometry_utils.py:55 | Bounds are inclusive. Size-2 boxes at x = 0 and x = 2 touch at x = 1 and still overlap. |
| `GeometryUtils.OverlapScenario` | src/utils/geometry_utils.py:50-57 | A size-2 box at (0,0,0) overlaps the size-2 box at (1,1,1). It does not overlap the one at (3,3,3), because [-1,1] and [2,4] are apart. |
| `GeometryUtils.CommonPointOverlaps` | src/utils/geometry_utils.py:50-57 | Two boxes whose closed extents share a point pass the test. |
| `GeometryUtils.OverlapHasCommonPoint` | src/utils/geometry_utils.py:50-57 | Conversely, boxes with non-negative sizes that pass the test share a point. The per-axis test is therefore exact box intersection. |
| `GeometryUtils.SquaredDist` | src/utils/geometry_utils.py:59-62 | The sum of the three squared origin differences is non-negative. It is zero exactly when the origins are equal. |
| `GeometryUtils.SquaredDistSymmetric` | src/utils/geometry_utils.py:60-62 | Swapping the boxes leaves the squared distance unchanged. |
| `GeometryUtils.SqrtOfZero` | src/utils/geometry_utils.py:63 | An exact square root maps 0 to 0. |
| `GeometryUtils.SqrtMonotone` | src/utils/geometry_utils.py:63 | An exact square root is monotone on the non-negative reals. |
| `GeometryUtils.BoxDist` | src/utils/geometry_utils.py:59-63 | The distance is non-negative. Its square is the sum of the three squared per-axis origin differences. |
| `GeometryUtils.BoxDistSquared` | src/utils/geometry_utils.py:59-63 | The square of the distance equals the sum of the three products of the per-axis origin differences, `dx*dx + dy*dy + dz*dz`. |
| `GeometryUtils.BoxDistSymmetric` | src/utils/geometry_utils.py:59-63 | `box_dist(A, B) == box_dist(B, A)`. |
| `GeometryUtils.BoxDistZero` | src/utils/geometry_utils.py:59-63 | The distance is 0 exactly when the two origins are equal. |
| `GeometryUtils.BoxDistReadsOnlyOrigins` | src/utils/geometry_utils.py:60-62 | Only the origins are read: boxes with equal origins are equally far apart, whatever their sizes or other fields. |
| `GeometryUtils.BoxDistTriangle` | src/utils/geometry_utils.py:59-63 | Triangle inequality: `box_dist(A, C) <= box_dist(A, B) + box_dist(B, C)`. It is proved through the Cauchy-Schwarz inequality. |

## Left out

- The matrix-to-quaternion decomposition (geometry_utils.py:35) is an uninterpreted total function parameter. Its numerics are not modelled. Neither are the errors it can raise on a block that is not a valid rotation.
- `math.sqrt` (geometry_utils.py:63) is a parameter assumed to be an exact square root. Floating-point rounding of the square root and of the other arithmetic is not modelled.
- Non-finite floats are not modelled. A NaN coordinate makes every comparison in `is_overlapping` false, so the test returns False. An infinite size gives bounds -inf and +inf, which pass both comparisons at geometry_utils.py:55. Neither case is captured by `real`.
- BoxDist: overflow and underflow in `box_dist` (geometry_utils.py:60-62) are not modelled. With Python floats, `**` raises `OverflowError` once an origin difference exceeds about 1.3e154. A difference of about 1e-200 squares to 0.0. `BoxDistZero`'s "only if" direction therefore holds only for real numbers.
- TranslationAndRotation: the input is a 4x4 matrix by type, as the docstring demands. What numpy slicing would do with other shapes, or with a nested Python list instead of an array, is not modelled.
- IsOverlapping: boxes are a datatype with `origin` and `size` fields. A Python dict with a missing key (a `KeyError`) or with coordinate lists shorter than three (an `IndexError`) is not modelled. `Vec3` also excludes lists longer than three, which the source accepts while reading only entries 0..2.
- The field-index constants at geometry_utils.py:11-16 are unused by the three functions and are not modelled.
- `translation_and_rotation` does no quaternion normalisation and no sign canonicalisation. There is also no pose type with composition or inversion in the code. The model follows the code and has none of these.
- The converter scripts `src/nuscenes-ct.py` and `src/waymo-ct.py` are not part of this model: argument parsing, dataset readers, library box/point transforms, image and file I/O.
