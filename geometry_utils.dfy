/** Model of the LVT converters' general geometry helpers: splitting a rigid
    transform into a translation and a scalar-first quaternion, the
    axis-aligned box overlap test and the distance between box origins.
    Python floats are idealised as `real`. */
module GeometryUtils {

  /** Three components: an origin, a size or a translation. */
  type Vec3 = v: seq<real> | |v| == 3 witness [0.0, 0.0, 0.0]

  /** Four quaternion components; the order (scalar-first or scalar-last)
      is given by the context. */
  type Quat4 = q: seq<real> | |q| == 4 witness [0.0, 0.0, 0.0, 1.0]

  /** `m` is a rows-by-cols matrix stored row by row. */
  predicate IsMatrix(m: seq<seq<real>>, rows: nat, cols: nat) {
    |m| == rows && forall i :: 0 <= i < rows ==> |m[i]| == cols
  }

  /** A 4x4 homogeneous rigid transform. */
  type Matrix4 = m: seq<seq<real>> | IsMatrix(m, 4, 4)
    witness [[0.0, 0.0, 0.0, 0.0], [0.0, 0.0, 0.0, 0.0], [0.0, 0.0, 0.0, 0.0], [0.0, 0.0, 0.0, 0.0]]

  /** A 3x3 rotation block. */
  type Matrix3 = m: seq<seq<real>> | IsMatrix(m, 3, 3)
    witness [[0.0, 0.0, 0.0], [0.0, 0.0, 0.0], [0.0, 0.0, 0.0]]

  const Identity4: Matrix4 :=
    [[1.0, 0.0, 0.0, 0.0], [0.0, 1.0, 0.0, 0.0], [0.0, 0.0, 1.0, 0.0], [0.0, 0.0, 0.0, 1.0]]

  // ---------------------------------------------------------------------
  // translation_and_rotation
  // ---------------------------------------------------------------------

  /** The first three entries of the last column. */
  function Translation(m: Matrix4): Vec3 {
    [m[0][3], m[1][3], m[2][3]]
  }

  /** The upper-left 3x3 block. */
  function RotationBlock(m: Matrix4): Matrix3 {
    [m[0][..3], m[1][..3], m[2][..3]]
  }

  /** Reorders a scalar-last quaternion (x, y, z, w) into scalar-first
      (w, x, y, z): the scalar moves to the front, the vector part keeps
      its order, and moving the scalar back to the end recovers `q`. */
  function ToScalarFirst(q: Quat4): (r: Quat4)
    ensures r[0] == q[3]
    ensures ToScalarLast(r) == q
  {
    [q[3], q[0], q[1], q[2]]
  }

  /** Reorders a scalar-first quaternion (w, x, y, z) into scalar-last
      (x, y, z, w). */
  function ToScalarLast(q: Quat4): Quat4 {
    [q[1], q[2], q[3], q[0]]
  }

  lemma ScalarFirstOfScalarLast(q: Quat4)
    ensures ToScalarFirst(ToScalarLast(q)) == q
  {
  }

  /** Splits a rigid transform into its translation and a scalar-first
      rotation quaternion. `matrixToQuat` stands for the rotation library's
      matrix-to-quaternion decomposition, which yields scalar-last order. */
  function TranslationAndRotation(m: Matrix4, matrixToQuat: Matrix3 -> Quat4): (r: (Vec3, Quat4))
    ensures forall i :: 0 <= i < 3 ==> r.0[i] == m[i][3]
    ensures r.1[0] == matrixToQuat(RotationBlock(m))[3]
    ensures ToScalarLast(r.1) == matrixToQuat(RotationBlock(m))
  {
    (Translation(m), ToScalarFirst(matrixToQuat(RotationBlock(m))))
  }

  /** The translation depends only on rows 0..2 of the last column. */
  lemma TranslationReadsLastColumn(m1: Matrix4, m2: Matrix4, matrixToQuat: Matrix3 -> Quat4)
    requires forall i :: 0 <= i < 3 ==> m1[i][3] == m2[i][3]
    ensures TranslationAndRotation(m1, matrixToQuat).0 == TranslationAndRotation(m2, matrixToQuat).0
  {
  }

  /** The rotation depends only on the upper-left 3x3 block. */
  lemma RotationReadsUpperLeftBlock(m1: Matrix4, m2: Matrix4, matrixToQuat: Matrix3 -> Quat4)
    requires forall i, j :: 0 <= i < 3 && 0 <= j < 3 ==> m1[i][j] == m2[i][j]
    ensures TranslationAndRotation(m1, matrixToQuat).1 == TranslationAndRotation(m2, matrixToQuat).1
  {
    assert RotationBlock(m1) == RotationBlock(m2) by {
      forall i | 0 <= i < 3
        ensures RotationBlock(m1)[i] == RotationBlock(m2)[i]
      {
        assert RotationBlock(m1)[i] == m1[i][..3];
        assert RotationBlock(m2)[i] == m2[i][..3];
      }
    }
  }

  /** Two transforms that agree on rows 0..2 give the same result: the
      bottom row affects neither output. */
  lemma BottomRowIgnored(m1: Matrix4, m2: Matrix4, matrixToQuat: Matrix3 -> Quat4)
    requires m1[..3] == m2[..3]
    ensures TranslationAndRotation(m1, matrixToQuat) == TranslationAndRotation(m2, matrixToQuat)
  {
  }

  /** The identity transform has zero translation, whatever the
      decomposition. */
  lemma IdentityTranslation(matrixToQuat: Matrix3 -> Quat4)
    ensures TranslationAndRotation(Identity4, matrixToQuat).0 == [0.0, 0.0, 0.0]
  {
  }

  /** The identity transform has zero translation and, if the decomposition
      maps the identity rotation to (0, 0, 0, 1), the identity quaternion
      (1, 0, 0, 0). */
  lemma IdentityTransform(matrixToQuat: Matrix3 -> Quat4)
    requires matrixToQuat([[1.0, 0.0, 0.0], [0.0, 1.0, 0.0], [0.0, 0.0, 1.0]]) == [0.0, 0.0, 0.0, 1.0]
    ensures TranslationAndRotation(Identity4, matrixToQuat) == ([0.0, 0.0, 0.0], [1.0, 0.0, 0.0, 0.0])
  {
    assert Identity4[0][..3] == [1.0, 0.0, 0.0];
    assert Identity4[1][..3] == [0.0, 1.0, 0.0];
    assert Identity4[2][..3] == [0.0, 0.0, 1.0];
  }

  // ---------------------------------------------------------------------
  // Boxes: is_overlapping and box_dist
  // ---------------------------------------------------------------------

  /** An annotated 3D box. Only `origin` and `size` take part in the overlap
      test and the distance; the orientation is ignored by both. */
  datatype Box = Box(origin: Vec3, size: Vec3, rotation: Quat4, annotation: string, confidence: real)

  /** Lower end of the box's extent along `axis`. */
  function Low(b: Box, axis: nat): real
    requires axis < 3
  {
    b.origin[axis] - b.size[axis] / 2.0
  }

  /** Upper end of the box's extent along `axis`. */
  function High(b: Box, axis: nat): real
    requires axis < 3
  {
    b.origin[axis] + b.size[axis] / 2.0
  }

  /** The two extents along `axis` meet; touching counts. */
  predicate OverlapsOnAxis(b1: Box, b2: Box, axis: nat)
    requires axis < 3
  {
    Low(b1, axis) <= High(b2, axis) && High(b1, axis) >= Low(b2, axis)
  }

  /** Axis-aligned overlap: the extents meet on every axis. */
  predicate Overlapping(b1: Box, b2: Box) {
    forall axis: nat :: axis < 3 ==> OverlapsOnAxis(b1, b2, axis)
  }

  /** Checks the three axes in turn and stops at the first one on which the
      boxes are separated. */
  method IsOverlapping(box1: Box, box2: Box) returns (overlapping: bool)
    ensures overlapping <==> Overlapping(box1, box2)
  {
    var o1, s1 := box1.origin, box1.size;
    var o2, s2 := box2.origin, box2.size;
    for i := 0 to 3
      invariant forall axis: nat :: axis < i ==> OverlapsOnAxis(box1, box2, axis)
    {
      var aMax := o1[i] + s1[i] / 2.0;
      var aMin := o1[i] - s1[i] / 2.0;
      var bMax := o2[i] + s2[i] / 2.0;
      var bMin := o2[i] - s2[i] / 2.0;
      if !(aMin <= bMax && aMax >= bMin) {
        assert !OverlapsOnAxis(box1, box2, i);
        return false;
      }
    }
    return true;
  }

  lemma OverlapSymmetric(b1: Box, b2: Box)
    ensures Overlapping(b1, b2) <==> Overlapping(b2, b1)
  {
    forall axis: nat | axis < 3
      ensures OverlapsOnAxis(b1, b2, axis) <==> OverlapsOnAxis(b2, b1, axis)
    {
    }
  }

  /** Only origins and sizes are read. */
  lemma OverlapReadsOnlyOriginAndSize(b1: Box, b2: Box, c1: Box, c2: Box)
    requires b1.origin == c1.origin && b1.size == c1.size
    requires b2.origin == c2.origin && b2.size == c2.size
    ensures Overlapping(b1, b2) <==> Overlapping(c1, c2)
  {
    forall axis: nat | axis < 3
      ensures OverlapsOnAxis(b1, b2, axis) <==> OverlapsOnAxis(c1, c2, axis)
    {
    }
  }

  /** A box overlaps itself exactly when none of its sizes is negative. */
  lemma OverlapSelf(b: Box)
    ensures Overlapping(b, b) <==> forall axis: nat :: axis < 3 ==> b.size[axis] >= 0.0
  {
    forall axis: nat | axis < 3
      ensures OverlapsOnAxis(b, b, axis) <==> b.size[axis] >= 0.0
    {
    }
  }

  /** Boxes whose extents only touch on an axis still overlap there. */
  lemma TouchingBoxesOverlap()
    ensures Overlapping(Box([0.0, 0.0, 0.0], [2.0, 2.0, 2.0], [1.0, 0.0, 0.0, 0.0], "a", 100.0),
                        Box([2.0, 0.0, 0.0], [2.0, 2.0, 2.0], [1.0, 0.0, 0.0, 0.0], "b", 100.0))
  {
  }

  /** Cubes of side 2: the one centred at (1,1,1) overlaps the one at the
      origin; the one centred at (3,3,3) does not, as [-1,1] and [2,4] are apart. */
  lemma OverlapScenario()
    ensures Overlapping(Box([0.0, 0.0, 0.0], [2.0, 2.0, 2.0], [1.0, 0.0, 0.0, 0.0], "a", 100.0),
                        Box([1.0, 1.0, 1.0], [2.0, 2.0, 2.0], [1.0, 0.0, 0.0, 0.0], "b", 100.0))
    ensures !Overlapping(Box([0.0, 0.0, 0.0], [2.0, 2.0, 2.0], [1.0, 0.0, 0.0, 0.0], "a", 100.0),
                         Box([3.0, 3.0, 3.0], [2.0, 2.0, 2.0], [1.0, 0.0, 0.0, 0.0], "b", 100.0))
  {
    var a := Box([0.0, 0.0, 0.0], [2.0, 2.0, 2.0], [1.0, 0.0, 0.0, 0.0], "a", 100.0);
    var c := Box([3.0, 3.0, 3.0], [2.0, 2.0, 2.0], [1.0, 0.0, 0.0, 0.0], "b", 100.0);
    assert !OverlapsOnAxis(a, c, 0);
  }

  /** The closed box contains point `p`. */
  predicate Contains(b: Box, p: Vec3) {
    forall axis: nat :: axis < 3 ==> Low(b, axis) <= p[axis] <= High(b, axis)
  }

  /** Boxes that share a point overlap. */
  lemma CommonPointOverlaps(b1: Box, b2: Box, p: Vec3)
    requires Contains(b1, p) && Contains(b2, p)
    ensures Overlapping(b1, b2)
  {
  }

  function Max(x: real, y: real): real {
    if x < y then y else x
  }

  /** Overlapping boxes with non-negative sizes share a point: the test is
      exact for axis-aligned boxes. */
  lemma OverlapHasCommonPoint(b1: Box, b2: Box)
    requires forall axis: nat :: axis < 3 ==> b1.size[axis] >= 0.0 && b2.size[axis] >= 0.0
    requires Overlapping(b1, b2)
    ensures exists p: Vec3 :: Contains(b1, p) && Contains(b2, p)
  {
    var p: Vec3 := [Max(Low(b1, 0), Low(b2, 0)), Max(Low(b1, 1), Low(b2, 1)), Max(Low(b1, 2), Low(b2, 2))];
    forall axis: nat | axis < 3
      ensures Low(b1, axis) <= p[axis] <= High(b1, axis)
      ensures Low(b2, axis) <= p[axis] <= High(b2, axis)
    {
      assert p[axis] == Max(Low(b1, axis), Low(b2, axis));
      assert OverlapsOnAxis(b1, b2, axis);
    }
    assert Contains(b1, p) && Contains(b2, p);
  }

  // ---------------------------------------------------------------------
  // Real-arithmetic facts used by the distance lemmas
  // ---------------------------------------------------------------------

  function Square(x: real): (r: real)
    ensures r >= 0.0
  {
    x * x
  }

  lemma ProductPositive(a: real, b: real)
    requires a > 0.0 && b > 0.0
    ensures a * b > 0.0
  {
  }

  lemma ProductNonNegative(a: real, b: real)
    requires a >= 0.0 && b >= 0.0
    ensures a * b >= 0.0
  {
  }

  lemma SquarePositive(x: real)
    requires x != 0.0
    ensures x * x > 0.0
  {
  }

  /** A square is zero only at zero. */
  lemma SquareZero(x: real)
    requires x * x == 0.0
    ensures x == 0.0
  {
    if x != 0.0 {
      calc { 0.0; == x * x; > { SquarePositive(x); } 0.0; }
    }
  }

  /** Non-negative reals are ordered as their squares are. */
  lemma OrderFromSquares(a: real, b: real)
    requires 0.0 <= a && 0.0 <= b
    requires a * a <= b * b
    ensures a <= b
  {
    if b < a {
      ProductPositive(a - b, a + b);
      assert false;
    }
  }

  /** Cauchy-Schwarz for 3-vectors, in squared form. */
  lemma CauchySchwarz(u0: real, u1: real, u2: real, v0: real, v1: real, v2: real)
    ensures (u0 * v0 + u1 * v1 + u2 * v2) * (u0 * v0 + u1 * v1 + u2 * v2)
         <= (u0 * u0 + u1 * u1 + u2 * u2) * (v0 * v0 + v1 * v1 + v2 * v2)
  {
  }

  // ---------------------------------------------------------------------
  // box_dist
  // ---------------------------------------------------------------------

  /** Squared Euclidean distance between the two origins: the sum of the
      three squared per-axis differences. It vanishes exactly when the
      origins coincide. */
  function SquaredDist(b1: Box, b2: Box): (d: real)
    ensures d >= 0.0
    ensures d == 0.0 <==> b1.origin == b2.origin
  {
    var dX := Square(b1.origin[0] - b2.origin[0]);
    var dY := Square(b1.origin[1] - b2.origin[1]);
    var dZ := Square(b1.origin[2] - b2.origin[2]);
    assert dX + dY + dZ == 0.0 ==> b1.origin == b2.origin by {
      if dX + dY + dZ == 0.0 {
        SquareZero(b1.origin[0] - b2.origin[0]);
        SquareZero(b1.origin[1] - b2.origin[1]);
        SquareZero(b1.origin[2] - b2.origin[2]);
      }
    }
    dX + dY + dZ
  }

  lemma SquaredDistSymmetric(b1: Box, b2: Box)
    ensures SquaredDist(b1, b2) == SquaredDist(b2, b1)
  {
  }

  /** `sqrt` is an exact square root on the non-negative reals. */
  ghost predicate IsSqrt(sqrt: real -> real) {
    forall x: real :: 0.0 <= x ==> 0.0 <= sqrt(x) && sqrt(x) * sqrt(x) == x
  }

  lemma SqrtOfZero(sqrt: real -> real)
    requires IsSqrt(sqrt)
    ensures sqrt(0.0) == 0.0
  {
    var s := sqrt(0.0);
    assert s * s == 0.0;
    SquareZero(s);
  }

  lemma SqrtMonotone(sqrt: real -> real, x: real, y: real)
    requires IsSqrt(sqrt)
    requires 0.0 <= x <= y
    ensures sqrt(x) <= sqrt(y)
  {
    var a, b := sqrt(x), sqrt(y);
    assert a * a == x && b * b == y;
    OrderFromSquares(a, b);
  }

  /** Euclidean distance between the two box origins; `sqrt` stands for the
      square root of the math library. */
  function BoxDist(box1: Box, box2: Box, sqrt: real -> real): (d: real)
    requires IsSqrt(sqrt)
    ensures 0.0 <= d
    ensures d * d == SquaredDist(box1, box2)
  {
    sqrt(SquaredDist(box1, box2))
  }

  lemma BoxDistSymmetric(b1: Box, b2: Box, sqrt: real -> real)
    requires IsSqrt(sqrt)
    ensures BoxDist(b1, b2, sqrt) == BoxDist(b2, b1, sqrt)
  {
  }

  /** The distance is zero exactly when the origins coincide. */
  lemma BoxDistZero(b1: Box, b2: Box, sqrt: real -> real)
    requires IsSqrt(sqrt)
    ensures BoxDist(b1, b2, sqrt) == 0.0 <==> b1.origin == b2.origin
  {
    var d := BoxDist(b1, b2, sqrt);
    if b1.origin == b2.origin {
      assert d * d == 0.0;
      SquareZero(d);
    }
  }

  /** The squared distance spelled out as the sum of the three squared
      origin differences. */
  lemma BoxDistSquared(b1: Box, b2: Box, sqrt: real -> real)
    requires IsSqrt(sqrt)
    ensures BoxDist(b1, b2, sqrt) * BoxDist(b1, b2, sqrt)
         == (b1.origin[0] - b2.origin[0]) * (b1.origin[0] - b2.origin[0])
          + (b1.origin[1] - b2.origin[1]) * (b1.origin[1] - b2.origin[1])
          + (b1.origin[2] - b2.origin[2]) * (b1.origin[2] - b2.origin[2])
  {
  }

  /** Only the origins are read. */
  lemma BoxDistReadsOnlyOrigins(b1: Box, b2: Box, c1: Box, c2: Box, sqrt: real -> real)
    requires IsSqrt(sqrt)
    requires b1.origin == c1.origin && b2.origin == c2.origin
    ensures BoxDist(b1, b2, sqrt) == BoxDist(c1, c2, sqrt)
  {
  }

  /** The dot product of two 3-vectors is at most the product of their
      lengths `lu` and `lv`. */
  lemma DotAtMostLengths(u0: real, u1: real, u2: real, v0: real, v1: real, v2: real, lu: real, lv: real)
    requires 0.0 <= lu && 0.0 <= lv
    requires lu * lu == u0 * u0 + u1 * u1 + u2 * u2
    requires lv * lv == v0 * v0 + v1 * v1 + v2 * v2
    ensures u0 * v0 + u1 * v1 + u2 * v2 <= lu * lv
  {
    var dot := u0 * v0 + u1 * v1 + u2 * v2;
    ProductNonNegative(lu, lv);
    if dot > 0.0 {
      calc {
        dot * dot;
      <= { CauchySchwarz(u0, u1, u2, v0, v1, v2); }
        (u0 * u0 + u1 * u1 + u2 * u2) * (v0 * v0 + v1 * v1 + v2 * v2);
      ==
        (lu * lu) * (lv * lv);
      ==
        (lu * lv) * (lu * lv);
      }
      OrderFromSquares(dot, lu * lv);
    }
  }

  /** Triangle inequality for 3-vectors `u`, `v` and `u + v` of lengths
      `lu`, `lv` and `lw`. */
  lemma LengthOfSum(u0: real, u1: real, u2: real, v0: real, v1: real, v2: real, lu: real, lv: real, lw: real)
    requires 0.0 <= lu && 0.0 <= lv && 0.0 <= lw
    requires lu * lu == u0 * u0 + u1 * u1 + u2 * u2
    requires lv * lv == v0 * v0 + v1 * v1 + v2 * v2
    requires lw * lw == (u0 + v0) * (u0 + v0) + (u1 + v1) * (u1 + v1) + (u2 + v2) * (u2 + v2)
    ensures lw <= lu + lv
  {
    var sum := lu + lv;
    calc {
      lw * lw;
    ==
      (u0 + v0) * (u0 + v0) + (u1 + v1) * (u1 + v1) + (u2 + v2) * (u2 + v2);
    ==
      lu * lu + lv * lv + 2.0 * (u0 * v0 + u1 * v1 + u2 * v2);
    <= { DotAtMostLengths(u0, u1, u2, v0, v1, v2, lu, lv); }
      lu * lu + lv * lv + 2.0 * (lu * lv);
    ==
      sum * sum;
    }
    OrderFromSquares(lw, sum);
  }

  /** Going through a third box is never shorter. */
  lemma BoxDistTriangle(a: Box, b: Box, c: Box, sqrt: real -> real)
    requires IsSqrt(sqrt)
    ensures BoxDist(a, c, sqrt) <= BoxDist(a, b, sqrt) + BoxDist(b, c, sqrt)
  {
    var u0, u1, u2 := a.origin[0] - b.origin[0], a.origin[1] - b.origin[1], a.origin[2] - b.origin[2];
    var v0, v1, v2 := b.origin[0] - c.origin[0], b.origin[1] - c.origin[1], b.origin[2] - c.origin[2];
    var lu, lv, lw := BoxDist(a, b, sqrt), BoxDist(b, c, sqrt), BoxDist(a, c, sqrt);
    BoxDistSquared(a, b, sqrt);
    BoxDistSquared(b, c, sqrt);
    BoxDistSquared(a, c, sqrt);
    assert u0 + v0 == a.origin[0] - c.origin[0];
    assert u1 + v1 == a.origin[1] - c.origin[1];
    assert u2 + v2 == a.origin[2] - c.origin[2];
    LengthOfSum(u0, u1, u2, v0, v1, v2, lu, lv, lw);
  }
}
