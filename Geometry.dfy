/** Vectors, the floating-point library the view calls into, and the guarded
    quaternion rotation of one point (`rotateSphere`) and of a prefix of the
    coordinate array (the `for i in 0..<tags.count` loops). */
module Geometry {

  /** A `simd_double3`, with `Double` modelled as `real`. */
  datatype Vec3 = Vec3(x: real, y: real, z: real)

  /** A `CGPoint` in the view's own coordinate system. */
  datatype Point = Point(x: real, y: real)

  const Zero: Vec3 := Vec3(0.0, 0.0, 0.0)

  function NormSq(v: Vec3): real {
    v.x * v.x + v.y * v.y + v.z * v.z
  }

  /** `a * a + b * b`, the squared length of a planar vector. */
  function SumOfSquares(a: real, b: real): real {
    a * a + b * b
  }

  /** A square is never negative, and it is zero only for zero. */
  lemma SquareNonNegative(a: real)
    ensures a * a >= 0.0
    ensures a != 0.0 ==> a * a > 0.0
  {
    if a < 0.0 {
      assert a * a == (-a) * (-a);
    }
  }

  /** Every coordinate lies on the unit sphere (exactly, in this real-number model). */
  ghost predicate OnUnitSphere(cs: seq<Vec3>) {
    forall i :: 0 <= i < |cs| ==> NormSq(cs[i]) == 1.0
  }

  lemma AppendKeepsUnitSphere(a: seq<Vec3>, b: seq<Vec3>)
    requires OnUnitSphere(a) && OnUnitSphere(b)
    ensures OnUnitSphere(a + b)
  {
    forall i | 0 <= i < |a + b| ensures NormSq((a + b)[i]) == 1.0 {
      if i >= |a| {
        assert (a + b)[i] == b[i - |a|];
      }
    }
  }

  /** The numeric library the view calls and whose internals are not modelled:
      `.pi`, `sqrt`, `sin`, `cos`, and `rotate(angle, direction, p)`, which stands for
      `simd_quatd(angle: angle, axis: simd_normalize(direction)).act(p)`. */
  datatype MathLib = MathLib(
    pi: real,
    sqrt: real -> real,
    sin: real -> real,
    cos: real -> real,
    rotate: (real, Vec3, Vec3) -> Vec3)

  /** The real-number laws of the library, used as hypotheses instead of axioms:
      a non-negative square root, the Pythagorean identity, and a quaternion
      action about a non-zero axis that keeps the length of the vector. */
  ghost predicate Lawful(lib: MathLib) {
    (forall s :: s >= 0.0 ==> lib.sqrt(s) >= 0.0 && lib.sqrt(s) * lib.sqrt(s) == s) &&
    (forall t :: lib.cos(t) * lib.cos(t) + lib.sin(t) * lib.sin(t) == 1.0) &&
    (forall angle, axis, p :: axis != Zero ==> NormSq(lib.rotate(angle, axis, p)) == NormSq(p))
  }

  /** `rotateSphere`: a zero direction or a zero angle returns the point as it is
      (checked before the axis is normalised); otherwise the quaternion acts on it. */
  function RotateSphere(lib: MathLib, point: Vec3, direction: Vec3, angle: real): (r: Vec3)
    ensures direction == Zero ==> r == point
    ensures angle == 0.0 ==> r == point
    ensures direction != Zero && angle != 0.0 ==> r == lib.rotate(angle, direction, point)
  {
    if direction.x == 0.0 && direction.y == 0.0 && direction.z == 0.0 then point
    else if angle == 0.0 then point
    else lib.rotate(angle, direction, point)
  }

  lemma RotateSphereKeepsLength(lib: MathLib, point: Vec3, direction: Vec3, angle: real)
    requires Lawful(lib)
    ensures NormSq(RotateSphere(lib, point, direction, angle)) == NormSq(point)
  {
  }

  /** The first `count` coordinates rotated in index order, the rest untouched: what
      `updateFrameOfPoint(i, direction, angle)` for `i in 0..<count` does to `coordinate`. */
  function RotateAll(lib: MathLib, cs: seq<Vec3>, count: nat, direction: Vec3, angle: real): (r: seq<Vec3>)
    requires count <= |cs|
    ensures |r| == |cs|
  {
    if count == 0 then cs
    else RotateAll(lib, cs, count - 1, direction, angle)[count - 1 := RotateSphere(lib, cs[count - 1], direction, angle)]
  }

  /** Entry `i` of `RotateAll` is the rotated `cs[i]` below `count` and `cs[i]` itself from `count` on. */
  lemma {:induction false} RotateAllAt(lib: MathLib, cs: seq<Vec3>, count: nat, direction: Vec3, angle: real, i: nat)
    requires count <= |cs| && i < |cs|
    ensures RotateAll(lib, cs, count, direction, angle)[i] ==
            if i < count then RotateSphere(lib, cs[i], direction, angle) else cs[i]
  {
    if count > 0 {
      RotateAllAt(lib, cs, count - 1, direction, angle, i);
    }
  }

  /** A zero direction or a zero angle leaves every coordinate where it was. */
  lemma RotateAllIdentity(lib: MathLib, cs: seq<Vec3>, count: nat, direction: Vec3, angle: real)
    requires count <= |cs|
    requires direction == Zero || angle == 0.0
    ensures RotateAll(lib, cs, count, direction, angle) == cs
  {
    var r := RotateAll(lib, cs, count, direction, angle);
    forall i | 0 <= i < |cs| ensures r[i] == cs[i] {
      RotateAllAt(lib, cs, count, direction, angle, i);
    }
  }

  /** With a lawful library, rotating keeps every coordinate on the unit sphere. */
  lemma RotateAllKeepsUnitSphere(lib: MathLib, cs: seq<Vec3>, count: nat, direction: Vec3, angle: real)
    requires Lawful(lib) && count <= |cs| && OnUnitSphere(cs)
    ensures OnUnitSphere(RotateAll(lib, cs, count, direction, angle))
  {
    var r := RotateAll(lib, cs, count, direction, angle);
    forall i | 0 <= i < |r| ensures NormSq(r[i]) == 1.0 {
      RotateAllAt(lib, cs, count, direction, angle, i);
      RotateSphereKeepsLength(lib, cs[i], direction, angle);
    }
  }
}
