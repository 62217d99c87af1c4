/** The sphere layout of `setCloudTags`: `n` points on a golden-angle spiral whose
    latitudes are evenly spaced. */
module Layout {
  import opened Geometry
  import opened Projection

  /** The latitude `y = p2 * i - 1 + p2 / 2` of tag `i` of `n`, where `p2 = 2 / n`: the
      centre `(2i + 1) / n - 1` of the `i`-th of `n` equal bands of [-1, 1]. */
  function Latitude(n: nat, i: nat): (y: real)
    requires i < n
    ensures y == (2 * i + 1) as real / n as real - 1.0
  {
    var p2 := 2.0 / n as real;
    var q := 1.0 / n as real;
    assert p2 == 2.0 * q;
    assert (2 * i + 1) as real / n as real == (2 * i + 1) as real * q;
    p2 * i as real - 1.0 + p2 / 2.0
  }

  /** Latitudes stay half a band away from the poles. */
  lemma LatitudeBounds(n: nat, i: nat)
    requires i < n
    ensures -1.0 + 1.0 / n as real <= Latitude(n, i) <= 1.0 - 1.0 / n as real
  {
    var q := 1.0 / n as real;
    assert (2 * i + 1) as real / n as real == (2 * i + 1) as real * q;
    assert n as real * q == 1.0;
    assert (2 * i + 1) as real * q <= (2 * n - 1) as real * q;
  }

  /** Tags are laid out from the bottom up: latitudes strictly increase with the index. */
  lemma LatitudeIncreasing(n: nat, i: nat, j: nat)
    requires i < j < n
    ensures Latitude(n, i) < Latitude(n, j)
  {
    var q := 1.0 / n as real;
    assert (2 * i + 1) as real / n as real == (2 * i + 1) as real * q;
    assert (2 * j + 1) as real / n as real == (2 * j + 1) as real * q;
  }

  /** The layout is symmetric about the equator. */
  lemma LatitudeSymmetric(n: nat, i: nat)
    requires i < n
    ensures Latitude(n, i) == -Latitude(n, n - 1 - i)
  {
    var q := 1.0 / n as real;
    assert n as real * q == 1.0;
    assert (2 * i + 1) as real / n as real == (2 * i + 1) as real * q;
    assert (2 * (n - 1 - i) + 1) as real / n as real == (2 * (n - 1 - i) + 1) as real * q;
  }

  /** A single tag sits on the equator. */
  lemma SingleTagOnEquator()
    ensures Latitude(1, 0) == 0.0
  {
  }

  /** `p1 = .pi * (3 - sqrt(5))`, the golden angle. */
  function GoldenAngle(lib: MathLib): real {
    lib.pi * (3.0 - lib.sqrt(5.0))
  }

  /** With an exact square root and a positive `pi`, the golden angle is a positive
      angle below `pi` (about 137.5 degrees), so consecutive tags turn by less than half
      a revolution. */
  lemma GoldenAngleBounds(lib: MathLib)
    requires Lawful(lib) && lib.pi > 0.0
    ensures 0.0 < GoldenAngle(lib) < lib.pi
  {
    var s := lib.sqrt(5.0);
    assert s >= 0.0 && s * s == 5.0;
    if s <= 2.0 {
      SquareMonotone(s, 2.0);
      assert false;
    }
    var t := 3.0 - s;
    assert 0.0 < t < 1.0;
    assert lib.pi * t < lib.pi * 1.0;
  }

  lemma SquareMonotone(a: real, b: real)
    requires 0.0 <= a <= b
    ensures a * a <= b * b
  {
    assert a * a <= a * b;
  }

  /** Point `i` of `n`: latitude `y`, radius `r = sqrt(1 - y * y)` of that circle of
      latitude, and longitude `p1 * i`. With an exact square root, sine and cosine the
      point lies on its circle of latitude. */
  function LayoutPoint(lib: MathLib, n: nat, i: nat): (p: Vec3)
    requires i < n
    ensures p.y == Latitude(n, i)
    ensures Lawful(lib) ==> p.x * p.x + p.z * p.z == 1.0 - p.y * p.y
  {
    var y := Latitude(n, i);
    var r := lib.sqrt(1.0 - y * y);
    var p3 := GoldenAngle(lib) * i as real;
    LatitudeBounds(n, i);
    assert 1.0 / n as real > 0.0;
    CircleOfLatitude(lib, y, p3);
    Vec3(lib.cos(p3) * r, y, lib.sin(p3) * r)
  }

  /** At latitude `y` and longitude `t` the radius `sqrt(1 - y * y)` puts the point on
      the circle of latitude. */
  lemma CircleOfLatitude(lib: MathLib, y: real, t: real)
    requires -1.0 <= y <= 1.0
    ensures Lawful(lib) ==>
      var r := lib.sqrt(1.0 - y * y);
      (lib.cos(t) * r) * (lib.cos(t) * r) + (lib.sin(t) * r) * (lib.sin(t) * r) == 1.0 - y * y
  {
    if Lawful(lib) {
      SquareBelowOne(y);
      var s := 1.0 - y * y;
      var r := lib.sqrt(s);
      assert r * r == s;
      var c, sn := lib.cos(t), lib.sin(t);
      assert c * c + sn * sn == 1.0;
      calc {
        (c * r) * (c * r) + (sn * r) * (sn * r);
        (c * c + sn * sn) * (r * r);
        r * r;
      }
    }
  }

  /** The `n` points that `setCloudTags` appends, in tag order. */
  function LayoutPoints(lib: MathLib, n: nat): (ps: seq<Vec3>)
    ensures |ps| == n
    ensures forall i :: 0 <= i < n ==> ps[i].y == Latitude(n, i)
  {
    seq(n, i requires 0 <= i < n => LayoutPoint(lib, n, i))
  }

  lemma SquareBelowOne(y: real)
    requires -1.0 <= y <= 1.0
    ensures 0.0 <= y * y <= 1.0
  {
    if y >= 0.0 {
      assert y * y <= 1.0 * y;
    } else {
      assert y * y <= (-1.0) * y;
    }
  }

  /** A point of the unit sphere lies in the cube [-1, 1]^3. */
  lemma UnitSphereInCube(p: Vec3)
    requires NormSq(p) == 1.0
    ensures -1.0 <= p.x <= 1.0 && -1.0 <= p.y <= 1.0 && -1.0 <= p.z <= 1.0
  {
    SquareNonNegative(p.x);
    SquareNonNegative(p.y);
    SquareNonNegative(p.z);
    var a, b, c := p.x * p.x, p.y * p.y, p.z * p.z;
    assert a + b + c == 1.0;
    assert a <= 1.0 && b <= 1.0 && c <= 1.0;
    SquareAtMostOne(p.x);
    SquareAtMostOne(p.y);
    SquareAtMostOne(p.z);
  }

  lemma SquareAtMostOne(x: real)
    requires x * x <= 1.0
    ensures -1.0 <= x <= 1.0
  {
  }

  /** With exact square root, sine and cosine every laid-out point is on the unit sphere. */
  lemma LayoutPointOnUnitSphere(lib: MathLib, n: nat, i: nat)
    requires Lawful(lib) && i < n
    ensures NormSq(LayoutPoint(lib, n, i)) == 1.0
  {
    var p := LayoutPoint(lib, n, i);
    calc {
      NormSq(p);
      (p.x * p.x + p.z * p.z) + p.y * p.y;
      (1.0 - p.y * p.y) + p.y * p.y;
      1.0;
    }
  }

  lemma LayoutOnUnitSphere(lib: MathLib, n: nat)
    requires Lawful(lib)
    ensures OnUnitSphere(LayoutPoints(lib, n))
  {
    var ps := LayoutPoints(lib, n);
    forall i | 0 <= i < n ensures NormSq(ps[i]) == 1.0 {
      LayoutPointOnUnitSphere(lib, n, i);
    }
  }

  /** Every laid-out tag is placed inside a frame of any non-negative size. */
  lemma LayoutProjectsInsideFrame(lib: MathLib, n: nat, i: nat, width: real, height: real)
    requires Lawful(lib) && i < n && width >= 0.0 && height >= 0.0
    ensures var r := ProjectPoint(LayoutPoints(lib, n)[i], width, height);
      0.0 <= r.center.x <= width && 0.0 <= r.center.y <= height
  {
    var p := LayoutPoint(lib, n, i);
    LayoutPointOnUnitSphere(lib, n, i);
    UnitSphereInCube(p);
    ProjectionInsideFrame(p, width, height);
  }
}
