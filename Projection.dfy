/** The arithmetic of `setTagOf`: from a point of the sphere to the attributes the
    view sets on its tag (centre, scale transform, `layer.zPosition`, `alpha` and
    `isUserInteractionEnabled`). */
module Projection {
  import opened Geometry

  /** The attributes `setTagOf` gives one tag view. */
  datatype Placement = Placement(center: Point, scale: real, zPosition: real, alpha: real, interactive: bool)

  /** `setTagOf` on a frame of `width` by `height`: x and y are remapped linearly from
      [-1, 1] to the frame, and one depth value `(z + 2) / 3` is used for the scale,
      the stacking order and the opacity alike. */
  function ProjectPoint(p: Vec3, width: real, height: real): (r: Placement)
    ensures r.zPosition == r.scale && r.alpha == r.scale
    ensures r.interactive <==> p.z >= 0.0
  {
    var depth := (p.z + 2.0) / 3.0;
    Placement(
      Point((p.x + 1.0) * (width / 2.0), (p.y + 1.0) * (height / 2.0)),
      depth, depth, depth,
      if p.z < 0.0 then false else true)
  }

  /** A point of the unit cube lands inside the frame, and its scale lies in [1/3, 1]. */
  lemma ProjectionInsideFrame(p: Vec3, width: real, height: real)
    requires -1.0 <= p.x <= 1.0 && -1.0 <= p.y <= 1.0 && -1.0 <= p.z <= 1.0
    requires width >= 0.0 && height >= 0.0
    ensures var r := ProjectPoint(p, width, height);
      0.0 <= r.center.x <= width && 0.0 <= r.center.y <= height &&
      1.0 / 3.0 <= r.scale <= 1.0
  {
    var r := ProjectPoint(p, width, height);
    assert 0.0 <= (p.x + 1.0) * (width / 2.0) <= 2.0 * (width / 2.0) by {
      MulBounds(p.x + 1.0, 2.0, width / 2.0);
    }
    assert 0.0 <= (p.y + 1.0) * (height / 2.0) <= 2.0 * (height / 2.0) by {
      MulBounds(p.y + 1.0, 2.0, height / 2.0);
    }
  }

  lemma MulBounds(a: real, b: real, c: real)
    requires 0.0 <= a <= b && c >= 0.0
    ensures 0.0 <= a * c <= b * c
  {
  }

  /** Nearer points (larger z) are drawn larger, higher and more opaque: the scale is
      strictly increasing in z. */
  lemma ProjectionDepthMonotone(p: Vec3, q: Vec3, width: real, height: real)
    requires p.z < q.z
    ensures ProjectPoint(p, width, height).scale < ProjectPoint(q, width, height).scale
  {
  }

  /** The far pole, the equator and the near pole. */
  lemma ProjectionAtDepths(x: real, y: real, width: real, height: real)
    ensures var far := ProjectPoint(Vec3(x, y, -1.0), width, height);
      far.scale == 1.0 / 3.0 && !far.interactive
    ensures var mid := ProjectPoint(Vec3(x, y, 0.0), width, height);
      mid.scale == 2.0 / 3.0 && mid.interactive
    ensures var near := ProjectPoint(Vec3(x, y, 1.0), width, height);
      near.scale == 1.0 && near.interactive
  {
  }
}
