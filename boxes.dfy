/** Axis-aligned bounding boxes: construction from bounds or from a triangle, and the
    separating-axis overlap test. */
module Boxes {
  import opened Vectors
  import opened Entities

  /** What a box was built around: nothing, or one triangle. */
  datatype InnerGeometry = Empty | TriangleGeometry(triangle: Triangle)

  datatype AABB = AABB(minCoords: Vector3d, maxCoords: Vector3d, innerGeometry: InnerGeometry)

  /** The box invariant the renderer relies on: min <= max on every axis. */
  predicate WellFormed(b: AABB) {
    && b.minCoords.x <= b.maxCoords.x
    && b.minCoords.y <= b.maxCoords.y
    && b.minCoords.z <= b.maxCoords.z
  }

  /** The closed box contains point `p`. */
  predicate Contains(b: AABB, p: Vector3d) {
    && b.minCoords.x <= p.x <= b.maxCoords.x
    && b.minCoords.y <= p.y <= b.maxCoords.y
    && b.minCoords.z <= p.z <= b.maxCoords.z
  }

  function Min(a: real, b: real): real { if a <= b then a else b }
  function Max(a: real, b: real): real { if a >= b then a else b }

  /** `AABB::new(min_x, max_x, min_y, max_y, min_z, max_z)`: the arguments alternate between
      lower and upper bounds; the box holds no geometry. */
  function New(minX: real, maxX: real, minY: real, maxY: real, minZ: real, maxZ: real): (b: AABB)
    ensures b.innerGeometry == Empty
    ensures forall p :: Contains(b, p) <==> minX <= p.x <= maxX && minY <= p.y <= maxY && minZ <= p.z <= maxZ
    ensures WellFormed(b) <==> minX <= maxX && minY <= maxY && minZ <= maxZ
  {
    AABB(Vector3d(minX, minY, minZ), Vector3d(maxX, maxY, maxZ), Empty)
  }

  /** `AABB::from_triangle`: on each axis the box spans the minimum to the maximum of the
      three vertices' coordinates, and it remembers the triangle. */
  function FromTriangle(t: Triangle): (b: AABB)
    ensures b.innerGeometry == TriangleGeometry(t)
    ensures WellFormed(b)
    ensures Contains(b, t.v1) && Contains(b, t.v2) && Contains(b, t.v3)
    // each bound is attained by one of the vertices, so the box is the smallest such box
    ensures b.minCoords.x in {t.v1.x, t.v2.x, t.v3.x} && b.maxCoords.x in {t.v1.x, t.v2.x, t.v3.x}
    ensures b.minCoords.y in {t.v1.y, t.v2.y, t.v3.y} && b.maxCoords.y in {t.v1.y, t.v2.y, t.v3.y}
    ensures b.minCoords.z in {t.v1.z, t.v2.z, t.v3.z} && b.maxCoords.z in {t.v1.z, t.v2.z, t.v3.z}
  {
    var minX := Min(t.v1.x, Min(t.v2.x, t.v3.x));
    var maxX := Max(t.v1.x, Max(t.v2.x, t.v3.x));
    var minY := Min(t.v1.y, Min(t.v2.y, t.v3.y));
    var maxY := Max(t.v1.y, Max(t.v2.y, t.v3.y));
    var minZ := Min(t.v1.z, Min(t.v2.z, t.v3.z));
    var maxZ := Max(t.v1.z, Max(t.v2.z, t.v3.z));
    AABB(Vector3d(minX, minY, minZ), Vector3d(maxX, maxY, maxZ), TriangleGeometry(t))
  }

  /** `AABB::intersects`: false as soon as the boxes are strictly separated on one axis. */
  function Intersects(a: AABB, b: AABB): bool {
    if a.maxCoords.x < b.minCoords.x || a.minCoords.x > b.maxCoords.x then false
    else if a.maxCoords.y < b.minCoords.y || a.minCoords.y > b.maxCoords.y then false
    else if a.maxCoords.z < b.minCoords.z || a.minCoords.z > b.maxCoords.z then false
    else true
  }

  /** Two well-formed boxes intersect exactly when some point lies in both, so boxes that
      only touch along a face, edge or corner intersect. */
  lemma IntersectsIffCommonPoint(a: AABB, b: AABB)
    requires WellFormed(a) && WellFormed(b)
    ensures Intersects(a, b) <==> exists p :: Contains(a, p) && Contains(b, p)
  {
    if Intersects(a, b) {
      var p := Vector3d(Max(a.minCoords.x, b.minCoords.x),
                        Max(a.minCoords.y, b.minCoords.y),
                        Max(a.minCoords.z, b.minCoords.z));
      assert Contains(a, p) && Contains(b, p);
    }
  }

  lemma IntersectsSymmetric(a: AABB, b: AABB)
    ensures Intersects(a, b) == Intersects(b, a)
  {
  }

  lemma IntersectsItself(a: AABB)
    requires WellFormed(a)
    ensures Intersects(a, a)
  {
  }

  /** The box of a triangle meets every box that contains one of its vertices. */
  lemma FromTriangleMeetsBoxAroundVertex(t: Triangle, b: AABB)
    requires WellFormed(b)
    requires Contains(b, t.v1) || Contains(b, t.v2) || Contains(b, t.v3)
    ensures Intersects(FromTriangle(t), b)
  {
    var box := FromTriangle(t);
    var p :| p in {t.v1, t.v2, t.v3} && Contains(b, p);
    assert Contains(box, p);
    IntersectsIffCommonPoint(box, b);
  }
}
