/** Rays and the two intersection tests of the collision module: the slab test against an
    axis-aligned box and the Möller–Trumbore test against a triangle. */
module Rays {
  import opened Vectors
  import opened Wrappers
  import opened Entities
  import opened Boxes

  /** `f64::EPSILON`, 2^-52. */
  const EPSILON: real := 1.0 / 4503599627370496.0

  datatype Ray = Ray(origin: Vector3d, direction: Vector3d)

  datatype RayIntersectionResult =
    | TriangleResult(t: real, u: real, v: real)
    | AABBResult(t: real)

  /** The point the ray reaches at parameter `t`. */
  function At(ray: Ray, t: real): Vector3d {
    Add(ray.origin, Scale(ray.direction, t))
  }

  /** The slab test divides by each direction component; a zero component, for which the
      source relies on IEEE infinities, is outside this model. */
  predicate NoZeroComponent(d: Vector3d) {
    d.x != 0.0 && d.y != 0.0 && d.z != 0.0
  }

  /** The parameter at which the ray crosses the plane `bound` of one axis. */
  function Crossing(bound: real, o: real, d: real): (t: real)
    requires d != 0.0
    ensures t * d == bound - o
  {
    (bound - o) / d
  }

  /** The latest entry into the three slabs, `tmin`. */
  function SlabTMin(ray: Ray, box: AABB): real
    requires NoZeroComponent(ray.direction)
  {
    var o, d, lo, hi := ray.origin, ray.direction, box.minCoords, box.maxCoords;
    Max(Max(Min(Crossing(lo.x, o.x, d.x), Crossing(hi.x, o.x, d.x)),
            Min(Crossing(lo.y, o.y, d.y), Crossing(hi.y, o.y, d.y))),
        Min(Crossing(lo.z, o.z, d.z), Crossing(hi.z, o.z, d.z)))
  }

  /** The earliest exit from the three slabs, `tmax`. */
  function SlabTMax(ray: Ray, box: AABB): real
    requires NoZeroComponent(ray.direction)
  {
    var o, d, lo, hi := ray.origin, ray.direction, box.minCoords, box.maxCoords;
    Min(Min(Max(Crossing(lo.x, o.x, d.x), Crossing(hi.x, o.x, d.x)),
            Max(Crossing(lo.y, o.y, d.y), Crossing(hi.y, o.y, d.y))),
        Max(Crossing(lo.z, o.z, d.z), Crossing(hi.z, o.z, d.z)))
  }

  /** `Ray::intersect_AABB`: no hit when the box is behind the origin (`tmax < 0`) or the
      slabs do not overlap (`tmin > tmax`); otherwise the entry distance, or the exit distance
      when the origin is already inside. Whatever it returns lies in [0, tmax]. */
  function IntersectAABB(ray: Ray, box: AABB): (r: Option<RayIntersectionResult>)
    requires NoZeroComponent(ray.direction)
    ensures SlabTMax(ray, box) < 0.0 ==> r == None
    ensures SlabTMin(ray, box) > SlabTMax(ray, box) ==> r == None
    ensures r.None? ==> SlabTMax(ray, box) < 0.0 || SlabTMin(ray, box) > SlabTMax(ray, box)
    ensures r.Some? ==> r.value.AABBResult? && 0.0 <= r.value.t <= SlabTMax(ray, box)
    ensures r.Some? ==> r.value.t == if SlabTMin(ray, box) < 0.0 then SlabTMax(ray, box) else SlabTMin(ray, box)
  {
    var tmin := SlabTMin(ray, box);
    var tmax := SlabTMax(ray, box);
    if tmax < 0.0 then None
    else if tmin > tmax then None
    else if tmin < 0.0 then Some(AABBResult(tmax))
    else Some(AABBResult(tmin))
  }

  /** Between the two crossings of an axis the ray is between that axis's planes. */
  lemma {:induction false} BetweenCrossingsInSlab(lo: real, hi: real, o: real, d: real, t: real)
    requires d != 0.0 && lo <= hi
    requires Min(Crossing(lo, o, d), Crossing(hi, o, d)) <= t <= Max(Crossing(lo, o, d), Crossing(hi, o, d))
    ensures lo <= o + d * t <= hi
  {
    var t1, t2 := Crossing(lo, o, d), Crossing(hi, o, d);
    if d > 0.0 {
      MulMonotone(t1, t2, d);
      MulMonotone(t1, t, d);
      MulMonotone(t, t2, d);
    } else {
      var e := -d;
      assert t1 * e == o - lo && t2 * e == o - hi;
      MulMonotone(t2, t1, e);
      MulMonotone(t2, t, e);
      MulMonotone(t, t1, e);
      assert t * e == -(d * t);
    }
  }

  lemma MulMonotone(a: real, b: real, k: real)
    requires k > 0.0
    ensures a <= b <==> a * k <= b * k
  {
    if a <= b {
      assert b * k - a * k == (b - a) * k;
    } else {
      assert a * k - b * k == (a - b) * k;
    }
  }

  /** A parameter between the latest entry and the earliest exit reaches a point of the box. */
  lemma {:induction false} BetweenEntryAndExitInBox(ray: Ray, box: AABB, t: real)
    requires NoZeroComponent(ray.direction) && WellFormed(box)
    requires SlabTMin(ray, box) <= t <= SlabTMax(ray, box)
    ensures Contains(box, At(ray, t))
  {
    SlabBoundsPerAxis(ray, box);
    AxisInSlab(ray, box, t, 0);
    AxisInSlab(ray, box, t, 1);
    AxisInSlab(ray, box, t, 2);
  }

  /** Component `axis` (0, 1 or 2 for x, y or z) of a vector. */
  function Component(v: Vector3d, axis: nat): real
    requires axis < 3
  {
    if axis == 0 then v.x else if axis == 1 then v.y else v.z
  }

  /** The per-axis step of `BetweenEntryAndExitInBox`, stated on the point the ray reaches. */
  lemma {:induction false} AxisInSlab(ray: Ray, box: AABB, t: real, axis: nat)
    requires axis < 3 && Component(ray.direction, axis) != 0.0
    requires Component(box.minCoords, axis) <= Component(box.maxCoords, axis)
    requires var lo, hi, o, d := Component(box.minCoords, axis), Component(box.maxCoords, axis),
                                 Component(ray.origin, axis), Component(ray.direction, axis);
      Min(Crossing(lo, o, d), Crossing(hi, o, d)) <= t <= Max(Crossing(lo, o, d), Crossing(hi, o, d))
    ensures Component(box.minCoords, axis) <= Component(At(ray, t), axis) <= Component(box.maxCoords, axis)
  {
    var lo, hi, o, d := Component(box.minCoords, axis), Component(box.maxCoords, axis),
                        Component(ray.origin, axis), Component(ray.direction, axis);
    BetweenCrossingsInSlab(lo, hi, o, d, t);
    assert Component(At(ray, t), axis) == o + d * t;
  }

  /** The latest entry is no earlier than each axis's entry, and the earliest exit no later
      than each axis's exit. */
  lemma SlabBoundsPerAxis(ray: Ray, box: AABB)
    requires NoZeroComponent(ray.direction)
    ensures var o, d, lo, hi := ray.origin, ray.direction, box.minCoords, box.maxCoords;
      && Min(Crossing(lo.x, o.x, d.x), Crossing(hi.x, o.x, d.x)) <= SlabTMin(ray, box)
      && Min(Crossing(lo.y, o.y, d.y), Crossing(hi.y, o.y, d.y)) <= SlabTMin(ray, box)
      && Min(Crossing(lo.z, o.z, d.z), Crossing(hi.z, o.z, d.z)) <= SlabTMin(ray, box)
      && SlabTMax(ray, box) <= Max(Crossing(lo.x, o.x, d.x), Crossing(hi.x, o.x, d.x))
      && SlabTMax(ray, box) <= Max(Crossing(lo.y, o.y, d.y), Crossing(hi.y, o.y, d.y))
      && SlabTMax(ray, box) <= Max(Crossing(lo.z, o.z, d.z), Crossing(hi.z, o.z, d.z))
  {
  }

  /** Any distance the slab test returns reaches a point of the box. */
  lemma {:induction false} AABBHitIsInBox(ray: Ray, box: AABB)
    requires NoZeroComponent(ray.direction) && WellFormed(box)
    requires IntersectAABB(ray, box).Some?
    ensures Contains(box, At(ray, IntersectAABB(ray, box).value.t))
  {
    BetweenEntryAndExitInBox(ray, box, IntersectAABB(ray, box).value.t);
  }

  /** On an axis where the origin is strictly between the planes, one crossing is behind the
      origin and the other ahead of it. */
  lemma {:induction false} InsideSlabStraddlesOrigin(lo: real, hi: real, o: real, d: real)
    requires d != 0.0 && lo < o < hi
    ensures Min(Crossing(lo, o, d), Crossing(hi, o, d)) < 0.0
    ensures Max(Crossing(lo, o, d), Crossing(hi, o, d)) > 0.0
  {
    var t1, t2 := Crossing(lo, o, d), Crossing(hi, o, d);
    if d > 0.0 {
      assert t1 < 0.0 by { if t1 >= 0.0 { MulMonotone(0.0, t1, d); } }
      assert t2 > 0.0 by { if t2 <= 0.0 { MulMonotone(t2, 0.0, d); } }
    } else {
      assert t1 * -d == o - lo && t2 * -d == o - hi;
      assert t1 > 0.0 by { if t1 <= 0.0 { MulMonotone(t1, 0.0, -d); } }
      assert t2 < 0.0 by { if t2 >= 0.0 { MulMonotone(0.0, t2, -d); } }
    }
  }

  /** A ray that starts strictly inside a box always hits it, at its exit distance, ahead of
      the origin. */
  lemma {:induction false} OriginInsideBoxHits(ray: Ray, box: AABB)
    requires NoZeroComponent(ray.direction)
    requires box.minCoords.x < ray.origin.x < box.maxCoords.x
    requires box.minCoords.y < ray.origin.y < box.maxCoords.y
    requires box.minCoords.z < ray.origin.z < box.maxCoords.z
    ensures IntersectAABB(ray, box) == Some(AABBResult(SlabTMax(ray, box)))
    ensures SlabTMax(ray, box) > 0.0
  {
    var o, d, lo, hi := ray.origin, ray.direction, box.minCoords, box.maxCoords;
    InsideSlabStraddlesOrigin(lo.x, hi.x, o.x, d.x);
    InsideSlabStraddlesOrigin(lo.y, hi.y, o.y, d.y);
    InsideSlabStraddlesOrigin(lo.z, hi.z, o.z, d.z);
  }

  /** A ray that starts beyond the box's upper x plane and moves further along +x never
      hits it: both x crossings lie behind the origin. */
  lemma {:induction false} MovingAwayMisses(ray: Ray, box: AABB)
    requires NoZeroComponent(ray.direction)
    requires WellFormed(box)
    requires ray.origin.x > box.maxCoords.x && ray.direction.x > 0.0
    ensures IntersectAABB(ray, box) == None
  {
    var d := ray.direction.x;
    var t1, t2 := Crossing(box.minCoords.x, ray.origin.x, d), Crossing(box.maxCoords.x, ray.origin.x, d);
    assert t1 < 0.0 by { if t1 >= 0.0 { MulMonotone(0.0, t1, d); } }
    assert t2 < 0.0 by { if t2 >= 0.0 { MulMonotone(0.0, t2, d); } }
  }

  // ---------------------------------------------------------------------------------------
  // Möller–Trumbore

  /** `edge1 · (direction × edge2)`: zero exactly when the ray is parallel to the triangle. */
  function Determinant(ray: Ray, tri: Triangle): real {
    Dot(Sub(tri.v2, tri.v1), Cross(ray.direction, Sub(tri.v3, tri.v1)))
  }

  /** `Ray::intersect_ray_with_triangle` (duplicated as `Scene::intersect_ray_with_triangle`):
      a chain of rejections. A ray within EPSILON of parallel is rejected; otherwise any hit
      has barycentric coordinates with u in [0, 1], v >= 0 and u + v <= 1, and lies strictly
      more than EPSILON ahead of the origin. */
  function IntersectTriangle(ray: Ray, tri: Triangle): (r: Option<RayIntersectionResult>)
    ensures -EPSILON < Determinant(ray, tri) < EPSILON ==> r == None
    ensures r.Some? ==> r.value.TriangleResult?
    ensures r.Some? ==> 0.0 <= r.value.u <= 1.0 && r.value.v >= 0.0 && r.value.u + r.value.v <= 1.0
    ensures r.Some? ==> r.value.t > EPSILON
  {
    var edge1 := Sub(tri.v2, tri.v1);
    var edge2 := Sub(tri.v3, tri.v1);
    var h := Cross(ray.direction, edge2);
    var a := Dot(edge1, h);
    if a > -EPSILON && a < EPSILON then None
    else
      var f := 1.0 / a;
      var s := Sub(ray.origin, tri.v1);
      var u := f * Dot(s, h);
      if u < 0.0 || u > 1.0 then None
      else
        var q := Cross(s, edge1);
        var v := f * Dot(ray.direction, q);
        if v < 0.0 || u + v > 1.0 then None
        else
          var t := f * Dot(edge2, q);
          if t > EPSILON then Some(TriangleResult(t, u, v)) else None
  }

  /** The third barycentric weight, 1 - u - v, of any hit is in [0, 1] as well. */
  lemma ThirdWeightInRange(ray: Ray, tri: Triangle)
    requires IntersectTriangle(ray, tri).Some?
    ensures var hit := IntersectTriangle(ray, tri).value; 0.0 <= 1.0 - hit.u - hit.v <= 1.0
  {
  }

  /** Cramer's rule for the system O + tD = V1 + u e1 + v e2, one component at a time,
      multiplied through by the determinant so that no division appears. */
  lemma CramerX(s: Vector3d, d: Vector3d, e1: Vector3d, e2: Vector3d)
    ensures Dot(e1, Cross(d, e2)) * s.x ==
      - Dot(e2, Cross(s, e1)) * d.x + Dot(s, Cross(d, e2)) * e1.x + Dot(d, Cross(s, e1)) * e2.x
  {
  }

  lemma CramerY(s: Vector3d, d: Vector3d, e1: Vector3d, e2: Vector3d)
    ensures Dot(e1, Cross(d, e2)) * s.y ==
      - Dot(e2, Cross(s, e1)) * d.y + Dot(s, Cross(d, e2)) * e1.y + Dot(d, Cross(s, e1)) * e2.y
  {
  }

  lemma CramerZ(s: Vector3d, d: Vector3d, e1: Vector3d, e2: Vector3d)
    ensures Dot(e1, Cross(d, e2)) * s.z ==
      - Dot(e2, Cross(s, e1)) * d.z + Dot(s, Cross(d, e2)) * e1.z + Dot(d, Cross(s, e1)) * e2.z
  {
  }

  /** Dividing one component of Cramer's identity by the nonzero determinant `a`. */
  lemma Solve(a: real, sx: real, tt: real, uu: real, vv: real, dx: real, e1x: real, e2x: real, t: real, u: real, v: real)
    requires a != 0.0 && a * sx == -tt * dx + uu * e1x + vv * e2x
    requires t == (1.0 / a) * tt && u == (1.0 / a) * uu && v == (1.0 / a) * vv
    ensures sx + dx * t == e1x * u + e2x * v
  {
    var f := 1.0 / a;
    assert f * a == 1.0;
    assert sx == f * (a * sx);
    assert f * (a * sx) == f * (-tt * dx + uu * e1x + vv * e2x);
    assert f * (-tt * dx + uu * e1x + vv * e2x) == -(f * tt) * dx + (f * uu) * e1x + (f * vv) * e2x;
  }

  /** Cramer's rule, divided through by the nonzero determinant `a`, solves
      s + tD = u e1 + v e2. */
  lemma CramerSolves(s: Vector3d, d: Vector3d, e1: Vector3d, e2: Vector3d, a: real, tt: real, uu: real, vv: real, t: real, u: real, v: real)
    requires a != 0.0
    requires a * s.x == -tt * d.x + uu * e1.x + vv * e2.x
    requires a * s.y == -tt * d.y + uu * e1.y + vv * e2.y
    requires a * s.z == -tt * d.z + uu * e1.z + vv * e2.z
    requires t == (1.0 / a) * tt && u == (1.0 / a) * uu && v == (1.0 / a) * vv
    ensures Add(s, Scale(d, t)) == Add(Scale(e1, u), Scale(e2, v))
  {
    Solve(a, s.x, tt, uu, vv, d.x, e1.x, e2.x, t, u, v);
    Solve(a, s.y, tt, uu, vv, d.y, e1.y, e2.y, t, u, v);
    Solve(a, s.z, tt, uu, vv, d.z, e1.z, e2.z, t, u, v);
  }

  /** Any hit is the point of the triangle with barycentric coordinates (u, v): the ray
      reaches V1 + u (V2 - V1) + v (V3 - V1) at the returned t. */
  lemma HitLiesOnTriangle(ray: Ray, tri: Triangle)
    requires IntersectTriangle(ray, tri).Some?
    ensures var hit := IntersectTriangle(ray, tri).value;
      At(ray, hit.t) == Add(tri.v1, Add(Scale(Sub(tri.v2, tri.v1), hit.u), Scale(Sub(tri.v3, tri.v1), hit.v)))
  {
    var hit := IntersectTriangle(ray, tri).value;
    var e1, e2, d := Sub(tri.v2, tri.v1), Sub(tri.v3, tri.v1), ray.direction;
    var s := Sub(ray.origin, tri.v1);
    var h, q := Cross(d, e2), Cross(s, e1);
    CramerX(s, d, e1, e2);
    CramerY(s, d, e1, e2);
    CramerZ(s, d, e1, e2);
    CramerSolves(s, d, e1, e2, Dot(e1, h), Dot(e2, q), Dot(s, h), Dot(d, q), hit.t, hit.u, hit.v);
  }
}
