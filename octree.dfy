/** The octree node of the collision module: a bounding box, a list of child nodes that
    `Subdivide` appends to, and an optional piece of leaf geometry. */
module Octrees {
  import opened Vectors
  import opened Wrappers
  import opened Boxes

  /** The eight octant boxes that `subdivide` builds from a node's bounds, in the order it
      pushes them: the four bottom boxes (back-left, front-left, front-right, back-right),
      then the four top boxes in the same order. The x and z axes are split at half their
      extents; the top boxes start at `y_min` plus half the z extent, as the source has it. */
  function OctantBoxes(bounds: AABB): (boxes: seq<AABB>)
    ensures |boxes| == 8
    ensures forall k :: 0 <= k < 8 ==> boxes[k].innerGeometry == Empty
  {
    var Vector3d(xMin, yMin, zMin) := bounds.minCoords;
    var Vector3d(xMax, yMax, zMax) := bounds.maxCoords;
    var halfX := (xMax - xMin) / 2.0;
    var halfY := (yMax - yMin) / 2.0;
    var halfZ := (zMax - zMin) / 2.0;
    [ New(xMin, xMin + halfX, yMin, yMin + halfY, zMin, zMin + halfZ),
      New(xMin, xMin + halfX, yMin, yMin + halfY, zMin + halfZ, zMax),
      New(xMin + halfX, xMax, yMin, yMin + halfY, zMin + halfZ, zMax),
      New(xMin + halfX, xMax, yMin, yMin + halfY, zMin, zMin + halfZ),
      New(xMin, xMin + halfX, yMin + halfZ, yMax, zMin, zMin + halfZ),
      New(xMin, xMin + halfX, yMin + halfZ, yMax, zMin + halfZ, zMax),
      New(xMin + halfX, xMax, yMin + halfZ, yMax, zMin + halfZ, zMax),
      New(xMin + halfX, xMax, yMin + halfZ, yMax, zMin, zMin + halfZ) ]
  }

  /** The leaf geometry a new child receives: the geometry handed down, if it meets the
      child's box. */
  function ChildGeometry(geometry: Option<AABB>, box: AABB): Option<AABB> {
    if geometry.Some? && Intersects(geometry.value, box) then geometry else None
  }

  /** x and z are split at the parent's midpoint: every octant spans the lower or the upper
      half of each of these axes. */
  lemma {:induction false} OctantsSplitXAndZAtMidpoint(bounds: AABB, k: nat)
    requires k < 8
    ensures var b, mid := OctantBoxes(bounds)[k], (bounds.minCoords.x + bounds.maxCoords.x) / 2.0;
      (b.minCoords.x == bounds.minCoords.x && b.maxCoords.x == mid) ||
      (b.minCoords.x == mid && b.maxCoords.x == bounds.maxCoords.x)
    ensures var b, mid := OctantBoxes(bounds)[k], (bounds.minCoords.z + bounds.maxCoords.z) / 2.0;
      (b.minCoords.z == bounds.minCoords.z && b.maxCoords.z == mid) ||
      (b.minCoords.z == mid && b.maxCoords.z == bounds.maxCoords.z)
  {
    var boxes := OctantBoxes(bounds);
    if k < 2 {
      assert k == 0 || k == 1;
    } else if k < 4 {
      assert k == 2 || k == 3;
    } else if k < 6 {
      assert k == 4 || k == 5;
    } else {
      assert k == 6 || k == 7;
    }
  }

  /** The bottom four octants span y from `y_min` to `y_min` plus half the y extent; the top
      four span y from `y_min` plus half the z extent to `y_max`. */
  lemma {:induction false} OctantsYRanges(bounds: AABB, k: nat)
    requires k < 8
    ensures var b, yMin := OctantBoxes(bounds)[k], bounds.minCoords.y;
      if k < 4 then
        b.minCoords.y == yMin && b.maxCoords.y == yMin + (bounds.maxCoords.y - yMin) / 2.0
      else
        b.minCoords.y == yMin + (bounds.maxCoords.z - bounds.minCoords.z) / 2.0 && b.maxCoords.y == bounds.maxCoords.y
  {
    var boxes := OctantBoxes(bounds);
    if k < 2 {
      assert k == 0 || k == 1;
    } else if k < 4 {
      assert k == 2 || k == 3;
    } else if k < 6 {
      assert k == 4 || k == 5;
    } else {
      assert k == 6 || k == 7;
    }
  }

  /** The bottom and top halves meet exactly when the y and z extents are equal. */
  lemma YHalvesMeetIffExtentsEqual(bounds: AABB)
    ensures OctantBoxes(bounds)[0].maxCoords.y == OctantBoxes(bounds)[4].minCoords.y
        <==> bounds.maxCoords.y - bounds.minCoords.y == bounds.maxCoords.z - bounds.minCoords.z
  {
  }

  /** When the z extent exceeds the y extent, a slab of the node lies in no octant. */
  lemma {:induction false} OctantsLeaveGap(bounds: AABB)
    requires WellFormed(bounds) && bounds.minCoords.y < bounds.maxCoords.y
    requires bounds.maxCoords.z - bounds.minCoords.z > bounds.maxCoords.y - bounds.minCoords.y
    ensures exists p :: Contains(bounds, p) && forall k :: 0 <= k < 8 ==> !Contains(OctantBoxes(bounds)[k], p)
  {
    var lo, hi := bounds.minCoords, bounds.maxCoords;
    var top := Min(lo.y + (hi.z - lo.z) / 2.0, hi.y);
    var p := Vector3d(lo.x, (lo.y + (hi.y - lo.y) / 2.0 + top) / 2.0, lo.z);
    var boxes := OctantBoxes(bounds);
    forall k | 0 <= k < 8
      ensures !Contains(boxes[k], p)
    {
      OctantsYRanges(bounds, k);
    }
    assert Contains(bounds, p);
  }

  class Octree {
    var boundingBox: AABB
    var children: seq<Octree>
    var leafGeometry: Option<AABB>

    /** `Octree::new`: a node over the given bounds with no children and no geometry. */
    constructor (minX: real, maxX: real, minY: real, maxY: real, minZ: real, maxZ: real)
      ensures boundingBox == New(minX, maxX, minY, maxY, minZ, maxZ)
      ensures children == [] && leafGeometry == None
    {
      boundingBox := New(minX, maxX, minY, maxY, minZ, maxZ);
      children := [];
      leafGeometry := None;
    }

    /** The child node that `subdivide` pushes: a box, no children, and some geometry. */
    constructor Child(box: AABB, geometry: Option<AABB>)
      ensures boundingBox == box && children == [] && leafGeometry == geometry
    {
      boundingBox := box;
      children := [];
      leafGeometry := geometry;
    }

    /** `Octree::push`: a childless node subdivides, handing its own leaf geometry to the
        octants and dropping `box`; a node with children stores `box` as its leaf geometry. */
    method Push(box: AABB)
      modifies this
      ensures boundingBox == old(boundingBox)
      ensures old(children) == [] ==>
        && leafGeometry == old(leafGeometry)
        && |children| == 8
        && forall k :: 0 <= k < 8 ==>
             && fresh(children[k])
             && children[k].boundingBox == OctantBoxes(boundingBox)[k]
             && children[k].children == []
             && children[k].leafGeometry == ChildGeometry(old(leafGeometry), OctantBoxes(boundingBox)[k])
      ensures old(children) != [] ==> children == old(children) && leafGeometry == Some(box)
    {
      if |children| == 0 {
        Subdivide(leafGeometry);
      } else {
        leafGeometry := Some(box);
      }
    }

    /** The loop of `subdivide` over its octant boxes: for each box in order a new childless
        node is pushed, holding `geometry` when that geometry meets the box and nothing
        otherwise. */
    method PushOctants(boxes: seq<AABB>, geometry: Option<AABB>)
      modifies this
      ensures boundingBox == old(boundingBox) && leafGeometry == old(leafGeometry)
      ensures |children| == |old(children)| + |boxes|
      ensures children[..|old(children)|] == old(children)
      ensures forall i :: |old(children)| <= i < |children| ==>
        && fresh(children[i])
        && children[i].boundingBox == boxes[i - |old(children)|]
        && children[i].children == []
        && children[i].leafGeometry == ChildGeometry(geometry, boxes[i - |old(children)|])
    {
      var n := |children|;
      for k := 0 to |boxes|
        invariant boundingBox == old(boundingBox) && leafGeometry == old(leafGeometry)
        invariant |children| == n + k
        invariant children[..n] == old(children)
        invariant forall i :: n <= i < n + k ==>
          && fresh(children[i])
          && children[i].boundingBox == boxes[i - n]
          && children[i].children == []
          && children[i].leafGeometry == ChildGeometry(geometry, boxes[i - n])
      {
        var lg: Option<AABB> := None;
        if geometry.Some? {
          if Intersects(geometry.value, boxes[k]) {
            lg := geometry;
          }
        }
        var child := new Octree.Child(boxes[k], lg);
        children := children + [child];
      }
    }

    /** `Octree::subdivide`: appends the eight octants as new childless nodes; each one gets
        `geometry` when that geometry meets its box, and nothing otherwise. The node's own box
        and leaf geometry are left alone. */
    method Subdivide(geometry: Option<AABB>)
      modifies this
      ensures boundingBox == old(boundingBox) && leafGeometry == old(leafGeometry)
      ensures |children| == |old(children)| + 8
      ensures children[..|old(children)|] == old(children)
      ensures forall i :: |old(children)| <= i < |children| ==>
        && fresh(children[i])
        && children[i].boundingBox == OctantBoxes(boundingBox)[i - |old(children)|]
        && children[i].children == []
        && children[i].leafGeometry == ChildGeometry(geometry, OctantBoxes(boundingBox)[i - |old(children)|])
    {
      PushOctants(OctantBoxes(boundingBox), geometry);
    }
  }
}
