/**
 * Box geometry of a block template (application/mock/mockData.ts): the
 * bounding box centred on the origin and the ten default snap points.
 * Lengths are reals: the source only halves and negates its inputs, which
 * IEEE doubles do exactly away from underflow.
 */
module Geometry {
  import opened Wrappers

  datatype Vector3 = Vector3(x: real, y: real, z: real)

  /** `center` and `size` are optional in the declared type. */
  datatype BoundingBox = BoundingBox(min: Vector3, max: Vector3, center: Option<Vector3>, size: Option<Vector3>)

  datatype SnapPointType = Edge | Corner | Center | Custom

  datatype SnapConstraints = SnapConstraints(
    allowedBlockTypes: Option<seq<string>>,
    allowedCategories: Option<seq<string>>,
    maxConnections: Option<int>,
    rotationLocked: Option<bool>)

  /** Snap-point ids are random strings in the source; here they are opaque values supplied by the caller. */
  type SnapId = string

  datatype SnapPoint = SnapPoint(
    id: SnapId,
    position: Vector3,
    normal: Vector3,
    kind: SnapPointType,
    constraints: Option<SnapConstraints>,
    color: Option<string>,
    size: Option<real>,
    enabled: bool,
    locked: Option<bool>)

  const Origin := Vector3(0.0, 0.0, 0.0)

  function Negate(v: Vector3): Vector3 {
    Vector3(-v.x, -v.y, -v.z)
  }

  function Sub(a: Vector3, b: Vector3): Vector3 {
    Vector3(a.x - b.x, a.y - b.y, a.z - b.z)
  }

  predicate Contains(b: BoundingBox, p: Vector3) {
    && b.min.x <= p.x <= b.max.x
    && b.min.y <= p.y <= b.max.y
    && b.min.z <= p.z <= b.max.z
  }

  /** The six outward axis directions. */
  predicate IsUnitAxis(n: Vector3) {
    n in {Vector3(1.0, 0.0, 0.0), Vector3(-1.0, 0.0, 0.0),
          Vector3(0.0, 1.0, 0.0), Vector3(0.0, -1.0, 0.0),
          Vector3(0.0, 0.0, 1.0), Vector3(0.0, 0.0, -1.0)}
  }

  /** `calculateBounds`: the block's box, symmetric about the origin, whose extent is its dimensions. */
  function CalculateBounds(width: real, height: real, depth: real): (b: BoundingBox)
    ensures b.min == Negate(b.max)
    ensures b.center == Some(Origin)
    ensures b.size == Some(Vector3(width, height, depth))
    ensures Sub(b.max, b.min) == Vector3(width, height, depth)
  {
    BoundingBox(
      Vector3(-width / 2.0, -height / 2.0, -depth / 2.0),
      Vector3(width / 2.0, height / 2.0, depth / 2.0),
      Some(Vector3(0.0, 0.0, 0.0)),
      Some(Vector3(width, height, depth)))
  }

  /** With non-negative dimensions the box is not inverted on any axis and holds the origin. */
  lemma BoundsOrdered(width: real, height: real, depth: real)
    requires width >= 0.0 && height >= 0.0 && depth >= 0.0
    ensures var b := CalculateBounds(width, height, depth);
      b.min.x <= b.max.x && b.min.y <= b.max.y && b.min.z <= b.max.z && Contains(b, Origin)
  {
  }

  /** A snap point as the source writes it: enabled, and with no constraints, colour, size or lock. */
  function Point(id: SnapId, position: Vector3, normal: Vector3, kind: SnapPointType): SnapPoint {
    SnapPoint(id, position, normal, kind, None, None, None, true, None)
  }

  /**
   * `generateSnapPoints`: four bottom corners, four top corners, then the
   * top and bottom face centres. `ids` stands for the ten calls to the
   * random id generator, in order.
   */
  function GenerateSnapPoints(width: real, height: real, depth: real, ids: seq<SnapId>): (points: seq<SnapPoint>)
    requires |ids| == 10
    ensures |points| == 10
    ensures forall i :: 0 <= i < 10 ==>
      && points[i].id == ids[i]
      && points[i].kind == (if i < 8 then Corner else Center)
      && points[i].enabled
      && points[i].constraints == None
      && points[i].color == None && points[i].size == None && points[i].locked == None
  {
    var w2 := width / 2.0;
    var h2 := height / 2.0;
    var d2 := depth / 2.0;
    [
      Point(ids[0], Vector3(-w2, -h2, -d2), Vector3(-1.0, 0.0, 0.0), Corner),
      Point(ids[1], Vector3(w2, -h2, -d2), Vector3(1.0, 0.0, 0.0), Corner),
      Point(ids[2], Vector3(-w2, -h2, d2), Vector3(-1.0, 0.0, 0.0), Corner),
      Point(ids[3], Vector3(w2, -h2, d2), Vector3(1.0, 0.0, 0.0), Corner),
      Point(ids[4], Vector3(-w2, h2, -d2), Vector3(-1.0, 0.0, 0.0), Corner),
      Point(ids[5], Vector3(w2, h2, -d2), Vector3(1.0, 0.0, 0.0), Corner),
      Point(ids[6], Vector3(-w2, h2, d2), Vector3(-1.0, 0.0, 0.0), Corner),
      Point(ids[7], Vector3(w2, h2, d2), Vector3(1.0, 0.0, 0.0), Corner),
      Point(ids[8], Vector3(0.0, h2, 0.0), Vector3(0.0, 1.0, 0.0), Center),
      Point(ids[9], Vector3(0.0, -h2, 0.0), Vector3(0.0, -1.0, 0.0), Center)
    ]
  }

  function SignOf(positive: bool): real {
    if positive then 1.0 else -1.0
  }

  /**
   * Corner `i` takes the sign of x from bit 0 of `i`, of z from bit 1 and of y
   * from bit 2: corners 0-3 are the bottom face, 4-7 the top face. Its normal
   * points along x, outward on the side the corner sits on.
   */
  lemma CornerLayout(width: real, height: real, depth: real, ids: seq<SnapId>)
    requires |ids| == 10
    ensures var points := GenerateSnapPoints(width, height, depth, ids);
      forall i :: 0 <= i < 8 ==>
        && points[i].position == Vector3(SignOf(i % 2 == 1) * (width / 2.0),
                                         SignOf(i >= 4) * (height / 2.0),
                                         SignOf(i % 4 >= 2) * (depth / 2.0))
        && points[i].normal == Vector3(SignOf(i % 2 == 1), 0.0, 0.0)
  {
  }

  /** The corner of the box of half-extents (w/2, h/2, d/2) on the chosen side of each axis. */
  function SignedCorner(width: real, height: real, depth: real, px: bool, py: bool, pz: bool): Vector3 {
    Vector3(SignOf(px) * (width / 2.0), SignOf(py) * (height / 2.0), SignOf(pz) * (depth / 2.0))
  }

  /** All eight sign combinations (±w/2, ±h/2, ±d/2). */
  ghost function SignCombinations(width: real, height: real, depth: real): set<Vector3> {
    set px: bool, py: bool, pz: bool :: SignedCorner(width, height, depth, px, py, pz)
  }

  ghost function CornerPositions(points: seq<SnapPoint>): set<Vector3> {
    set i | 0 <= i < |points| && i < 8 :: points[i].position
  }

  /** The corner snap points sit at exactly the eight sign combinations (±w/2, ±h/2, ±d/2). */
  lemma CornersAreSignCombinations(width: real, height: real, depth: real, ids: seq<SnapId>)
    requires |ids| == 10
    ensures CornerPositions(GenerateSnapPoints(width, height, depth, ids)) == SignCombinations(width, height, depth)
  {
    var points := GenerateSnapPoints(width, height, depth, ids);
    CornerLayout(width, height, depth, ids);
    forall p | p in SignCombinations(width, height, depth)
      ensures p in CornerPositions(points)
    {
      var px: bool, py: bool, pz: bool :| p == SignedCorner(width, height, depth, px, py, pz);
      var i := (if px then 1 else 0) + (if pz then 2 else 0) + (if py then 4 else 0);
      assert points[i].position == p;
    }
    forall p | p in CornerPositions(points)
      ensures p in SignCombinations(width, height, depth)
    {
      var i :| 0 <= i < 8 && points[i].position == p;
      assert p == SignedCorner(width, height, depth, i % 2 == 1, i >= 4, i % 4 >= 2);
    }
  }

  /**
   * A corner's normal is determined by its x coordinate alone: (1,0,0) on the
   * +w/2 side, (-1,0,0) on the -w/2 side; y and z play no part.
   */
  lemma CornerNormalFollowsX(width: real, height: real, depth: real, ids: seq<SnapId>)
    requires |ids| == 10
    requires width != 0.0
    ensures var points := GenerateSnapPoints(width, height, depth, ids);
      forall i :: 0 <= i < 8 ==>
        && (points[i].position.x == width / 2.0 <==> points[i].normal == Vector3(1.0, 0.0, 0.0))
        && (points[i].position.x == -width / 2.0 <==> points[i].normal == Vector3(-1.0, 0.0, 0.0))
  {
    CornerLayout(width, height, depth, ids);
  }

  /** Index 8 is the top face centre facing up, index 9 the bottom face centre facing down. */
  lemma FaceCentres(width: real, height: real, depth: real, ids: seq<SnapId>)
    requires |ids| == 10
    ensures var points := GenerateSnapPoints(width, height, depth, ids);
      && points[8].position == Vector3(0.0, height / 2.0, 0.0) && points[8].normal == Vector3(0.0, 1.0, 0.0)
      && points[9].position == Vector3(0.0, -height / 2.0, 0.0) && points[9].normal == Vector3(0.0, -1.0, 0.0)
  {
  }

  /** For non-negative dimensions every snap point lies in the block's box and faces along one axis. */
  lemma SnapPointsWithinBounds(width: real, height: real, depth: real, ids: seq<SnapId>)
    requires |ids| == 10
    requires width >= 0.0 && height >= 0.0 && depth >= 0.0
    ensures var points := GenerateSnapPoints(width, height, depth, ids);
      forall i :: 0 <= i < 10 ==>
        Contains(CalculateBounds(width, height, depth), points[i].position) && IsUnitAxis(points[i].normal)
  {
  }
}
