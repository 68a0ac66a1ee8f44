/**
 * The geometry of the block catalogue fixture (`mockBlocks` in
 * application/mock/mockData.ts): ten box-shaped LEGO parts in millimetres,
 * each of which writes its dimensions once and passes them again to the
 * bounds and snap-point helpers.
 */
module MockBlocks {
  import opened Wrappers
  import opened Geometry

  datatype Unit = Mm | Cm | M | In | Ft

  datatype GeometryType = Box | Cylinder | Sphere | Cone | Prism | Extruded | CustomShape

  datatype Dimensions3D = Dimensions3D(width: real, height: real, depth: real, unit: Unit)

  datatype BlockGeometry = BlockGeometry(kind: GeometryType, dimensions: Dimensions3D, bounds: BoundingBox, origin: Vector3)

  /** The part of a block template the core computes with: appearance, physics and metadata other than the category are left out. */
  datatype Block = Block(id: string, name: string, geometry: BlockGeometry, category: string, snapPoints: seq<SnapPoint>)

  function SnapIds(points: seq<SnapPoint>): (ids: seq<SnapId>)
    ensures |ids| == |points|
    ensures forall i :: 0 <= i < |points| ==> ids[i] == points[i].id
  {
    seq(|points|, i requires 0 <= i < |points| => points[i].id)
  }

  /** A block whose bounds and snap points are those its own dimensions give, whatever the snap-point ids. */
  predicate DerivedFromDimensions(b: Block) {
    var d := b.geometry.dimensions;
    && b.geometry.bounds == CalculateBounds(d.width, d.height, d.depth)
    && |b.snapPoints| == 10
    && b.snapPoints == GenerateSnapPoints(d.width, d.height, d.depth, SnapIds(b.snapPoints))
  }

  /**
   * One fixture entry as written: the recorded dimensions, and the arguments
   * the entry passes to `calculateBounds` and to `generateSnapPoints`.
   */
  datatype Entry = Entry(
    id: string, name: string, category: string, dimensions: Dimensions3D,
    boundsArgs: (real, real, real), snapArgs: (real, real, real))

  /** The entries of `mockBlocks`, in order. */
  const Entries: seq<Entry> := [
    Entry("block-lego-1x1", "Brique LEGO 1x1", "brique",
          Dimensions3D(8.0, 9.6, 8.0, Mm), (8.0, 9.6, 8.0), (8.0, 9.6, 8.0)),
    Entry("block-lego-1x2", "Brique LEGO 1x2", "brique",
          Dimensions3D(8.0, 9.6, 16.0, Mm), (8.0, 9.6, 16.0), (8.0, 9.6, 16.0)),
    Entry("block-lego-2x2", "Brique LEGO 2x2", "brique",
          Dimensions3D(16.0, 9.6, 16.0, Mm), (16.0, 9.6, 16.0), (16.0, 9.6, 16.0)),
    Entry("block-lego-2x4", "Brique LEGO 2x4", "brique",
          Dimensions3D(16.0, 9.6, 32.0, Mm), (16.0, 9.6, 32.0), (16.0, 9.6, 32.0)),
    Entry("block-lego-4x4", "Brique LEGO 4x4", "brique",
          Dimensions3D(32.0, 9.6, 32.0, Mm), (32.0, 9.6, 32.0), (32.0, 9.6, 32.0)),
    Entry("block-lego-plate-1x1", "Plaque LEGO 1x1", "plaque",
          Dimensions3D(8.0, 3.2, 8.0, Mm), (8.0, 3.2, 8.0), (8.0, 3.2, 8.0)),
    Entry("block-lego-plate-2x4", "Plaque LEGO 2x4", "plaque",
          Dimensions3D(16.0, 3.2, 32.0, Mm), (16.0, 3.2, 32.0), (16.0, 3.2, 32.0)),
    Entry("block-lego-1x6", "Brique LEGO 1x6", "brique",
          Dimensions3D(8.0, 9.6, 48.0, Mm), (8.0, 9.6, 48.0), (8.0, 9.6, 48.0)),
    Entry("block-lego-2x6", "Brique LEGO 2x6", "brique",
          Dimensions3D(16.0, 9.6, 48.0, Mm), (16.0, 9.6, 48.0), (16.0, 9.6, 48.0)),
    Entry("block-lego-1x1-tall", "Brique LEGO 1x1 Haute", "brique",
          Dimensions3D(8.0, 19.2, 8.0, Mm), (8.0, 19.2, 8.0), (8.0, 19.2, 8.0))
  ]

  /** The block an entry denotes: its own fields, the helpers' results for its arguments, and `ids` as snap-point ids. */
  function Build(e: Entry, ids: seq<SnapId>): (b: Block)
    requires |ids| == 10
    ensures b.id == e.id && b.name == e.name && b.category == e.category
    ensures b.geometry.kind == Box && b.geometry.dimensions == e.dimensions && b.geometry.origin == Origin
    ensures b.geometry.bounds.size == Some(Vector3(e.boundsArgs.0, e.boundsArgs.1, e.boundsArgs.2))
    ensures |b.snapPoints| == 10 && SnapIds(b.snapPoints) == ids
  {
    var (bw, bh, bd) := e.boundsArgs;
    var (sw, sh, sd) := e.snapArgs;
    Block(e.id, e.name, BlockGeometry(Box, e.dimensions, CalculateBounds(bw, bh, bd), Origin),
          e.category, GenerateSnapPoints(sw, sh, sd, ids))
  }

  /** An entry whose helper arguments repeat its dimensions builds a block derived from them. */
  lemma BuildDerived(e: Entry, ids: seq<SnapId>)
    requires |ids| == 10
    requires e.boundsArgs == e.snapArgs == (e.dimensions.width, e.dimensions.height, e.dimensions.depth)
    ensures DerivedFromDimensions(Build(e, ids))
  {
    var b := Build(e, ids);
    assert SnapIds(b.snapPoints) == ids;
  }

  /** `mockBlocks`; `ids[k]` stands for the ten random snap-point ids of entry `k`. */
  function Catalogue(ids: seq<seq<SnapId>>): (blocks: seq<Block>)
    requires |ids| == |Entries| && forall k :: 0 <= k < |ids| ==> |ids[k]| == 10
    ensures |blocks| == |Entries|
    ensures forall k :: 0 <= k < |blocks| ==> blocks[k].id == Entries[k].id && blocks[k].geometry.kind == Box
  {
    seq(|Entries|, k requires 0 <= k < |Entries| => Build(Entries[k], ids[k]))
  }

  /**
   * A block derived from non-negative dimensions keeps every snap point
   * inside its own bounds, each facing along one axis, with the corners at
   * the box's eight corners.
   */
  lemma DerivedBlockIsConsistent(b: Block)
    requires DerivedFromDimensions(b)
    requires b.geometry.dimensions.width >= 0.0 && b.geometry.dimensions.height >= 0.0 && b.geometry.dimensions.depth >= 0.0
    ensures forall i :: 0 <= i < |b.snapPoints| ==>
      Contains(b.geometry.bounds, b.snapPoints[i].position) && IsUnitAxis(b.snapPoints[i].normal)
    ensures var d := b.geometry.dimensions;
      CornerPositions(b.snapPoints) == SignCombinations(d.width, d.height, d.depth)
  {
    var d := b.geometry.dimensions;
    SnapPointsWithinBounds(d.width, d.height, d.depth, SnapIds(b.snapPoints));
    CornersAreSignCombinations(d.width, d.height, d.depth, SnapIds(b.snapPoints));
  }

  /** Each entry is in millimetres with positive dimensions that its helper arguments repeat, and entry ids are distinct. */
  lemma EntriesAreWellFormed()
    ensures forall k, l :: 0 <= k < l < |Entries| ==> Entries[k].id != Entries[l].id
    ensures forall k :: 0 <= k < |Entries| ==>
      && var d := Entries[k].dimensions;
      && d.unit == Mm && d.width > 0.0 && d.height > 0.0 && d.depth > 0.0
      && Entries[k].boundsArgs == Entries[k].snapArgs == (d.width, d.height, d.depth)
  {
  }

  /**
   * Every catalogue entry is in millimetres with positive dimensions, the
   * block ids are distinct, and each block's bounds and snap points derive
   * from its own dimensions, so its snap points lie within its bounds.
   */
  lemma CatalogueIsConsistent(ids: seq<seq<SnapId>>)
    requires |ids| == |Entries| && forall k :: 0 <= k < |ids| ==> |ids[k]| == 10
    ensures var blocks := Catalogue(ids);
      && (forall k, l :: 0 <= k < l < |blocks| ==> blocks[k].id != blocks[l].id)
      && forall k :: 0 <= k < |blocks| ==>
        && var d := blocks[k].geometry.dimensions;
        && d.unit == Mm && d.width > 0.0 && d.height > 0.0 && d.depth > 0.0
        && DerivedFromDimensions(blocks[k])
        && forall i :: 0 <= i < |blocks[k].snapPoints| ==>
          Contains(blocks[k].geometry.bounds, blocks[k].snapPoints[i].position)
  {
    var blocks := Catalogue(ids);
    EntriesAreWellFormed();
    forall k | 0 <= k < |blocks|
      ensures var d := blocks[k].geometry.dimensions;
        && d.unit == Mm && d.width > 0.0 && d.height > 0.0 && d.depth > 0.0
        && DerivedFromDimensions(blocks[k])
        && forall i :: 0 <= i < |blocks[k].snapPoints| ==>
          Contains(blocks[k].geometry.bounds, blocks[k].snapPoints[i].position)
    {
      BuildDerived(Entries[k], ids[k]);
      DerivedBlockIsConsistent(blocks[k]);
    }
  }
}
