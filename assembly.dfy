/**
 * Assembly of the primary animation (src/convert.rs:796-843): the converted
 * entries are put in (clump, coord, format) order, the stream's clumps are
 * copied one by one, and the stream's loop flag and tables are carried over.
 */
module Assembly {
  import opened AnmTypes
  import opened EntryOrder

  /** An output animation; the damage split edits the primary one's entry list in place. */
  class Anm {
    var structInfo: StructInfo
    var version: int
    var frameCount: int
    var isLooped: bool
    var clumps: seq<AnmClump>
    var otherEntriesIndices: seq<int>
    var unkEntryIndices: seq<int>
    var coordParents: seq<CoordParent>
    var entries: seq<AnmEntry>

    constructor (structInfo: StructInfo, frameCount: int, isLooped: bool, clumps: seq<AnmClump>,
                 otherEntriesIndices: seq<int>, coordParents: seq<CoordParent>, entries: seq<AnmEntry>)
      ensures this.structInfo == structInfo && version == AnmVersion && this.frameCount == frameCount
      ensures this.isLooped == isLooped && this.clumps == clumps
      ensures this.otherEntriesIndices == otherEntriesIndices && unkEntryIndices == []
      ensures this.coordParents == coordParents && this.entries == entries
    {
      this.structInfo := structInfo;
      version := AnmVersion;
      this.frameCount := frameCount;
      this.isLooped := isLooped;
      this.clumps := clumps;
      this.otherEntriesIndices := otherEntriesIndices;
      unkEntryIndices := [];
      this.coordParents := coordParents;
      this.entries := entries;
    }
  }

  /** True when `a` is a field-by-field copy of `c`. */
  predicate CopiedClump(c: StrmClump, a: AnmClump) {
    a.clumpIndex == c.clumpIndex && a.boneMaterialIndices == c.boneMaterialIndices
    && a.modelIndices == c.modelIndices
  }

  /** The clump loop: one copied clump per stream clump, in order. */
  method CopyClumps(clumps: seq<StrmClump>) returns (r: seq<AnmClump>)
    ensures |r| == |clumps|
    ensures forall i :: 0 <= i < |r| ==> CopiedClump(clumps[i], r[i])
  {
    r := [];
    for i := 0 to |clumps|
      invariant |r| == i
      invariant forall k :: 0 <= k < i ==> CopiedClump(clumps[k], r[k])
    {
      var clump := clumps[i];
      r := r + [AnmClump(clump.clumpIndex, clump.boneMaterialIndices, clump.modelIndices)];
    }
  }

  /**
   * build_anm: the entries are the converted ones, rearranged into
   * (clump, coord, format) order; frame count is the stream's minus 100,
   * which the source computes in unsigned arithmetic and so needs at least 100.
   */
  method BuildAnm(strm: AnmStrm, entries: seq<AnmEntry>, info: StructInfo) returns (anm: Anm)
    requires strm.frameCount >= FrameCountOffset
    ensures fresh(anm)
    ensures anm.entries == SortBy(entries, ByCoordAndFormat)
    ensures Sorted(anm.entries, ByCoordAndFormat) && multiset(anm.entries) == multiset(entries)
    ensures |anm.clumps| == |strm.clumps|
    ensures forall i :: 0 <= i < |anm.clumps| ==> CopiedClump(strm.clumps[i], anm.clumps[i])
    ensures anm.structInfo == info && anm.version == AnmVersion
    ensures anm.frameCount == strm.frameCount - FrameCountOffset && anm.isLooped == strm.isLooped
    ensures anm.otherEntriesIndices == strm.otherEntryIndices && anm.unkEntryIndices == []
    ensures anm.coordParents == strm.coordParents
  {
    var sorted := SortBy(entries, ByCoordAndFormat);
    OrdersAreTotal();
    SortBySorted(entries, ByCoordAndFormat);
    var clumps := CopyClumps(strm.clumps);
    anm := new Anm(info, strm.frameCount - FrameCountOffset, strm.isLooped, clumps,
                   strm.otherEntryIndices, strm.coordParents, sorted);
  }
}
