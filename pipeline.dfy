/**
 * convert_anmstrm (src/convert.rs:28-66): collect the frames, convert every
 * object index, assemble the primary animation, split off the damage
 * animation, and return both, primary first. Finding the stream and its
 * frames in the container is not part of this model: they are inputs.
 */
module Pipeline {
  import opened AnmTypes
  import opened FrameCollector
  import opened CurveFinalizer
  import opened EntryConverter
  import opened EntryOrder
  import opened Assembly
  import opened ClumpSplitter

  /**
   * What collection and conversion rely on: supported samples only where the
   * first frame has a slot, non-empty columns indexed below 2^16, and each
   * column of a single variant.
   */
  predicate WellFormedFrames(frames: seq<seq<AnmStrmEntry>>) {
    && FramesFit(frames)
    && (forall j :: U16Modulus <= j < EntryCount(frames) ==> Collected(frames, |frames|, j) == [])
    && (forall j :: 0 <= j < EntryCount(frames) ==> Uniform(Collected(frames, |frames|, j)))
  }

  /** The inputs the source's unchecked steps rely on. */
  predicate WellFormedInput(strm: AnmStrm, frames: seq<seq<AnmStrmEntry>>) {
    WellFormedFrames(frames) && strm.frameCount >= FrameCountOffset
  }

  /**
   * The two animations: the primary holds the converted entries outside
   * the damage clump in (clump, coord, format) order, the damage one the
   * entries of clump d in coordinate order; together they hold every
   * converted entry exactly once, and each converted entry is the
   * conversion of one object index's collected samples.
   */
  method ConvertAnmstrm(strm: AnmStrm, frames: seq<seq<AnmStrmEntry>>, anmInfo: StructInfo,
                        dmgInfo: StructInfo, lib: CurveLib)
    returns (anms: seq<Anm>, ghost order: seq<nat>, ghost converted: seq<AnmEntry>,
             ghost assembled: seq<AnmEntry>, ghost d: nat)
    requires WellFormedInput(strm, frames)
    ensures |anms| == 2 && fresh(anms[0]) && fresh(anms[1]) && anms[0] != anms[1]
    ensures ConvertsColumns(frames, lib, order, converted)
    ensures assembled == SortBy(converted, ByCoordAndFormat)
    ensures anms[1].entries == WithClump(assembled, AsI16Wrap(d))
    ensures anms[0].entries == WithoutClump(assembled, AsI16Wrap(d))
    ensures multiset(anms[0].entries) + multiset(anms[1].entries) == multiset(converted)
    ensures Sorted(anms[0].entries, ByCoordAndFormat) && Sorted(anms[1].entries, ByCoordIndex)
    ensures IsDamagePosition(anms[0].clumps, d) && anms[1].clumps == anms[0].clumps
    ensures forall e :: e in anms[1].entries ==> e.coord.clumpIndex == AsI16Wrap(d)
    ensures forall e :: e in anms[0].entries ==> e.coord.clumpIndex != AsI16Wrap(d)
    ensures anms[0].frameCount == anms[1].frameCount == strm.frameCount - FrameCountOffset
    ensures anms[0].version == anms[1].version == AnmVersion
    ensures anms[0].structInfo == anmInfo && anms[1].structInfo == dmgInfo
    ensures |anms[0].clumps| == |strm.clumps|
    ensures forall i :: 0 <= i < |strm.clumps| ==> CopiedClump(strm.clumps[i], anms[0].clumps[i])
    ensures anms[0].isLooped == anms[1].isLooped == strm.isLooped
    ensures anms[0].coordParents == anms[1].coordParents == strm.coordParents
    ensures anms[0].otherEntriesIndices == strm.otherEntryIndices && anms[1].otherEntriesIndices == []
    ensures anms[0].unkEntryIndices == anms[1].unkEntryIndices == []
  {
    var entries;
    entries, order := ConvertFrames(frames, lib);
    converted := entries;
    var anm, dmg;
    anm, dmg, assembled, d := AssembleAnms(strm, entries, anmInfo, dmgInfo);
    anms := [anm, dmg];
  }

  /**
   * build_anm followed by build_dmg_anm on the converted entries: the
   * primary animation after the split, and the damage one.
   */
  method AssembleAnms(strm: AnmStrm, entries: seq<AnmEntry>, anmInfo: StructInfo, dmgInfo: StructInfo)
    returns (anm: Anm, dmg: Anm, ghost assembled: seq<AnmEntry>, ghost d: nat)
    requires strm.frameCount >= FrameCountOffset
    ensures fresh(anm) && fresh(dmg) && anm != dmg
    ensures assembled == SortBy(entries, ByCoordAndFormat)
    ensures dmg.entries == WithClump(assembled, AsI16Wrap(d))
    ensures anm.entries == WithoutClump(assembled, AsI16Wrap(d))
    ensures multiset(anm.entries) + multiset(dmg.entries) == multiset(entries)
    ensures Sorted(anm.entries, ByCoordAndFormat) && Sorted(dmg.entries, ByCoordIndex)
    ensures IsDamagePosition(anm.clumps, d) && dmg.clumps == anm.clumps
    ensures forall e :: e in dmg.entries ==> e.coord.clumpIndex == AsI16Wrap(d)
    ensures forall e :: e in anm.entries ==> e.coord.clumpIndex != AsI16Wrap(d)
    ensures anm.frameCount == dmg.frameCount == strm.frameCount - FrameCountOffset
    ensures anm.version == dmg.version == AnmVersion
    ensures anm.structInfo == anmInfo && dmg.structInfo == dmgInfo
    ensures |anm.clumps| == |strm.clumps|
    ensures forall i :: 0 <= i < |strm.clumps| ==> CopiedClump(strm.clumps[i], anm.clumps[i])
    ensures anm.isLooped == dmg.isLooped == strm.isLooped
    ensures anm.coordParents == dmg.coordParents == strm.coordParents
    ensures anm.otherEntriesIndices == strm.otherEntryIndices && dmg.otherEntriesIndices == []
    ensures anm.unkEntryIndices == dmg.unkEntryIndices == []
  {
    anm := BuildAnm(strm, entries, anmInfo);
    assembled := anm.entries;
    dmg, d := BuildDmgAnm(anm, strm, dmgInfo);
    DamageResortIsIdentity(assembled, AsI16Wrap(d));
    SplitIsPartition(assembled, AsI16Wrap(d));
    SplitKeepsOrder(assembled, AsI16Wrap(d), ByCoordAndFormat);
  }

  /**
   * `converted` lists one entry per non-empty column, each column once
   * (`order` names the column of each entry), and each entry is the
   * conversion of its column.
   */
  ghost predicate ConvertsColumns(frames: seq<seq<AnmStrmEntry>>, lib: CurveLib, order: seq<nat>,
                                  converted: seq<AnmEntry>)
    requires forall j :: 0 <= j < EntryCount(frames) ==> Uniform(Collected(frames, |frames|, j))
  {
    && |converted| == |order|
    && (forall i :: 0 <= i < |order| ==>
          && order[i] < EntryCount(frames) && Collected(frames, |frames|, order[i]) != []
          && converted[i] == Converted(Collected(frames, |frames|, order[i]), lib))
    && (forall a, b :: 0 <= a < b < |order| ==> order[a] != order[b])
    && (forall j: nat :: j < EntryCount(frames) && Collected(frames, |frames|, j) != [] ==> j in order)
  }

  /** build_anmstrm_entries_map followed by convert_entries. */
  method ConvertFrames(frames: seq<seq<AnmStrmEntry>>, lib: CurveLib)
    returns (entries: seq<AnmEntry>, ghost order: seq<nat>)
    requires WellFormedFrames(frames)
    ensures ConvertsColumns(frames, lib, order, entries)
    ensures |entries| == |EntriesMap(Columns(frames))|
    ensures forall j: nat :: j < EntryCount(frames) && Collected(frames, |frames|, j) != [] ==>
              Converted(Collected(frames, |frames|, j), lib) in entries
  {
    var buckets := BuildEntriesFromFrames(frames);
    assert buckets == Columns(frames);
    var m := EntriesMap(buckets);
    MapHoldsColumns(frames);
    entries, order := ConvertEntries(m, lib);
    forall j: nat | j < EntryCount(frames) && Collected(frames, |frames|, j) != []
      ensures j in order
    {
      assert j in m;
    }
    forall j: nat | j < EntryCount(frames) && Collected(frames, |frames|, j) != []
      ensures Converted(Collected(frames, |frames|, j), lib) in entries
    {
      assert j in m && m[j] == Collected(frames, |frames|, j);
    }
  }

  /**
   * The map handed to the converter: its keys are exactly the indices of the
   * non-empty columns, each holding its column, which is convertible.
   */
  lemma MapHoldsColumns(frames: seq<seq<AnmStrmEntry>>)
    requires WellFormedFrames(frames)
    ensures var m := EntriesMap(Columns(frames));
      && (forall j: nat :: j in m <==> j < EntryCount(frames) && Collected(frames, |frames|, j) != [])
      && (forall j :: j in m ==> m[j] == Collected(frames, |frames|, j) && Convertible(m[j]))
  {
    CollectedMapExact(frames);
  }
}
