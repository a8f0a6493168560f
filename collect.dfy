/**
 * Frame collection (src/convert.rs:70-125): the stream arrives frame by
 * frame, each frame holding one sample per object index; this stage regroups
 * the samples per object index, keeps only the supported variants, and drops
 * the indices that end up with no samples at all.
 */
module FrameCollector {
  import opened AnmTypes

  /** Number of object buckets: the length of the first frame, 0 without frames. */
  function EntryCount(frames: seq<seq<AnmStrmEntry>>): nat {
    if frames == [] then 0 else |frames[0]|
  }

  /**
   * Every supported sample sits at a position the first frame has: the
   * buckets are sized by the first frame, and only a supported sample is
   * pushed, so a longer frame is harmless unless one of its extra samples
   * is supported, which would index past the buckets.
   */
  predicate FramesFit(frames: seq<seq<AnmStrmEntry>>) {
    forall f, j :: 0 <= f < |frames| && EntryCount(frames) <= j < |frames[f]| ==> !Supported(frames[f][j].entryData)
  }

  /** What one frame adds to bucket `j`: its j-th sample if it has one of a supported variant. */
  function Contribution(frame: seq<AnmStrmEntry>, j: nat): seq<AnmStrmEntry> {
    if j < |frame| && Supported(frame[j].entryData) then [frame[j]] else []
  }

  /** Bucket `j` after the first `upto` frames. */
  function Collected(frames: seq<seq<AnmStrmEntry>>, upto: nat, j: nat): seq<AnmStrmEntry>
    requires upto <= |frames|
  {
    if upto == 0 then [] else Collected(frames, upto - 1, j) + Contribution(frames[upto - 1], j)
  }

  /** Each frame adds at most one sample to a bucket, and only a supported one. */
  lemma {:induction false} CollectedBounds(frames: seq<seq<AnmStrmEntry>>, upto: nat, j: nat)
    requires upto <= |frames|
    ensures |Collected(frames, upto, j)| <= upto
    ensures forall k :: 0 <= k < |Collected(frames, upto, j)| ==> Supported(Collected(frames, upto, j)[k].entryData)
  {
    if upto > 0 {
      CollectedBounds(frames, upto - 1, j);
      var prev: seq<AnmStrmEntry>, c: seq<AnmStrmEntry> := Collected(frames, upto - 1, j), Contribution(frames[upto - 1], j);
      assert Collected(frames, upto, j) == prev + c;
      forall k | 0 <= k < |prev + c|
        ensures Supported((prev + c)[k].entryData)
      {
        if k >= |prev| {
          assert (prev + c)[k] == c[k - |prev|];
        }
      }
    }
  }

  /** All buckets after every frame. */
  function Columns(frames: seq<seq<AnmStrmEntry>>): seq<seq<AnmStrmEntry>> {
    seq(EntryCount(frames), (j: nat) => Collected(frames, |frames|, j))
  }

  /** build_entries_from_frames: the nested loop that fills one bucket per object index. */
  method BuildEntriesFromFrames(frames: seq<seq<AnmStrmEntry>>) returns (buckets: seq<seq<AnmStrmEntry>>)
    requires FramesFit(frames)
    ensures |buckets| == EntryCount(frames)
    ensures forall j :: 0 <= j < |buckets| ==> buckets[j] == Collected(frames, |frames|, j)
  {
    var n := EntryCount(frames);
    var entries := new seq<AnmStrmEntry>[n](j => []);
    var i := 0;
    while i < |frames|
      invariant 0 <= i <= |frames|
      invariant forall j :: 0 <= j < n ==> entries[j] == Collected(frames, i, j)
    {
      var frame := frames[i];
      var k := 0;
      while k < |frame|
        invariant 0 <= k <= |frame|
        invariant forall j :: 0 <= j < n ==>
                    entries[j] == Collected(frames, i, j) + (if j < k then Contribution(frame, j) else [])
      {
        if Supported(frame[k].entryData) {
          assert k < n;
          entries[k] := entries[k] + [frame[k]];
        }
        k := k + 1;
      }
      i := i + 1;
    }
    buckets := entries[..];
  }

  /** The frame positions whose sample lands in bucket `j`, in order. */
  ghost function SourceFrames(frames: seq<seq<AnmStrmEntry>>, upto: nat, j: nat): seq<nat>
    requires upto <= |frames|
  {
    if upto == 0 then []
    else SourceFrames(frames, upto - 1, j) + (if Contribution(frames[upto - 1], j) != [] then [upto - 1] else [])
  }

  /**
   * Bucket `j` is exactly the supported samples at position `j` of the frames,
   * in ascending frame order: its k-th sample comes from the k-th contributing
   * frame, the contributing frames ascend, and no frame with a supported
   * sample at `j` is missed.
   */
  lemma {:induction false} CollectedExactly(frames: seq<seq<AnmStrmEntry>>, upto: nat, j: nat)
    requires upto <= |frames|
    ensures var r, src := Collected(frames, upto, j), SourceFrames(frames, upto, j);
      && |src| == |r|
      && (forall a, b :: 0 <= a < b < |src| ==> src[a] < src[b])
      && (forall a :: 0 <= a < |src| ==>
            src[a] < upto && j < |frames[src[a]]| && r[a] == frames[src[a]][j] && Supported(r[a].entryData))
      && (forall f :: 0 <= f < upto && j < |frames[f]| && Supported(frames[f][j].entryData) ==> f in src)
  {
    if upto > 0 {
      CollectedExactly(frames, upto - 1, j);
    }
  }

  /**
   * build_anmstrm_entries_map: the non-empty buckets keyed by their index,
   * which must fit a u16 (only non-empty buckets are converted, so empty
   * buckets beyond 0xFFFF are harmless).
   */
  function EntriesMap(buckets: seq<seq<AnmStrmEntry>>): (r: map<nat, seq<AnmStrmEntry>>)
    requires forall j :: U16Modulus <= j < |buckets| ==> buckets[j] == []
    ensures forall j :: j in r ==> j < |buckets| && j < U16Modulus && r[j] == buckets[j] != []
    ensures forall j :: 0 <= j < |buckets| && buckets[j] != [] ==> j in r
  {
    map j: nat | j < |buckets| && buckets[j] != [] :: buckets[j]
  }

  /**
   * The map handed to the converter: index `j` is a key exactly when some
   * frame has a supported sample at `j`, and then it maps to bucket `j`.
   */
  lemma CollectedMapExact(frames: seq<seq<AnmStrmEntry>>)
    requires forall j :: U16Modulus <= j < EntryCount(frames) ==> Collected(frames, |frames|, j) == []
    ensures var m := EntriesMap(Columns(frames));
      && (forall j: nat :: j in m <==> j < EntryCount(frames) && Collected(frames, |frames|, j) != [])
      && (forall j: nat :: j in m ==> m[j] == Collected(frames, |frames|, j))
      && (forall j: nat :: j in m ==> exists f :: 0 <= f < |frames| && j < |frames[f]| && Supported(frames[f][j].entryData))
  {
    var m := EntriesMap(Columns(frames));
    forall j: nat | j in m
      ensures exists f :: 0 <= f < |frames| && j < |frames[f]| && Supported(frames[f][j].entryData)
    {
      CollectedExactly(frames, |frames|, j);
      var src := SourceFrames(frames, |frames|, j);
      assert src[0] < |frames| && j < |frames[src[0]]|;
      assert Supported(frames[src[0]][j].entryData);
    }
  }
}
