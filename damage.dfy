/**
 * The damage split (src/convert.rs:845-941): the clump whose bone/material
 * list has 97 indices is the damage clump; the entries of that clump move
 * into a second animation, ordered by coordinate index, and are removed from
 * the primary one in place.
 *
 * The selected clump is a POSITION in the clump table, and the entries are
 * matched by comparing that position, narrowed to i16, with each entry's
 * clump index (not with the clump's own `clump_index` field).
 */
module ClumpSplitter {
  import opened AnmTypes
  import opened EntryOrder
  import opened Assembly

  predicate IsDamageClump(c: AnmClump) {
    |c.boneMaterialIndices| == DamageMarkerLength
  }

  predicate HasDamageClump(clumps: seq<AnmClump>) {
    exists i :: 0 <= i < |clumps| && IsDamageClump(clumps[i])
  }

  /** What `position_any(..).unwrap_or(0)` may answer: some matching position, or 0 if none matches. */
  predicate IsDamagePosition(clumps: seq<AnmClump>, d: nat) {
    if HasDamageClump(clumps) then d < |clumps| && IsDamageClump(clumps[d]) else d == 0
  }

  /** The parallel search: any matching position may come back, not necessarily the first. */
  method FindDamageClump(clumps: seq<AnmClump>) returns (d: nat)
    ensures IsDamagePosition(clumps, d)
  {
    if i :| 0 <= i < |clumps| && IsDamageClump(clumps[i]) {
      d := i;
    } else {
      d := 0;
    }
  }

  /** Rust `n as i16` for a `usize` n: the low 16 bits, read as two's complement. */
  function AsI16Wrap(n: nat): (r: int)
    ensures -0x8000 <= r < 0x8000
    ensures (r - n) % U16Modulus == 0
    ensures n < 0x8000 ==> r == n
  {
    var low := n % U16Modulus;
    if low >= 0x8000 then low - U16Modulus else low
  }

  /** The entries whose clump index is `key`, in their order. */
  function WithClump(s: seq<AnmEntry>, key: int): (r: seq<AnmEntry>)
    ensures forall e :: e in r <==> e in s && e.coord.clumpIndex == key
    ensures |r| <= |s|
  {
    if s == [] then []
    else (if s[0].coord.clumpIndex == key then [s[0]] else []) + WithClump(s[1..], key)
  }

  /** `retain(|e| e.coord.clump_index != key)`: the other entries, in their order. */
  function WithoutClump(s: seq<AnmEntry>, key: int): (r: seq<AnmEntry>)
    ensures forall e :: e in r <==> e in s && e.coord.clumpIndex != key
    ensures |r| <= |s|
  {
    if s == [] then []
    else (if s[0].coord.clumpIndex != key then [s[0]] else []) + WithoutClump(s[1..], key)
  }

  /** Every entry lands in exactly one of the two lists, as many times as it occurs. */
  lemma {:induction false} SplitIsPartition(s: seq<AnmEntry>, key: int)
    ensures multiset(WithClump(s, key)) + multiset(WithoutClump(s, key)) == multiset(s)
  {
    if s != [] {
      SplitIsPartition(s[1..], key);
      var w, o := WithClump(s[1..], key), WithoutClump(s[1..], key);
      assert multiset(s) == multiset{s[0]} + multiset(s[1..]) by {
        assert s == [s[0]] + s[1..];
      }
      if s[0].coord.clumpIndex == key {
        assert WithClump(s, key) == [s[0]] + w && WithoutClump(s, key) == o;
      } else {
        assert WithClump(s, key) == w && WithoutClump(s, key) == [s[0]] + o;
      }
    }
  }

  /** Keeping a subsequence keeps the order: both filters of a sorted list are sorted. */
  lemma {:induction false} SplitKeepsOrder(s: seq<AnmEntry>, key: int, le: Le)
    requires Sorted(s, le)
    ensures Sorted(WithClump(s, key), le) && Sorted(WithoutClump(s, key), le)
  {
    if s != [] {
      SplitKeepsOrder(s[1..], key, le);
      var t, u := WithClump(s[1..], key), WithoutClump(s[1..], key);
      HeadBelow(s, t, le);
      HeadBelow(s, u, le);
      if s[0].coord.clumpIndex == key {
        SortedCons(s[0], t, le);
        assert WithClump(s, key) == [s[0]] + t;
        assert WithoutClump(s, key) == u;
      } else {
        SortedCons(s[0], u, le);
        assert WithClump(s, key) == t;
        assert WithoutClump(s, key) == [s[0]] + u;
      }
    }
  }

  /** The head of a sorted list is below everything drawn from its tail. */
  lemma HeadBelow(s: seq<AnmEntry>, t: seq<AnmEntry>, le: Le)
    requires s != [] && Sorted(s, le)
    requires forall e :: e in t ==> e in s[1..]
    ensures forall j :: 0 <= j < |t| ==> le(s[0], t[j])
  {
    forall j | 0 <= j < |t|
      ensures le(s[0], t[j])
    {
      assert t[j] in t;
      var i :| 0 <= i < |s[1..]| && s[1..][i] == t[j];
      assert s[i + 1] == t[j];
    }
  }

  /** Putting an element below everything in front of a sorted list keeps it sorted. */
  lemma SortedCons(x: AnmEntry, t: seq<AnmEntry>, le: Le)
    requires Sorted(t, le) && forall j :: 0 <= j < |t| ==> le(x, t[j])
    ensures Sorted([x] + t, le)
  {
    var r := [x] + t;
    forall i, j | 0 <= i < j < |r|
      ensures le(r[i], r[j])
    {
      assert r[j] == t[j - 1];
      if i > 0 {
        assert r[i] == t[i - 1];
      }
    }
  }

  /**
   * On the primary list, which build_anm left in (clump, coord, format)
   * order, the damage list's re-sort by coordinate index changes nothing:
   * the damage entries are the primary's clump-`key` entries in primary order.
   */
  lemma DamageResortIsIdentity(s: seq<AnmEntry>, key: int)
    requires Sorted(s, ByCoordAndFormat)
    ensures SortBy(WithClump(s, key), ByCoordIndex) == WithClump(s, key)
    ensures Sorted(WithClump(s, key), ByCoordIndex)
  {
    var t := WithClump(s, key);
    SplitKeepsOrder(s, key, ByCoordAndFormat);
    assert forall i :: 0 <= i < |t| ==> t[i] in t;
    SameClumpSortedByCoord(t);
    SortBySortedIsIdentity(t, ByCoordIndex);
  }

  /**
   * build_dmg_anm: picks the damage position d, builds the damage animation
   * from the primary's clumps and coordinate parents and the clump-d entries
   * sorted by coordinate index, then drops those entries from the primary.
   */
  method BuildDmgAnm(anm: Anm, strm: AnmStrm, info: StructInfo) returns (dmg: Anm, ghost d: nat)
    requires strm.frameCount >= FrameCountOffset
    modifies anm
    ensures fresh(dmg)
    ensures IsDamagePosition(old(anm.clumps), d)
    ensures dmg.entries == SortBy(WithClump(old(anm.entries), AsI16Wrap(d)), ByCoordIndex)
    ensures anm.entries == WithoutClump(old(anm.entries), AsI16Wrap(d))
    ensures dmg.structInfo == info && dmg.version == AnmVersion
    ensures dmg.frameCount == strm.frameCount - FrameCountOffset && dmg.isLooped == strm.isLooped
    ensures dmg.clumps == old(anm.clumps) && dmg.coordParents == old(anm.coordParents)
    ensures dmg.otherEntriesIndices == [] && dmg.unkEntryIndices == []
    ensures anm.structInfo == old(anm.structInfo) && anm.version == old(anm.version)
    ensures anm.frameCount == old(anm.frameCount) && anm.isLooped == old(anm.isLooped)
    ensures anm.clumps == old(anm.clumps) && anm.coordParents == old(anm.coordParents)
    ensures anm.otherEntriesIndices == old(anm.otherEntriesIndices)
    ensures anm.unkEntryIndices == old(anm.unkEntryIndices)
  {
    var clumps := anm.clumps;
    var position := FindDamageClump(clumps);
    d := position;
    var coordParents := anm.coordParents;
    var key := AsI16Wrap(position);
    var dmgEntries := WithClump(anm.entries, key);
    dmgEntries := SortBy(dmgEntries, ByCoordIndex);
    dmg := new Anm(info, strm.frameCount - FrameCountOffset, strm.isLooped, clumps,
                   [], coordParents, dmgEntries);
    anm.entries := WithoutClump(anm.entries, key);
  }
}
