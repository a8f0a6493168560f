/**
 * The two entry orders (src/convert.rs:807-813 and 883) and the stable sort
 * both are applied with. `Vec::sort_by` is stable; it is specified here by
 * an insertion sort that places each element after every element not
 * greater than it.
 */
module EntryOrder {
  import opened AnmTypes

  /** A "not greater than" test, the boolean reading of a `sort_by` comparator. */
  type Le = (AnmEntry, AnmEntry) -> bool

  /**
   * build_anm's order: clump index, then coord index, then entry format; the
   * first key that differs decides, and equal keys throughout compare equal.
   */
  function ByCoordAndFormat(a: AnmEntry, b: AnmEntry): (r: bool)
    ensures a.coord.clumpIndex != b.coord.clumpIndex ==> (r <==> a.coord.clumpIndex < b.coord.clumpIndex)
    ensures a.coord.clumpIndex == b.coord.clumpIndex && a.coord.coordIndex != b.coord.coordIndex ==>
              (r <==> a.coord.coordIndex < b.coord.coordIndex)
    ensures a.coord == b.coord ==> (r <==> a.entryFormat <= b.entryFormat)
  {
    || a.coord.clumpIndex < b.coord.clumpIndex
    || (a.coord.clumpIndex == b.coord.clumpIndex && a.coord.coordIndex < b.coord.coordIndex)
    || (a.coord.clumpIndex == b.coord.clumpIndex && a.coord.coordIndex == b.coord.coordIndex
        && a.entryFormat <= b.entryFormat)
  }

  /** build_dmg_anm's order: coord index only; `a` may precede `b` unless `b`'s index is smaller. */
  function ByCoordIndex(a: AnmEntry, b: AnmEntry): (r: bool)
    ensures r <==> !(b.coord.coordIndex < a.coord.coordIndex)
  {
    a.coord.coordIndex <= b.coord.coordIndex
  }

  /** Any two entries compare, and the order is transitive. */
  ghost predicate TotalPreorder(le: Le) {
    && (forall a, b :: le(a, b) || le(b, a))
    && (forall a, b, c :: le(a, b) && le(b, c) ==> le(a, c))
  }

  predicate Sorted(s: seq<AnmEntry>, le: Le) {
    forall i, j :: 0 <= i < j < |s| ==> le(s[i], s[j])
  }

  lemma OrdersAreTotal()
    ensures TotalPreorder(ByCoordAndFormat) && TotalPreorder(ByCoordIndex)
  {
  }

  /** Sorting by (clump, coord, format) also sorts by coord within one clump. */
  lemma {:induction false} SameClumpSortedByCoord(s: seq<AnmEntry>)
    requires Sorted(s, ByCoordAndFormat)
    requires forall i, j :: 0 <= i < j < |s| ==> s[i].coord.clumpIndex == s[j].coord.clumpIndex
    ensures Sorted(s, ByCoordIndex)
  {
    forall i, j | 0 <= i < j < |s|
      ensures ByCoordIndex(s[i], s[j])
    {
      assert ByCoordAndFormat(s[i], s[j]);
    }
  }

  /** `x` placed before the first element strictly greater than it. */
  function Insert(r: seq<AnmEntry>, x: AnmEntry, le: Le): (t: seq<AnmEntry>)
    ensures multiset(t) == multiset(r) + multiset{x} && |t| == |r| + 1
  {
    if r == [] then [x]
    else if !le(r[0], x) then [x] + r
    else
      assert r == [r[0]] + r[1..];
      [r[0]] + Insert(r[1..], x, le)
  }

  /** The stable sort: each element in turn inserted into the sorted prefix before it. */
  function SortBy(s: seq<AnmEntry>, le: Le): (r: seq<AnmEntry>)
    ensures multiset(r) == multiset(s) && |r| == |s|
  {
    if s == [] then []
    else
      assert s == s[..|s| - 1] + [s[|s| - 1]];
      Insert(SortBy(s[..|s| - 1], le), s[|s| - 1], le)
  }

  lemma {:induction false} InsertKeepsSorted(r: seq<AnmEntry>, x: AnmEntry, le: Le)
    requires TotalPreorder(le) && Sorted(r, le)
    ensures Sorted(Insert(r, x, le), le)
  {
    if r != [] && le(r[0], x) {
      InsertKeepsSorted(r[1..], x, le);
      var t := Insert(r[1..], x, le);
      assert multiset(t) == multiset(r[1..]) + multiset{x};
      forall j | 0 <= j < |t|
        ensures le(r[0], t[j])
      {
        assert t[j] in multiset(t);
        if t[j] != x {
          assert t[j] in multiset(r[1..]);
          var i :| 0 <= i < |r[1..]| && r[1..][i] == t[j];
          assert r[i + 1] == t[j];
        }
      }
    }
  }

  /** The sort's result is in order. */
  lemma {:induction false} SortBySorted(s: seq<AnmEntry>, le: Le)
    requires TotalPreorder(le)
    ensures Sorted(SortBy(s, le), le)
  {
    if s != [] {
      SortBySorted(s[..|s| - 1], le);
      InsertKeepsSorted(SortBy(s[..|s| - 1], le), s[|s| - 1], le);
    }
  }

  /** Inserting an element not less than any already present appends it. */
  lemma {:induction false} InsertLast(r: seq<AnmEntry>, x: AnmEntry, le: Le)
    requires forall i :: 0 <= i < |r| ==> le(r[i], x)
    ensures Insert(r, x, le) == r + [x]
  {
    if r != [] {
      InsertLast(r[1..], x, le);
      assert r == [r[0]] + r[1..];
    }
  }

  /** Stability on ordered input: sorting a sequence already in order leaves it as it is. */
  lemma {:induction false} SortBySortedIsIdentity(s: seq<AnmEntry>, le: Le)
    requires Sorted(s, le)
    ensures SortBy(s, le) == s
  {
    if s != [] {
      var init := s[..|s| - 1];
      assert Sorted(init, le);
      SortBySortedIsIdentity(init, le);
      InsertLast(init, s[|s| - 1], le);
      assert init + [s[|s| - 1]] == s;
    }
  }

  /** The elements of `s` that compare equal to `z` under `le`, in their order. */
  function EquivalentTo(s: seq<AnmEntry>, z: AnmEntry, le: Le): seq<AnmEntry> {
    if s == [] then []
    else (if le(s[0], z) && le(z, s[0]) then [s[0]] else []) + EquivalentTo(s[1..], z, le)
  }

  lemma {:induction false} EquivalentToConcat(a: seq<AnmEntry>, b: seq<AnmEntry>, z: AnmEntry, le: Le)
    ensures EquivalentTo(a + b, z, le) == EquivalentTo(a, z, le) + EquivalentTo(b, z, le)
  {
    if a != [] {
      EquivalentToConcat(a[1..], b, z, le);
      var head := if le(a[0], z) && le(z, a[0]) then [a[0]] else [];
      assert (a + b)[0] == a[0] && (a + b)[1..] == a[1..] + b;
      assert EquivalentTo(a + b, z, le) == head + EquivalentTo(a[1..] + b, z, le);
      assert EquivalentTo(a, z, le) == head + EquivalentTo(a[1..], z, le);
    } else {
      assert a + b == b;
    }
  }

  lemma {:induction false} NoneEquivalent(r: seq<AnmEntry>, z: AnmEntry, le: Le)
    requires forall i :: 0 <= i < |r| ==> !(le(r[i], z) && le(z, r[i]))
    ensures EquivalentTo(r, z, le) == []
  {
    if r != [] {
      NoneEquivalent(r[1..], z, le);
    }
  }

  /** Insertion keeps ties in order: `x` lands after every element already there that ties with it. */
  lemma {:induction false} InsertStable(r: seq<AnmEntry>, x: AnmEntry, z: AnmEntry, le: Le)
    requires TotalPreorder(le) && Sorted(r, le)
    ensures EquivalentTo(Insert(r, x, le), z, le) == EquivalentTo(r, z, le) + EquivalentTo([x], z, le)
  {
    if r == [] {
    } else if !le(r[0], x) {
      assert Insert(r, x, le) == [x] + r;
      EquivalentToConcat([x], r, z, le);
      if le(x, z) && le(z, x) {
        forall i | 0 <= i < |r|
          ensures !le(r[i], x)
        {
          if i > 0 {
            assert le(r[0], r[i]);
          }
        }
        NoneEquivalent(r, z, le);
      }
    } else {
      assert Sorted(r[1..], le);
      InsertStable(r[1..], x, z, le);
    }
  }

  /**
   * SortBy is stable: for every key, the elements tying with it come out in
   * the order they went in. With `SortBySorted` and the permutation
   * property this pins down the result of `sort_by` uniquely.
   */
  lemma {:induction false} SortByStable(s: seq<AnmEntry>, z: AnmEntry, le: Le)
    requires TotalPreorder(le)
    ensures EquivalentTo(SortBy(s, le), z, le) == EquivalentTo(s, z, le)
  {
    if s != [] {
      var init, last := s[..|s| - 1], s[|s| - 1];
      SortByStable(init, z, le);
      SortBySorted(init, le);
      InsertStable(SortBy(init, le), last, z, le);
      StableStep(s, z, le);
    }
  }

  /** The inductive step of SortByStable, apart from the ordering facts. */
  lemma StableStep(s: seq<AnmEntry>, z: AnmEntry, le: Le)
    requires s != []
    requires EquivalentTo(SortBy(s[..|s| - 1], le), z, le) == EquivalentTo(s[..|s| - 1], z, le)
    requires EquivalentTo(Insert(SortBy(s[..|s| - 1], le), s[|s| - 1], le), z, le)
             == EquivalentTo(SortBy(s[..|s| - 1], le), z, le) + EquivalentTo([s[|s| - 1]], z, le)
    ensures EquivalentTo(SortBy(s, le), z, le) == EquivalentTo(s, z, le)
  {
    var init, last := s[..|s| - 1], s[|s| - 1];
    EquivalentToSnoc(s, z, le);
    calc {
      EquivalentTo(SortBy(s, le), z, le);
      EquivalentTo(Insert(SortBy(init, le), last, le), z, le);
      EquivalentTo(init, z, le) + EquivalentTo([last], z, le);
    }
  }

  /** The ties of a list are those of its front followed by its last element's. */
  lemma EquivalentToSnoc(s: seq<AnmEntry>, z: AnmEntry, le: Le)
    requires s != []
    ensures EquivalentTo(s, z, le) == EquivalentTo(s[..|s| - 1], z, le) + EquivalentTo([s[|s| - 1]], z, le)
  {
    var init, last := s[..|s| - 1], s[|s| - 1];
    assert forall i :: 0 <= i < |s| ==> s[i] == (init + [last])[i];
    assert s == init + [last];
    EquivalentToConcat(init, [last], z, le);
  }
}
