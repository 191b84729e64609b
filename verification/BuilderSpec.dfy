/** What VersionSet::Builder computes (leveldb/db/version_set.cc:99-233), as functions on values.

    A version is seven lists of files.  Per level the builder holds the numbers to drop and the
    files to add; saving merges the base list with the added files and drops the deleted ones. */
module BuilderSpec {
  import opened DbFormat
  import opened VersionEdits

  type Files = seq<FileMeta>
  type Levels = s: seq<Files> | |s| == NUM_LEVELS witness [[], [], [], [], [], [], []]

  const NO_FILES: Levels := [[], [], [], [], [], [], []]

  // ---------------------------------------------------------------- the order of files

  /** BySmallestKey: by smallest key, ties broken by file number. */
  predicate Before(f: FileMeta, g: FileMeta) {
    var r := Compare(f.smallest, g.smallest);
    if r != 0 then r < 0 else f.number < g.number
  }

  ghost predicate Ascending(s: Files) {
    forall i, j :: 0 <= i < j < |s| ==> !Before(s[j], s[i])
  }

  ghost predicate Strict(s: Files) {
    forall i, j :: 0 <= i < j < |s| ==> Before(s[i], s[j])
  }

  /** std::upper_bound: the first position whose file comes after f. */
  function UpperBound(s: Files, f: FileMeta): (k: nat)
    ensures k <= |s|
    ensures forall i :: 0 <= i < k ==> !Before(f, s[i])
    ensures k < |s| ==> Before(f, s[k])
  {
    if s == [] || Before(f, s[0]) then 0
    else
      var k := 1 + UpperBound(s[1..], f);
      assert forall i :: 1 <= i < k ==> s[i] == s[1..][i - 1];
      k
  }

  // ---------------------------------------------------------------- applying edits

  datatype LevelState = LevelState(deleted: set<nat>, added: Files)

  const UNTOUCHED := LevelState({}, [])
  const UNTOUCHED_LEVELS := [UNTOUCHED, UNTOUCHED, UNTOUCHED, UNTOUCHED, UNTOUCHED, UNTOUCHED, UNTOUCHED]

  type Pending = s: seq<LevelState> | |s| == NUM_LEVELS witness UNTOUCHED_LEVELS

  const NOTHING: Pending := UNTOUCHED_LEVELS

  /** The sorted set already has a file equivalent to f. */
  predicate Refuses(added: Files, f: FileMeta) {
    var k := UpperBound(added, f);
    k > 0 && !Before(added[k - 1], f)
  }

  /** std::set::insert: a file equivalent to one already there is not added. */
  function InsertFile(added: Files, f: FileMeta): Files {
    var k := UpperBound(added, f);
    if Refuses(added, f) then added else added[..k] + [f] + added[k..]
  }

  function DeletedAt(deleted: set<(nat, nat)>, level: nat): set<nat> {
    set d | d in deleted && d.0 == level :: d.1
  }

  function ApplyDeletes(p: Pending, deleted: set<(nat, nat)>): Pending {
    seq(NUM_LEVELS, l requires 0 <= l < NUM_LEVELS => p[l].(deleted := p[l].deleted + DeletedAt(deleted, l)))
  }

  function ApplyAdd(p: Pending, level: nat, f: FileMeta): Pending
    requires level < NUM_LEVELS
  {
    p[level := LevelState(p[level].deleted - {f.number}, InsertFile(p[level].added, f))]
  }

  function ApplyAdds(p: Pending, adds: seq<(nat, FileMeta)>): Pending
    requires forall i :: 0 <= i < |adds| ==> adds[i].0 < NUM_LEVELS
  {
    if adds == [] then p
    else
      var n := |adds| - 1;
      ApplyAdd(ApplyAdds(p, adds[..n]), adds[n].0, adds[n].1)
  }

  /** How many of the added files the sorted sets refuse. */
  function Refusals(p: Pending, adds: seq<(nat, FileMeta)>): nat
    requires forall i :: 0 <= i < |adds| ==> adds[i].0 < NUM_LEVELS
  {
    if adds == [] then 0
    else
      var n := |adds| - 1;
      Refusals(p, adds[..n]) + if Refuses(ApplyAdds(p, adds[..n])[adds[n].0].added, adds[n].1) then 1 else 0
  }

  function ApplyEdit(p: Pending, e: Edit): Pending
    requires e.LevelsOk()
  {
    ApplyAdds(ApplyDeletes(p, e.deleted), e.added)
  }

  function ApplyEdits(p: Pending, es: seq<Edit>): Pending
    requires forall i :: 0 <= i < |es| ==> es[i].LevelsOk()
  {
    if es == [] then p else ApplyEdit(ApplyEdits(p, es[..|es| - 1]), es[|es| - 1])
  }

  /** The compaction pointers that the edits set, which a builder stores at once. */
  function ApplyPointers(keys: seq<Option<InternalKey>>, ps: seq<(nat, InternalKey)>): (r: seq<Option<InternalKey>>)
    requires forall i :: 0 <= i < |ps| ==> ps[i].0 < |keys|
    ensures |r| == |keys|
  {
    if ps == [] then keys
    else ApplyPointers(keys, ps[..|ps| - 1])[ps[|ps| - 1].0 := Some(ps[|ps| - 1].1)]
  }

  /** Nothing behind the i-th pointer is for its level. */
  ghost predicate LastFor(ps: seq<(nat, InternalKey)>, i: nat)
    requires i < |ps|
  {
    forall j :: i < j < |ps| ==> ps[j].0 != ps[i].0
  }

  ghost predicate NoneFor(ps: seq<(nat, InternalKey)>, l: nat) {
    forall i :: 0 <= i < |ps| ==> ps[i].0 != l
  }

  /** Each level has the last pointer that is set for it, and without one its old pointer. */
  ghost predicate PointersSet(keys: seq<Option<InternalKey>>, ps: seq<(nat, InternalKey)>,
                              keys': seq<Option<InternalKey>>) {
    && |keys'| == |keys|
    && (forall i :: 0 <= i < |ps| && LastFor(ps, i) ==> ps[i].0 < |keys| && keys'[ps[i].0] == Some(ps[i].1))
    && (forall l :: 0 <= l < |keys| && NoneFor(ps, l) ==> keys'[l] == keys[l])
  }

  lemma PointersAt(keys: seq<Option<InternalKey>>, ps: seq<(nat, InternalKey)>)
    requires forall i :: 0 <= i < |ps| ==> ps[i].0 < |keys|
    ensures PointersSet(keys, ps, ApplyPointers(keys, ps))
  {
    forall i | 0 <= i < |ps| && LastFor(ps, i) ensures ApplyPointers(keys, ps)[ps[i].0] == Some(ps[i].1) {
      PointerAt(keys, ps, i);
    }
    forall l | 0 <= l < |keys| && NoneFor(ps, l) ensures ApplyPointers(keys, ps)[l] == keys[l] {
      PointerStays(keys, ps, l);
    }
  }

  lemma {:induction false} PointerAt(keys: seq<Option<InternalKey>>, ps: seq<(nat, InternalKey)>, i: nat)
    requires (forall i :: 0 <= i < |ps| ==> ps[i].0 < |keys|) && i < |ps| && LastFor(ps, i)
    ensures ApplyPointers(keys, ps)[ps[i].0] == Some(ps[i].1)
  {
    var n := |ps| - 1;
    if i < n {
      assert ps[..n][i] == ps[i];
      assert LastFor(ps[..n], i);
      PointerAt(keys, ps[..n], i);
    }
  }

  lemma {:induction false} PointerStays(keys: seq<Option<InternalKey>>, ps: seq<(nat, InternalKey)>, l: nat)
    requires (forall i :: 0 <= i < |ps| ==> ps[i].0 < |keys|) && l < |keys| && NoneFor(ps, l)
    ensures ApplyPointers(keys, ps)[l] == keys[l]
  {
    if ps != [] { PointerStays(keys, ps[..|ps| - 1], l); }
  }

  // ---------------------------------------------------------------- saving

  function Keep(s: Files, deleted: set<nat>): Files {
    if s == [] then []
    else (if s[0].number in deleted then [] else [s[0]]) + Keep(s[1..], deleted)
  }

  function Merge(base: Files, added: Files): Files
    decreases |added|
  {
    if added == [] then base
    else
      var k := UpperBound(base, added[0]);
      base[..k] + [added[0]] + Merge(base[k..], added[1..])
  }

  function SaveLevel(base: Files, st: LevelState): Files {
    Keep(Merge(base, st.added), st.deleted)
  }

  function Save(base: Levels, p: Pending): Levels {
    seq(NUM_LEVELS, l requires 0 <= l < NUM_LEVELS => SaveLevel(base[l], p[l]))
  }

  /** The version that one edit makes of a version: the builder used by LogAndApply. */
  function Next(base: Levels, e: Edit): Levels
    requires e.LevelsOk()
  {
    Save(base, ApplyEdit(NOTHING, e))
  }

  // ---------------------------------------------------------------- SaveTo is a correct merge

  lemma {:induction false} KeepConcat(a: Files, b: Files, deleted: set<nat>)
    ensures Keep(a + b, deleted) == Keep(a, deleted) + Keep(b, deleted)
  {
    if a == [] {
      assert a + b == b;
    } else {
      assert (a + b)[1..] == a[1..] + b;
      KeepConcat(a[1..], b, deleted);
    }
  }

  /** Dropping deleted files keeps, of every other file, all its occurrences. */
  lemma {:induction false} KeepCounts(s: Files, deleted: set<nat>, f: FileMeta)
    ensures multiset(Keep(s, deleted))[f] == if f.number in deleted then 0 else multiset(s)[f]
  {
    if s != [] {
      KeepCounts(s[1..], deleted, f);
      assert s == [s[0]] + s[1..];
    }
  }

  lemma KeepMembers(s: Files, deleted: set<nat>)
    ensures forall f :: f in Keep(s, deleted) <==> f in s && f.number !in deleted
  {
    forall f ensures f in Keep(s, deleted) <==> f in s && f.number !in deleted {
      KeepCounts(s, deleted, f);
      assert f in s <==> f in multiset(s);
      assert f in Keep(s, deleted) <==> f in multiset(Keep(s, deleted));
    }
  }

  /** ... and it keeps the order. */
  lemma {:induction false} KeepOrder(s: Files, deleted: set<nat>)
    ensures Ascending(s) ==> Ascending(Keep(s, deleted))
    ensures Strict(s) ==> Strict(Keep(s, deleted))
  {
    if s != [] {
      KeepOrder(s[1..], deleted);
      KeepMembers(s[1..], deleted);
      var rest := Keep(s[1..], deleted);
      forall i | 0 <= i < |rest| ensures rest[i] in s[1..] {
        assert rest[i] in rest;
      }
    }
  }

  lemma UpperBoundSplits(s: Files, f: FileMeta)
    requires Ascending(s)
    ensures forall i :: UpperBound(s, f) <= i < |s| ==> Before(f, s[i])
  {
    var k := UpperBound(s, f);
    forall i | k <= i < |s| ensures Before(f, s[i]) {
      assert i > k ==> !Before(s[i], s[k]);
    }
  }

  /** The merge contains both lists with their multiplicities ... */
  lemma {:induction false} MergeCounts(base: Files, added: Files)
    ensures multiset(Merge(base, added)) == multiset(base) + multiset(added)
    decreases |added|
  {
    if added != [] {
      var k := UpperBound(base, added[0]);
      var low, high, head, tail := base[..k], base[k..], [added[0]], added[1..];
      var rest := Merge(high, tail);
      assert Merge(base, added) == low + head + rest;
      MergeCounts(high, tail);
      hide Merge, Before;
      CountParts(base, added, k, rest);
    }
  }

  lemma CountParts(base: Files, added: Files, k: nat, rest: Files)
    requires k <= |base| && added != [] && multiset(rest) == multiset(base[k..]) + multiset(added[1..])
    ensures multiset(base[..k] + [added[0]] + rest) == multiset(base) + multiset(added)
  {
    assert base == base[..k] + base[k..];
    assert added == [added[0]] + added[1..];
  }

  lemma MergeMembers(base: Files, added: Files)
    ensures forall f :: f in Merge(base, added) <==> f in base || f in added
  {
    MergeCounts(base, added);
    forall f ensures f in Merge(base, added) <==> f in base || f in added {
      assert f in Merge(base, added) <==> f in multiset(Merge(base, added));
    }
  }

  lemma AscendingConcat(a: Files, b: Files)
    requires Ascending(a) && Ascending(b)
    requires forall f, g :: f in a && g in b ==> !Before(g, f)
    ensures Ascending(a + b)
  {
    forall i, j | 0 <= i < j < |a + b| ensures !Before((a + b)[j], (a + b)[i]) {
      if i < |a| <= j {
        assert a[i] in a && b[j - |a|] in b;
      }
    }
  }

  lemma BeforeTransitive(f: FileMeta, g: FileMeta, h: FileMeta)
    ensures Before(f, g) && !Before(h, g) ==> Before(f, h)
    ensures !Before(g, f) && Before(g, h) ==> Before(f, h)
    ensures Before(f, g) ==> !Before(g, f)
  {
  }

  /** Everything merged after the first added file comes after it and after the smaller base files. */
  lemma AfterFirst(base: Files, added: Files, g: FileMeta)
    requires Ascending(base) && Strict(added) && added != []
    requires g in base[UpperBound(base, added[0])..] || g in added[1..]
    ensures !Before(g, added[0])
    ensures forall h :: h in base[..UpperBound(base, added[0])] ==> !Before(g, h)
  {
    var f, k := added[0], UpperBound(base, added[0]);
    UpperBoundSplits(base, f);
    assert Before(f, g);
    forall h | h in base[..k] ensures !Before(g, h) {
      BeforeTransitive(h, f, g);
      BeforeTransitive(h, g, h);
    }
    BeforeTransitive(f, g, f);
  }

  /** ... and is in order. */
  lemma {:induction false} MergeOrder(base: Files, added: Files)
    requires Ascending(base) && Strict(added)
    ensures Ascending(Merge(base, added))
    decreases |added|
  {
    if added != [] {
      var f, k := added[0], UpperBound(base, added[0]);
      var low, high, tail := base[..k], base[k..], added[1..];
      var rest := Merge(high, tail);
      assert Merge(base, added) == low + ([f] + rest);
      MergeOrder(high, tail);
      MergeMembers(high, tail);
      hide Merge, Before;
      forall g | g in rest ensures !Before(g, f) && forall h :: h in low ==> !Before(g, h) {
        AfterFirst(base, added, g);
      }
      AscendingConcat([f], rest);
      AscendingConcat(low, [f] + rest);
    }
  }

  /** SaveTo on a sorted base: each level is the base plus the added files, minus the deleted ones,
      with multiplicity and in order. */
  lemma SaveIsMerge(base: Files, st: LevelState)
    requires Ascending(base) && Strict(st.added)
    ensures Ascending(SaveLevel(base, st))
    ensures forall f :: multiset(SaveLevel(base, st))[f] ==
              if f.number in st.deleted then 0 else multiset(base)[f] + multiset(st.added)[f]
  {
    MergeOrder(base, st.added);
    MergeCounts(base, st.added);
    KeepOrder(Merge(base, st.added), st.deleted);
    forall f { KeepCounts(Merge(base, st.added), st.deleted, f); }
  }

  lemma HasMember(s: Files)
    ensures s != [] ==> exists f :: f in s
  {
    if s != [] { assert s[0] in s; }
  }

  /** Strictly sorted lists with the same files are the same list. */
  lemma {:induction false} StrictUnique(a: Files, b: Files)
    requires Strict(a) && Strict(b)
    requires forall f :: f in a <==> f in b
    ensures a == b
  {
    HasMember(a);
    HasMember(b);
    if a != [] && b != [] {
      assert a[0] in b && b[0] in a by { assert a[0] in a; }
      assert a[0] == b[0];
      forall f ensures f in a[1..] <==> f in b[1..] {
        assert a == [a[0]] + a[1..] && b == [b[0]] + b[1..];
        assert f in a <==> f == a[0] || f in a[1..];
        assert f in b <==> f == b[0] || f in b[1..];
      }
      StrictUnique(a[1..], b[1..]);
    }
  }

  // ---------------------------------------------------------------- overlap within a level

  ghost predicate RangesOk(s: Files) {
    forall i :: 0 <= i < |s| ==> Compare(s[i].smallest, s[i].largest) <= 0
  }

  /** What the assertion in MaybeAddFile checks, for a whole level. */
  ghost predicate AdjacentDisjoint(s: Files) {
    forall i :: 0 < i < |s| ==> Compare(s[i - 1].largest, s[i].smallest) < 0
  }

  ghost predicate Apart(f: FileMeta, g: FileMeta) {
    Compare(f.largest, g.smallest) < 0 || Compare(g.largest, f.smallest) < 0
  }

  ghost predicate PairwiseDisjoint(s: Files) {
    forall i, j :: 0 <= i < j < |s| ==> Apart(s[i], s[j])
  }

  /** In an ordered level the adjacent checks see every overlap there is. */
  lemma AdjacentMeansPairwise(s: Files)
    requires Ascending(s) && RangesOk(s)
    ensures AdjacentDisjoint(s) <==> PairwiseDisjoint(s)
  {
    if AdjacentDisjoint(s) {
      forall i, j | 0 <= i < j < |s| ensures Apart(s[i], s[j]) {
        AdjacentOrders(s, i, j);
      }
    }
    if PairwiseDisjoint(s) {
      forall i | 0 < i < |s| ensures Compare(s[i - 1].largest, s[i].smallest) < 0 {
        assert Apart(s[i - 1], s[i]) && !Before(s[i], s[i - 1]);
      }
    }
  }

  lemma {:induction false} AdjacentOrders(s: Files, i: nat, j: nat)
    requires AdjacentDisjoint(s) && RangesOk(s) && i < j < |s|
    ensures Compare(s[i].largest, s[j].smallest) < 0
  {
    if i + 1 < j {
      AdjacentOrders(s, i, j - 1);
    }
  }
}
