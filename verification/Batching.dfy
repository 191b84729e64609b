/** Applying many edits to one builder against building one version per edit.

    The comment on the class (leveldb/db/version_set.cc:99-101) promises that a whole sequence of
    edits can be applied without intermediate versions.  `BatchingExact` says when that is so. */
module Batching {
  import opened DbFormat
  import opened VersionEdits
  import opened BuilderSpec

  function Elems(s: Files): set<FileMeta> {
    set f | f in s
  }

  function AddedAt(adds: seq<(nat, FileMeta)>, level: nat): set<FileMeta> {
    set i | 0 <= i < |adds| && adds[i].0 == level :: adds[i].1
  }

  lemma AddedAtOne(level: nat, f: FileMeta, l: nat)
    ensures AddedAt([(level, f)], l) == if l == level then {f} else {}
  {
    var adds := [(level, f)];
    assert adds[0] == (level, f);
    forall g ensures g in AddedAt(adds, l) <==> l == level && g == f {
      if l == level && g == f { assert adds[0].0 == l && adds[0].1 == g; }
    }
  }

  function Numbers(fs: set<FileMeta>): set<nat> {
    set f | f in fs :: f.number
  }

  /** Every file is the one that its number names. */
  ghost predicate Named(names: map<nat, FileMeta>, fs: set<FileMeta>) {
    forall f :: f in fs ==> f.number in names && names[f.number] == f
  }

  ghost predicate NamedEdit(names: map<nat, FileMeta>, e: Edit) {
    forall i :: 0 <= i < |e.added| ==> Named(names, {e.added[i].1})
  }

  ghost predicate NamedEdits(names: map<nat, FileMeta>, es: seq<Edit>) {
    forall i :: 0 <= i < |es| ==> NamedEdit(names, es[i])
  }

  ghost predicate LevelsOk(es: seq<Edit>) {
    forall i :: 0 <= i < |es| ==> es[i].LevelsOk()
  }

  // ---------------------------------------------------------------- one level of a builder

  lemma StrictConcat(a: Files, b: Files)
    requires Strict(a) && Strict(b)
    requires forall i, j :: 0 <= i < |a| && 0 <= j < |b| ==> Before(a[i], b[j])
    ensures Strict(a + b)
  {
  }

  /** Inserting keeps the added files sorted and without repetition. */
  lemma InsertFileStrict(added: Files, f: FileMeta)
    requires Strict(added)
    ensures Strict(InsertFile(added, f))
  {
    var k := UpperBound(added, f);
    UpperBoundSplits(added, f);
    if k == 0 || Before(added[k - 1], f) {
      var low, high := added[..k], added[k..];
      assert forall i :: 0 <= i < k ==> Before(low[i], f);
      StrictConcat([f], high);
      StrictConcat(low, [f] + high);
      assert InsertFile(added, f) == low + ([f] + high);
    }
  }

  lemma InsertFileAdds(names: map<nat, FileMeta>, added: Files, f: FileMeta)
    requires Named(names, Elems(added)) && Named(names, {f})
    ensures Elems(InsertFile(added, f)) == Elems(added) + {f}
  {
    var k := UpperBound(added, f);
    if k > 0 && !Before(added[k - 1], f) {
      assert added[k - 1] in Elems(added) && f in {f};
      assert !Before(f, added[k - 1]);
    } else {
      var low, high := added[..k], added[k..];
      assert added == low + high;
      assert InsertFile(added, f) == low + [f] + high;
    }
  }

  ghost predicate LevelNamed(names: map<nat, FileMeta>, st: LevelState) {
    Strict(st.added) && Named(names, Elems(st.added))
  }

  lemma {:induction false} ApplyAddsLevel(names: map<nat, FileMeta>, p: Pending, adds: seq<(nat, FileMeta)>, l: nat)
    requires l < NUM_LEVELS && LevelNamed(names, p[l])
    requires forall i :: 0 <= i < |adds| ==> adds[i].0 < NUM_LEVELS && Named(names, {adds[i].1})
    ensures var q := ApplyAdds(p, adds)[l];
            && LevelNamed(names, q)
            && Elems(q.added) == Elems(p[l].added) + AddedAt(adds, l)
            && q.deleted == p[l].deleted - Numbers(AddedAt(adds, l))
  {
    if adds != [] {
      var n := |adds| - 1;
      var init, f := adds[..n], adds[n].1;
      ApplyAddsLevel(names, p, init, l);
      assert AddedAt(adds, l) == AddedAt(init, l) + if adds[n].0 == l then {f} else {} by {
        assert forall i :: 0 <= i < n ==> adds[i] == init[i];
      }
      if adds[n].0 == l {
        InsertFileStrict(ApplyAdds(p, init)[l].added, f);
        InsertFileAdds(names, ApplyAdds(p, init)[l].added, f);
      }
    }
  }

  /** What one edit does to one level of a builder. */
  lemma ApplyEditLevel(names: map<nat, FileMeta>, p: Pending, e: Edit, l: nat)
    requires l < NUM_LEVELS && LevelNamed(names, p[l]) && e.LevelsOk() && NamedEdit(names, e)
    ensures var q := ApplyEdit(p, e)[l];
            && LevelNamed(names, q)
            && Elems(q.added) == Elems(p[l].added) + AddedAt(e.added, l)
            && q.deleted == p[l].deleted + DeletedAt(e.deleted, l) - Numbers(AddedAt(e.added, l))
  {
    ApplyAddsLevel(names, ApplyDeletes(p, e.deleted), e.added, l);
  }

  // ---------------------------------------------------------------- one level of a saved version

  /** The files of a saved level, as a set. */
  function Surviving(base: set<FileMeta>, st: LevelState): set<FileMeta> {
    set f | f in base + Elems(st.added) && f.number !in st.deleted
  }

  /** A file that both lists hold and that is kept appears twice in the saved level. */
  ghost predicate Doubled(base: Files, st: LevelState, f: FileMeta) {
    f in base && f in st.added && f.number !in st.deleted
  }

  lemma TwiceCounts(s: Files, i: nat, j: nat)
    requires i < j < |s| && s[i] == s[j]
    ensures multiset(s)[s[i]] >= 2
  {
    assert s == s[..j] + s[j..];
    assert s[i] in s[..j] && s[j] in s[j..];
    assert s[i] in multiset(s[..j]) && s[j] in multiset(s[j..]);
  }

  lemma {:induction false} StrictCounts(s: Files, f: FileMeta)
    requires Strict(s)
    ensures multiset(s)[f] == if f in s then 1 else 0
  {
    if s != [] {
      StrictCounts(s[1..], f);
      assert s == [s[0]] + s[1..];
      if s[0] in s[1..] {
        var i :| 0 <= i < |s[1..]| && s[1..][i] == s[0];
        assert Before(s[0], s[i + 1]);
      }
    }
  }

  lemma SaveLevelElems(base: Files, st: LevelState)
    ensures Elems(SaveLevel(base, st)) == Surviving(Elems(base), st)
  {
    MergeMembers(base, st.added);
    KeepMembers(Merge(base, st.added), st.deleted);
  }

  /** The saved level has no repetition exactly when no file is doubled. */
  lemma SaveLevelStrict(names: map<nat, FileMeta>, base: Files, st: LevelState)
    requires Strict(base) && Named(names, Elems(base)) && LevelNamed(names, st)
    ensures Strict(SaveLevel(base, st)) <==> !exists f :: Doubled(base, st, f)
    ensures Named(names, Elems(SaveLevel(base, st)))
  {
    var out := SaveLevel(base, st);
    SaveIsMerge(base, st);
    SaveLevelElems(base, st);
    if f :| Doubled(base, st, f) {
      DoubledCounts(base, st, f);
      if Strict(out) { StrictCounts(out, f); }
    } else {
      forall f ensures multiset(out)[f] <= 1 {
        StrictCounts(base, f);
        StrictCounts(st.added, f);
        assert !Doubled(base, st, f);
      }
      SinglesStrict(names, out);
    }
  }

  lemma DoubledCounts(base: Files, st: LevelState, f: FileMeta)
    requires Strict(base) && Strict(st.added) && Doubled(base, st, f)
    ensures multiset(SaveLevel(base, st))[f] == 2
  {
    SaveIsMerge(base, st);
    StrictCounts(base, f);
    StrictCounts(st.added, f);
  }

  lemma SinglesStrict(names: map<nat, FileMeta>, s: Files)
    requires Ascending(s) && Named(names, Elems(s)) && forall f :: multiset(s)[f] <= 1
    ensures Strict(s)
  {
    forall i, j | 0 <= i < j < |s| ensures Before(s[i], s[j]) {
      assert s[i] in Elems(s) && s[j] in Elems(s);
      if s[i].number == s[j].number { TwiceCounts(s, i, j); }
    }
  }

  // ---------------------------------------------------------------- runs of edits

  /** One version per edit. */
  function OneByOne(base: Levels, es: seq<Edit>): Levels
    requires LevelsOk(es)
  {
    if es == [] then base else Next(OneByOne(base, es[..|es| - 1]), es[|es| - 1])
  }

  /** All edits in one builder. */
  function Batched(base: Levels, es: seq<Edit>): Levels
    requires LevelsOk(es)
  {
    Save(base, ApplyEdits(NOTHING, es))
  }

  /** No edit adds a file number that the version it is applied to already holds on that level. */
  ghost predicate FreshAdds(v: Levels, e: Edit) {
    forall l :: 0 <= l < NUM_LEVELS ==> AddedAt(e.added, l) !! Elems(v[l])
  }

  ghost predicate FreshRun(base: Levels, es: seq<Edit>)
    requires LevelsOk(es)
  {
    forall i :: 0 <= i < |es| ==> FreshAdds(OneByOne(base, es[..i]), es[i])
  }

  ghost predicate Proper(names: map<nat, FileMeta>, v: Levels) {
    forall l :: 0 <= l < NUM_LEVELS ==> Strict(v[l]) && Named(names, Elems(v[l]))
  }

  /** The last edit that names the file on this level adds it. */
  predicate EndsAdded(es: seq<Edit>, l: nat, f: FileMeta) {
    es != [] &&
    var e := es[|es| - 1];
    f in AddedAt(e.added, l) || (f.number !in DeletedAt(e.deleted, l) && EndsAdded(es[..|es| - 1], l, f))
  }

  /** What a caller can check: some file of the base is re-added by the edits and stays. */
  predicate Readds(base: Levels, es: seq<Edit>) {
    exists l, f :: 0 <= l < NUM_LEVELS && f in base[l] && EndsAdded(es, l, f)
  }

  lemma NextLevel(names: map<nat, FileMeta>, v: Levels, e: Edit, l: nat)
    requires l < NUM_LEVELS && Strict(v[l]) && Named(names, Elems(v[l])) && e.LevelsOk() && NamedEdit(names, e)
    ensures Named(names, Elems(Next(v, e)[l]))
    ensures Elems(Next(v, e)[l]) ==
              (set f | f in Elems(v[l]) && f.number !in DeletedAt(e.deleted, l)) + AddedAt(e.added, l)
    ensures AddedAt(e.added, l) !! Elems(v[l]) ==> Strict(Next(v, e)[l])
  {
    var st := ApplyEdit(NOTHING, e)[l];
    ApplyEditLevel(names, NOTHING, e, l);
    SaveLevelElems(v[l], st);
    SaveLevelStrict(names, v[l], st);
    var adds := AddedAt(e.added, l);
    assert Elems(st.added) == adds;
    forall f ensures f in Elems(Next(v, e)[l]) <==>
        (f in v[l] && f.number !in DeletedAt(e.deleted, l)) || f in adds
    {
      if f in adds { assert f.number in Numbers(adds); }
      if f in v[l] && f.number in Numbers(adds) {
        var g :| g in adds && g.number == f.number;
        assert g in Elems(st.added) && f in Elems(v[l]);
      }
    }
    if adds !! Elems(v[l]) {
      assert forall f :: Doubled(v[l], st, f) ==> f in Elems(v[l]) && f in Elems(st.added);
    }
  }

  /** Fresh edits keep a version proper. */
  lemma NextProper(names: map<nat, FileMeta>, v: Levels, e: Edit)
    requires Proper(names, v) && e.LevelsOk() && NamedEdit(names, e) && FreshAdds(v, e)
    ensures Proper(names, Next(v, e))
  {
    forall l | 0 <= l < NUM_LEVELS ensures Strict(Next(v, e)[l]) && Named(names, Elems(Next(v, e)[l])) {
      NextLevel(names, v, e, l);
    }
  }

  lemma PrefixOfRun(base: Levels, es: seq<Edit>)
    requires es != [] && LevelsOk(es) && FreshRun(base, es)
    ensures LevelsOk(es[..|es| - 1]) && FreshRun(base, es[..|es| - 1])
    ensures FreshAdds(OneByOne(base, es[..|es| - 1]), es[|es| - 1])
  {
    var init := es[..|es| - 1];
    forall i | 0 <= i < |init| ensures FreshAdds(OneByOne(base, init[..i]), init[i]) {
      assert init[..i] == es[..i];
    }
  }

  /** One-by-one application of fresh edits never repeats a file. */
  lemma {:induction false} OneByOneProper(names: map<nat, FileMeta>, base: Levels, es: seq<Edit>)
    requires Proper(names, base) && LevelsOk(es) && NamedEdits(names, es) && FreshRun(base, es)
    ensures Proper(names, OneByOne(base, es))
  {
    if es != [] {
      PrefixOfRun(base, es);
      OneByOneProper(names, base, es[..|es| - 1]);
      NextProper(names, OneByOne(base, es[..|es| - 1]), es[|es| - 1]);
    }
  }

  lemma NothingSurvives(names: map<nat, FileMeta>, base: Levels, l: nat)
    requires l < NUM_LEVELS
    ensures LevelNamed(names, NOTHING[l]) && Surviving(Elems(base[l]), NOTHING[l]) == Elems(base[l])
    ensures forall f :: f in NOTHING[l].added && f.number !in NOTHING[l].deleted <==> EndsAdded([], l, f)
  {
  }

  /** Both ways agree on the set of files of every level; the builder keeps an added file exactly
      when the last edit that names it adds it. */
  lemma {:induction false} SameFiles(names: map<nat, FileMeta>, base: Levels, es: seq<Edit>, l: nat)
    requires l < NUM_LEVELS && Proper(names, base) && LevelsOk(es) && NamedEdits(names, es) && FreshRun(base, es)
    ensures LevelNamed(names, ApplyEdits(NOTHING, es)[l])
    ensures Elems(OneByOne(base, es)[l]) == Surviving(Elems(base[l]), ApplyEdits(NOTHING, es)[l])
    ensures var st := ApplyEdits(NOTHING, es)[l];
            forall f :: f in st.added && f.number !in st.deleted <==> EndsAdded(es, l, f)
  {
    hide FreshRun, FreshAdds, Surviving, EndsAdded, Next, ApplyEdit, Named;
    if es == [] {
      NothingSurvives(names, base, l);
    } else {
      var init, e := es[..|es| - 1], es[|es| - 1];
      assert init + [e] == es;
      PrefixOfRun(base, es);
      SameFiles(names, base, init, l);
      OneByOneProper(names, base, init);
      NextLevel(names, OneByOne(base, init), e, l);
      ApplyEditLevel(names, ApplyEdits(NOTHING, init), e, l);
      SurvivingStep(names, Elems(base[l]), ApplyEdits(NOTHING, init)[l], ApplyEdits(NOTHING, es)[l],
                    AddedAt(e.added, l), DeletedAt(e.deleted, l));
      EndsAddedStep(names, init, e, l, ApplyEdits(NOTHING, init)[l], ApplyEdits(NOTHING, es)[l]);
    }
  }

  lemma SurvivingStep(names: map<nat, FileMeta>, base: set<FileMeta>, st: LevelState, st': LevelState,
                      adds: set<FileMeta>, dels: set<nat>)
    requires Named(names, base) && Named(names, Elems(st.added)) && Named(names, adds)
    requires Elems(st'.added) == Elems(st.added) + adds && st'.deleted == st.deleted + dels - Numbers(adds)
    ensures Surviving(base, st') == (set f | f in Surviving(base, st) && f.number !in dels) + adds
  {
    forall f ensures f in Surviving(base, st') <==> (f in Surviving(base, st) && f.number !in dels) || f in adds {
      if f in adds { assert f.number in Numbers(adds); }
      if f in base + Elems(st.added) && f.number in Numbers(adds) {
        var g :| g in adds && g.number == f.number;
      }
    }
  }

  lemma EndsAddedStep(names: map<nat, FileMeta>, init: seq<Edit>, e: Edit, l: nat, st: LevelState, st': LevelState)
    requires LevelNamed(names, st) && Named(names, AddedAt(e.added, l))
    requires Elems(st'.added) == Elems(st.added) + AddedAt(e.added, l)
    requires st'.deleted == st.deleted + DeletedAt(e.deleted, l) - Numbers(AddedAt(e.added, l))
    requires forall f :: f in st.added && f.number !in st.deleted <==> EndsAdded(init, l, f)
    ensures forall f :: f in st'.added && f.number !in st'.deleted <==> EndsAdded(init + [e], l, f)
  {
    var adds := AddedAt(e.added, l);
    assert (init + [e])[..|init|] == init;
    forall f ensures f in st'.added && f.number !in st'.deleted <==> EndsAdded(init + [e], l, f) {
      assert f in st'.added <==> f in Elems(st'.added);
      assert f in st.added <==> f in Elems(st.added);
      if f in adds { assert f.number in Numbers(adds); }
      if f in st.added && f.number in Numbers(adds) {
        var g :| g in adds && g.number == f.number;
      }
    }
  }

  /** Batching is exact if and only if no file of the base is re-added and stays: then, and only
      then, one builder gives the version that intermediate versions would have given. */
  lemma BatchingExact(names: map<nat, FileMeta>, base: Levels, es: seq<Edit>)
    requires Proper(names, base) && LevelsOk(es) && NamedEdits(names, es) && FreshRun(base, es)
    ensures Batched(base, es) == OneByOne(base, es) <==> !Readds(base, es)
  {
    var p, one, many := ApplyEdits(NOTHING, es), OneByOne(base, es), Batched(base, es);
    OneByOneProper(names, base, es);
    forall l | 0 <= l < NUM_LEVELS
      ensures many[l] == one[l] <==> !exists f :: f in base[l] && EndsAdded(es, l, f)
    {
      SameFiles(names, base, es, l);
      SaveLevelElems(base[l], p[l]);
      SaveLevelStrict(names, base[l], p[l]);
      assert forall f :: Doubled(base[l], p[l], f) <==> f in base[l] && EndsAdded(es, l, f);
      if Strict(many[l]) {
        forall f ensures f in one[l] <==> f in many[l] {
          assert f in one[l] <==> f in Elems(one[l]);
          assert f in many[l] <==> f in Elems(many[l]);
        }
        StrictUnique(one[l], many[l]);
      }
    }
    if many != one {
      var l :| 0 <= l < NUM_LEVELS && many[l] != one[l];
      assert exists f :: f in base[l] && EndsAdded(es, l, f);
    }
  }

  /** From an empty version, as when a manifest is replayed, batching is always exact. */
  lemma BatchingFromEmpty(names: map<nat, FileMeta>, es: seq<Edit>)
    requires LevelsOk(es) && NamedEdits(names, es) && FreshRun(NO_FILES, es)
    ensures Batched(NO_FILES, es) == OneByOne(NO_FILES, es)
  {
    assert forall l :: 0 <= l < NUM_LEVELS ==> NO_FILES[l] == [];
    hide FreshRun, NamedEdits, Batched, OneByOne;
    BatchingExact(names, NO_FILES, es);
  }

  /** Deleting a file of the base and adding it again in a later edit is a failing case. */
  lemma BatchingFails()
    ensures Batched(LONE_VERSION, LONE_RUN) != OneByOne(LONE_VERSION, LONE_RUN)
  {
    hide FreshRun, Batched, OneByOne, Proper, NamedEdits;
    var names := map[7 := LONE_FILE];
    LoneRunIsFresh(names);
    assert Readds(LONE_VERSION, LONE_RUN) by {
      var e := LONE_RUN[1];
      assert e.added[0] == (1, LONE_FILE) && LONE_FILE in AddedAt(e.added, 1) && LONE_FILE in LONE_VERSION[1];
      assert EndsAdded(LONE_RUN, 1, LONE_FILE);
    }
    BatchingExact(names, LONE_VERSION, LONE_RUN);
  }

  const LONE_FILE: FileMeta := FileMeta(7, 1, InternalKey(0, 9), InternalKey(5, 1))
  const LONE_VERSION: Levels := [[], [LONE_FILE], [], [], [], [], []]
  const LONE_RUN: seq<Edit> := [EMPTY.(deleted := {(1, 7)}), EMPTY.(added := [(1, LONE_FILE)])]

  lemma LoneRunIsFresh(names: map<nat, FileMeta>)
    requires names == map[7 := LONE_FILE]
    ensures LevelsOk(LONE_RUN) && NamedEdits(names, LONE_RUN)
    ensures Proper(names, LONE_VERSION) && FreshRun(LONE_VERSION, LONE_RUN)
  {
    var base, e0, e1 := LONE_VERSION, LONE_RUN[0], LONE_RUN[1];
    assert forall l :: 0 <= l < NUM_LEVELS && l != 1 ==> base[l] == [];
    assert LONE_RUN[..0] == [] && LONE_RUN[..1] == [e0] && [e0][..0] == [];
    assert OneByOne(base, [e0]) == Next(base, e0);
    LoneFileGone(names);
    forall l | 0 <= l < NUM_LEVELS
      ensures AddedAt(e0.added, l) == {} && AddedAt(e1.added, l) !! Elems(Next(base, e0)[l])
    {
      AddedAtOne(1, LONE_FILE, l);
    }
    hide Next, AddedAt;
  }

  lemma LoneFileGone(names: map<nat, FileMeta>)
    requires names == map[7 := LONE_FILE]
    ensures LONE_RUN[0].LevelsOk() && LONE_FILE !in Elems(Next(LONE_VERSION, LONE_RUN[0])[1])
  {
    var f, base, e0 := LONE_FILE, LONE_VERSION, LONE_RUN[0];
    assert (1, 7) in e0.deleted && f.number in DeletedAt(e0.deleted, 1);
    assert AddedAt(e0.added, 1) == {};
    NextLevel(names, base, e0, 1);
  }
}
