/** Batching on every run of edits, also on one that adds a file that the version already holds: when one
    `Builder` gives the version that one version per edit gives. */
module BatchingRuns {
  import opened DbFormat
  import opened VersionEdits
  import opened BuilderSpec
  import opened Batching

  /** Levels in order, perhaps with repetitions; a number means one file. */
  ghost predicate LevelsInOrder(names: map<nat, FileMeta>, v: Levels) {
    forall l :: 0 <= l < NUM_LEVELS ==> Ascending(v[l]) && Named(names, Elems(v[l]))
  }

  /** How often a level lists the file after these edits, one version per edit: an edit that adds it lists
      it once more, and one that deletes its number and does not add it drops all. */
  function Copies(base: Levels, es: seq<Edit>, l: nat, f: FileMeta): nat
    requires l < NUM_LEVELS
  {
    if es == [] then multiset(base[l])[f]
    else
      var init, e := es[..|es| - 1], es[|es| - 1];
      if f in AddedAt(e.added, l) then Copies(base, init, l, f) + 1
      else if f.number in DeletedAt(e.deleted, l) then 0
      else Copies(base, init, l, f)
  }

  lemma CountIn(s: Files, f: FileMeta)
    ensures multiset(s)[f] > 0 <==> f in Elems(s)
  {
    assert f in s <==> f in multiset(s);
  }

  lemma OtherName(names: map<nat, FileMeta>, fs: set<FileMeta>, f: FileMeta)
    requires Named(names, fs) && f !in fs && f.number in Numbers(fs)
    ensures f.number in names && names[f.number] != f
  {
  }

  /** One edit on a level that may have repetitions. */
  lemma NextCopies(names: map<nat, FileMeta>, v: Levels, e: Edit, l: nat)
    requires l < NUM_LEVELS && Ascending(v[l]) && Named(names, Elems(v[l])) && e.LevelsOk() && NamedEdit(names, e)
    ensures Ascending(Next(v, e)[l]) && Named(names, Elems(Next(v, e)[l]))
    ensures forall f :: multiset(Next(v, e)[l])[f] ==
              if f in AddedAt(e.added, l) then multiset(v[l])[f] + 1
              else if f.number in DeletedAt(e.deleted, l) then 0
              else multiset(v[l])[f]
  {
    var st, adds := ApplyEdit(NOTHING, e)[l], AddedAt(e.added, l);
    ApplyEditLevel(names, NOTHING, e, l);
    assert Elems(st.added) == adds;
    SaveIsMerge(v[l], st);
    SaveLevelElems(v[l], st);
    hide Ascending, SaveLevel, ApplyEdit, AddedAt, Named, Elems;
    forall f ensures multiset(Next(v, e)[l])[f] ==
              if f in adds then multiset(v[l])[f] + 1
              else if f.number in DeletedAt(e.deleted, l) then 0
              else multiset(v[l])[f]
    {
      AddedCount(names, st, adds, f);
      CountIn(v[l], f);
      if f !in adds && f.number in Numbers(adds) {
        OtherName(names, adds, f);
        NotNamed(names, Elems(v[l]), f);
      }
    }
    NamedAfter(names, v[l], st, adds);
  }

  lemma AddedCount(names: map<nat, FileMeta>, st: LevelState, adds: set<FileMeta>, f: FileMeta)
    requires Strict(st.added) && Elems(st.added) == adds
    ensures multiset(st.added)[f] == if f in adds then 1 else 0
    ensures f in adds ==> f.number in Numbers(adds)
  {
    StrictCounts(st.added, f);
  }

  lemma NotNamed(names: map<nat, FileMeta>, fs: set<FileMeta>, f: FileMeta)
    requires Named(names, fs) && f.number in names && names[f.number] != f
    ensures f !in fs
  {
  }

  lemma NamedAfter(names: map<nat, FileMeta>, base: Files, st: LevelState, adds: set<FileMeta>)
    requires Named(names, Elems(base)) && Named(names, adds) && Elems(st.added) == adds
    requires Elems(SaveLevel(base, st)) == Surviving(Elems(base), st)
    ensures Named(names, Elems(SaveLevel(base, st)))
  {
    hide SaveLevel, Elems;
  }

  /** One version per edit lists every file as often as `Copies` says. */
  lemma {:induction false} OneByOneCopies(names: map<nat, FileMeta>, base: Levels, es: seq<Edit>, l: nat)
    requires l < NUM_LEVELS && LevelsInOrder(names, base) && LevelsOk(es) && NamedEdits(names, es)
    ensures Ascending(OneByOne(base, es)[l]) && Named(names, Elems(OneByOne(base, es)[l]))
    ensures forall f :: multiset(OneByOne(base, es)[l])[f] == Copies(base, es, l, f)
  {
    hide Next, Ascending, Elems, Named, AddedAt;
    if es != [] {
      var init, e := es[..|es| - 1], es[|es| - 1];
      OneByOneCopies(names, base, init, l);
      NextCopies(names, OneByOne(base, init), e, l);
    }
  }

  /** How often the builder's level lists the file. */
  function TimesListed(base: Files, st: LevelState, f: FileMeta): nat {
    if f.number in st.deleted then 0 else multiset(base)[f] + if f in st.added then 1 else 0
  }

  /** The builder after all edits; it counts a file that is not added last as `Copies` does. */
  lemma {:induction false} BuilderCopies(names: map<nat, FileMeta>, base: Levels, es: seq<Edit>, l: nat)
    requires l < NUM_LEVELS && LevelsInOrder(names, base) && LevelsOk(es) && NamedEdits(names, es)
    ensures var st := ApplyEdits(NOTHING, es)[l];
            && LevelNamed(names, st)
            && (forall f :: f in st.added && f.number !in st.deleted <==> EndsAdded(es, l, f))
            && (forall f :: !EndsAdded(es, l, f) ==> TimesListed(base[l], st, f) == Copies(base, es, l, f))
  {
    hide ApplyEdit, AddedAt, EndsAdded, Named, TimesListed, Copies;
    if es == [] {
      NothingCopies(names, base, l);
    } else {
      var init, e := es[..|es| - 1], es[|es| - 1];
      assert init + [e] == es;
      BuilderCopies(names, base, init, l);
      ApplyEditLevel(names, ApplyEdits(NOTHING, init), e, l);
      NamedAdds(names, e, l);
      EndsAddedStep(names, init, e, l, ApplyEdits(NOTHING, init)[l], ApplyEdits(NOTHING, es)[l]);
      forall f | !EndsAdded(es, l, f)
        ensures TimesListed(base[l], ApplyEdits(NOTHING, es)[l], f) == Copies(base, es, l, f)
      {
        ListedStep(names, base, init, e, l, ApplyEdits(NOTHING, init)[l], ApplyEdits(NOTHING, es)[l], f);
      }
    }
  }

  lemma NothingCopies(names: map<nat, FileMeta>, base: Levels, l: nat)
    requires l < NUM_LEVELS
    ensures LevelNamed(names, NOTHING[l])
    ensures forall f :: f in NOTHING[l].added && f.number !in NOTHING[l].deleted <==> EndsAdded([], l, f)
    ensures forall f :: TimesListed(base[l], NOTHING[l], f) == Copies(base, [], l, f)
  {
  }

  lemma NamedAdds(names: map<nat, FileMeta>, e: Edit, l: nat)
    requires NamedEdit(names, e)
    ensures Named(names, AddedAt(e.added, l))
  {
    forall f | f in AddedAt(e.added, l) ensures f.number in names && names[f.number] == f {
      var i :| 0 <= i < |e.added| && e.added[i].0 == l && e.added[i].1 == f;
      assert Named(names, {e.added[i].1}) && f in {f};
    }
  }

  lemma ListedStep(names: map<nat, FileMeta>, base: Levels, init: seq<Edit>, e: Edit, l: nat,
                   st: LevelState, st': LevelState, f: FileMeta)
    requires l < NUM_LEVELS && LevelsInOrder(names, base) && LevelNamed(names, st) && LevelNamed(names, st')
    requires Named(names, AddedAt(e.added, l))
    requires Elems(st'.added) == Elems(st.added) + AddedAt(e.added, l)
    requires st'.deleted == st.deleted + DeletedAt(e.deleted, l) - Numbers(AddedAt(e.added, l))
    requires !EndsAdded(init + [e], l, f)
    requires !EndsAdded(init, l, f) ==> TimesListed(base[l], st, f) == Copies(base, init, l, f)
    ensures TimesListed(base[l], st', f) == Copies(base, init + [e], l, f)
  {
    hide Strict, AddedAt;
    var es, adds := init + [e], AddedAt(e.added, l);
    assert es[..|es| - 1] == init && es[|es| - 1] == e;
    CountIn(base[l], f);
    assert f in st'.added <==> f in Elems(st'.added);
    assert f in st.added <==> f in Elems(st.added);
    if f.number in Numbers(adds) {
      OtherName(names, adds, f);
      NotNamed(names, Elems(base[l]), f);
      NotNamed(names, Elems(st'.added), f);
    }
  }

  // ---------------------------------------------------------------- equal counts, equal lists

  lemma {:induction false} AscendingUnique(names: map<nat, FileMeta>, a: Files, b: Files)
    requires Ascending(a) && Ascending(b) && Named(names, Elems(a)) && Named(names, Elems(b))
    requires multiset(a) == multiset(b)
    ensures a == b
  {
    hide Ascending, Named, Elems;
    assert |a| == |multiset(a)| == |multiset(b)| == |b|;
    if a != [] {
      SameFirst(names, a, b);
      assert a == [a[0]] + a[1..] && b == [b[0]] + b[1..];
      assert multiset(a[1..]) == multiset(a) - multiset{a[0]} == multiset(b[1..]);
      TailInOrder(names, a);
      TailInOrder(names, b);
      AscendingUnique(names, a[1..], b[1..]);
    }
  }

  lemma TailInOrder(names: map<nat, FileMeta>, s: Files)
    requires Ascending(s) && Named(names, Elems(s)) && s != []
    ensures Ascending(s[1..]) && Named(names, Elems(s[1..]))
  {
  }

  lemma SameFirst(names: map<nat, FileMeta>, a: Files, b: Files)
    requires Ascending(a) && Ascending(b) && Named(names, Elems(a)) && Named(names, Elems(b))
    requires multiset(a) == multiset(b) && a != [] && b != []
    ensures a[0] == b[0]
  {
    assert a[0] in multiset(b) && b[0] in multiset(a);
    var i :| 0 <= i < |b| && b[i] == a[0];
    var j :| 0 <= j < |a| && a[j] == b[0];
    assert !Before(a[0], b[0]) && !Before(b[0], a[0]);
    assert a[0] in Elems(a) && b[0] in Elems(b);
  }

  // ---------------------------------------------------------------- the condition

  /** What a caller can count: of each file that the edits leave added, the additions that no deletion
      undid, and the listings of the base that none dropped, are one more than its listings in the base. */
  ghost predicate AddedOnceMore(base: Levels, es: seq<Edit>) {
    forall l, f :: 0 <= l < NUM_LEVELS && EndsAdded(es, l, f) ==> Copies(base, es, l, f) == multiset(base[l])[f] + 1
  }

  /** For every run of edits: one builder gives the version of one version per edit if and only if every
      file that stays added is listed once more than in the base. */
  lemma BatchingExactAlways(names: map<nat, FileMeta>, base: Levels, es: seq<Edit>)
    requires LevelsInOrder(names, base) && LevelsOk(es) && NamedEdits(names, es)
    ensures Batched(base, es) == OneByOne(base, es) <==> AddedOnceMore(base, es)
  {
    hide Named, Elems, Ascending, OneByOne, ApplyEdits, EndsAdded, Copies, SaveLevel;
    forall l | 0 <= l < NUM_LEVELS
      ensures Batched(base, es)[l] == OneByOne(base, es)[l] <==>
                forall f :: EndsAdded(es, l, f) ==> Copies(base, es, l, f) == multiset(base[l])[f] + 1
    {
      BatchingLevel(names, base, es, l);
    }
    assert Batched(base, es) == OneByOne(base, es) <==>
           forall l :: 0 <= l < NUM_LEVELS ==> Batched(base, es)[l] == OneByOne(base, es)[l];
  }

  lemma BatchingLevel(names: map<nat, FileMeta>, base: Levels, es: seq<Edit>, l: nat)
    requires l < NUM_LEVELS && LevelsInOrder(names, base) && LevelsOk(es) && NamedEdits(names, es)
    ensures Batched(base, es)[l] == OneByOne(base, es)[l] <==>
              forall f :: EndsAdded(es, l, f) ==> Copies(base, es, l, f) == multiset(base[l])[f] + 1
  {
    hide Named, Elems, Ascending, OneByOne, ApplyEdits, EndsAdded, Copies, SaveLevel, Strict;
    var st, one := ApplyEdits(NOTHING, es)[l], OneByOne(base, es)[l];
    var many := SaveLevel(base[l], st);
    assert Batched(base, es)[l] == many;
    BuilderCopies(names, base, es, l);
    OneByOneCopies(names, base, es, l);
    SavedCopies(names, base[l], st);
    if forall f :: EndsAdded(es, l, f) ==> Copies(base, es, l, f) == multiset(base[l])[f] + 1 {
      forall f ensures multiset(many)[f] == multiset(one)[f] {}
      assert multiset(many) == multiset(one);
      AscendingUnique(names, many, one);
    }
  }

  lemma SavedCopies(names: map<nat, FileMeta>, base: Files, st: LevelState)
    requires Ascending(base) && Named(names, Elems(base)) && LevelNamed(names, st)
    ensures Ascending(SaveLevel(base, st)) && Named(names, Elems(SaveLevel(base, st)))
    ensures forall f :: multiset(SaveLevel(base, st))[f] == TimesListed(base, st, f)
  {
    hide SaveLevel, Ascending, Strict;
    SaveIsMerge(base, st);
    SaveLevelElems(base, st);
    forall f { StrictCounts(st.added, f); }
  }

  /** Adding a new file in two edits without a deletion is a failing case that deletes nothing. */
  lemma AddingTwiceFails()
    ensures Batched(NO_FILES, TWICE) != OneByOne(NO_FILES, TWICE)
    ensures !Readds(NO_FILES, TWICE)
  {
    var e := TWICE[0];
    assert e.added[0] == (1, LONE_FILE) && LONE_FILE in AddedAt(e.added, 1);
    assert TWICE[..1] == [e] && [e][..0] == [];
    assert NO_FILES[1] == [] && forall l :: 0 <= l < NUM_LEVELS ==> NO_FILES[l] == [];
    assert Copies(NO_FILES, [], 1, LONE_FILE) == 0;
    assert Copies(NO_FILES, [e], 1, LONE_FILE) == 1;
    assert Copies(NO_FILES, TWICE, 1, LONE_FILE) == 2 && EndsAdded(TWICE, 1, LONE_FILE);
    hide Batched, OneByOne, Copies, EndsAdded, AddedAt;
    BatchingExactAlways(map[7 := LONE_FILE], NO_FILES, TWICE);
  }

  const TWICE: seq<Edit> := [EMPTY.(added := [(1, LONE_FILE)]), EMPTY.(added := [(1, LONE_FILE)])]
}
