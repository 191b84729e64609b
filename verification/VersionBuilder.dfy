/** VersionSet::Builder as a class over reference-counted file objects (leveldb/db/version_set.cc:99-233).

    `FileTable` stands for the heap of FileMetaData objects.  Its ghost multiset `holders` lists
    who holds which object; the counters are correct when they equal the multiplicities. */
module VersionBuilders {
  import opened DbFormat
  import opened VersionEdits
  import opened BuilderSpec
  import opened Batching

  /** A FileMetaData object: two objects may carry the same metadata. */
  datatype File = File(id: nat, meta: FileMeta)

  function Metas(fs: seq<File>): Files {
    seq(|fs|, i requires 0 <= i < |fs| => fs[i].meta)
  }

  class FileTable {
    var refs: map<File, nat>  // the live objects and their counters
    var nextId: nat
    ghost var holders: multiset<File>

    ghost predicate Valid()
      reads this
    {
      && (forall f :: f in refs <==> f in holders)
      && (forall f :: f in refs ==> refs[f] == holders[f] && f.id < nextId)
    }

    constructor ()
      ensures Valid() && holders == multiset{}
    {
      refs, nextId, holders := map[], 0, multiset{};
    }

    /** new FileMetaData(...) with refs = 1. */
    method New(meta: FileMeta) returns (f: File)
      requires Valid()
      modifies this
      ensures Valid() && f.meta == meta && f !in old(holders)
      ensures holders == old(holders) + multiset{f}
    {
      f := File(nextId, meta);
      refs, nextId, holders := refs[f := 1], nextId + 1, holders + multiset{f};
    }

    /** f->refs++ */
    method Retain(f: File)
      requires Valid() && f in holders
      modifies this`refs, this`holders
      ensures Valid() && holders == old(holders) + multiset{f}
    {
      refs, holders := refs[f := refs[f] + 1], holders + multiset{f};
    }

    /** f->refs--, and delete when nobody is left. */
    method Release(f: File)
      requires Valid() && f in holders
      modifies this`refs, this`holders
      ensures Valid() && holders == old(holders) - multiset{f}
    {
      refs, holders := refs[f := refs[f] - 1], holders - multiset{f};
      if refs[f] <= 0 {
        refs := refs - {f};
      }
    }

    method ReleaseAll(fs: seq<File>)
      requires Valid() && multiset(fs) <= holders
      modifies this`refs, this`holders
      ensures Valid() && holders == old(holders) - multiset(fs)
    {
      hide Valid;
      ghost var start := holders;
      for i := 0 to |fs|
        invariant Valid() && holders == start - multiset(fs[..i])
      {
        TakeOne(start, fs, i);
        Release(fs[i]);
      }
      assert fs[..|fs|] == fs;
    }

    method ReleaseLists(levels: seq<seq<File>>)
      requires Valid() && Listed(levels) <= holders
      modifies this`refs, this`holders
      ensures Valid() && holders == old(holders) - Listed(levels)
    {
      hide Valid;
      ghost var start := holders - Listed(levels);
      assert levels[0..] == levels;
      for l := 0 to |levels|
        invariant Valid() && holders == start + Listed(levels[l..])
      {
        assert levels[l..][1..] == levels[l + 1..];
        ReleaseAll(levels[l]);
      }
    }
  }

  function Listed(levels: seq<seq<File>>): multiset<File> {
    if levels == [] then multiset{} else multiset(levels[0]) + Listed(levels[1..])
  }

  function LevelsOf(files: seq<seq<File>>): Levels
    requires |files| == NUM_LEVELS
  {
    seq(NUM_LEVELS, l requires 0 <= l < NUM_LEVELS => Metas(files[l]))
  }

  class Version {
    var files: seq<seq<File>>
    var refs: nat
    var next: Version
    var prev: Version

    constructor ()
      ensures files == [[], [], [], [], [], [], []] && refs == 0 && next == prev == this
    {
      files := [[], [], [], [], [], [], []];
      refs := 0;
      next, prev := this, this;
    }

    ghost predicate Shaped()
      reads this`files
    {
      |files| == NUM_LEVELS
    }

    ghost function Value(): Levels
      requires Shaped()
      reads this`files
    {
      LevelsOf(files)
    }
  }

  /** vset_->compact_pointer_, which a builder updates as a side effect. */
  class CompactPointers {
    var keys: seq<Option<InternalKey>>

    constructor ()
      ensures keys == [None, None, None, None, None, None, None]
    {
      keys := [None, None, None, None, None, None, None];
    }
  }

  datatype HeldLevel = HeldLevel(deleted: set<nat>, added: seq<File>) {
    function Value(): LevelState {
      LevelState(deleted, Metas(added))
    }
  }

  /** The added files that a builder holds. */
  function Held(levels: seq<HeldLevel>): multiset<File> {
    if levels == [] then multiset{} else multiset(levels[0].added) + Held(levels[1..])
  }

  lemma {:induction false} HeldUpdate(levels: seq<HeldLevel>, l: nat, st: HeldLevel)
    requires l < |levels|
    ensures multiset(levels[l].added) <= Held(levels)
    ensures Held(levels[l := st]) == Held(levels) - multiset(levels[l].added) + multiset(st.added)
  {
    if l > 0 {
      HeldUpdate(levels[1..], l - 1, st);
      assert levels[l := st][1..] == levels[1..][l - 1 := st];
    } else {
      assert levels[l := st][1..] == levels[1..];
    }
  }

  lemma {:induction false} ListedUpdate(levels: seq<seq<File>>, l: nat, fs: seq<File>)
    requires l < |levels|
    ensures multiset(levels[l]) <= Listed(levels)
    ensures Listed(levels[l := fs]) == Listed(levels) - multiset(levels[l]) + multiset(fs)
  {
    if l > 0 {
      ListedUpdate(levels[1..], l - 1, fs);
      assert levels[l := fs][1..] == levels[1..][l - 1 := fs];
    } else {
      assert levels[l := fs][1..] == levels[1..];
    }
  }

  ghost function Values(levels: seq<HeldLevel>): Pending
    requires |levels| == NUM_LEVELS
  {
    seq(NUM_LEVELS, l requires 0 <= l < NUM_LEVELS => levels[l].Value())
  }

  lemma {:induction false} EmptyLevels(levels: seq<HeldLevel>)
    requires forall l :: 0 <= l < |levels| ==> levels[l] == HeldLevel({}, [])
    ensures Held(levels) == multiset{}
    ensures |levels| == NUM_LEVELS ==> Values(levels) == NOTHING
  {
    assert Metas([]) == [];
    if levels != [] { EmptyLevels(levels[1..]); }
  }

  /** The sorted set with one more object, which it does not take if it has an equivalent one. */
  function Put(added: seq<File>, f: File): seq<File> {
    var k := UpperBound(Metas(added), f.meta);
    if Refuses(Metas(added), f.meta) then added else added[..k] + [f] + added[k..]
  }

  lemma MetasSplice(added: seq<File>, k: nat, f: File)
    requires k <= |added|
    ensures Metas(added[..k] + [f] + added[k..]) == Metas(added)[..k] + [f.meta] + Metas(added)[k..]
    ensures multiset(added[..k] + [f] + added[k..]) == multiset(added) + multiset{f}
  {
    assert added == added[..k] + added[k..];
  }

  lemma PutValue(added: seq<File>, f: File)
    ensures Metas(Put(added, f)) == InsertFile(Metas(added), f.meta)
    ensures multiset(Put(added, f)) ==
            multiset(added) + if Refuses(Metas(added), f.meta) then multiset{} else multiset{f}
  {
    MetasSplice(added, UpperBound(Metas(added), f.meta), f);
    hide UpperBound, Before, Refuses;
  }

  lemma ValuesUpdate(levels: seq<HeldLevel>, level: nat, st: HeldLevel)
    requires |levels| == NUM_LEVELS && level < NUM_LEVELS
    ensures Values(levels[level := st]) == Values(levels)[level := st.Value()]
    ensures Values(levels)[level] == levels[level].Value()
  {
  }

  lemma PutLevel(levels: seq<HeldLevel>, level: nat, f: File)
    requires |levels| == NUM_LEVELS && level < NUM_LEVELS
    ensures var added := levels[level].added;
            var levels' := levels[level := HeldLevel(levels[level].deleted - {f.meta.number}, Put(added, f))];
            && Values(levels') == ApplyAdd(Values(levels), level, f.meta)
            && Held(levels') == Held(levels) + (if Refuses(Metas(added), f.meta) then multiset{} else multiset{f})
            && Refuses(Metas(added), f.meta) == Refuses(Values(levels)[level].added, f.meta)
  {
    var added := levels[level].added;
    var st := HeldLevel(levels[level].deleted - {f.meta.number}, Put(added, f));
    hide Put, Held, InsertFile, Metas, Refuses, Values;
    PutValue(added, f);
    HeldUpdate(levels, level, st);
    ValuesUpdate(levels, level, st);
    assert st.Value() == LevelState(levels[level].deleted - {f.meta.number}, InsertFile(Metas(added), f.meta));
  }

  class Builder {
    const table: FileTable
    const base: Version
    const pointers: CompactPointers
    var levels: seq<HeldLevel>
    var tripped: bool                 // an assertion of MaybeAddFile has failed
    ghost var leaked: multiset<File>  // objects that the sorted sets did not take
    ghost var outside: multiset<File> // references held by others

    ghost predicate Valid()
      reads this`levels, this`leaked, this`outside, table, base, pointers
    {
      ValidWith(leaked)
    }

    ghost predicate ValidWith(leaked: multiset<File>)
      reads this`levels, this`outside, table, base, pointers
    {
      && |levels| == NUM_LEVELS == |pointers.keys|
      && base.Shaped() && base.refs > 1
      && table.Valid()
      && Balanced(table.holders, outside, Held(levels), leaked)
      && Listed(base.files) <= outside
    }

    /** Initialize a builder with the files of *base. */
    constructor (table: FileTable, base: Version, pointers: CompactPointers)
      requires table.Valid() && base.Shaped() && base.refs > 0 && Listed(base.files) <= table.holders
      requires |pointers.keys| == NUM_LEVELS
      modifies base`refs
      ensures Valid() && Values(levels) == NOTHING && Held(levels) == multiset{}
      ensures this.table == table && this.base == base && this.pointers == pointers
      ensures base.refs == old(base.refs) + 1 && !tripped && leaked == multiset{} && outside == table.holders
    {
      this.table, this.base, this.pointers := table, base, pointers;
      var empty := HeldLevel({}, []);
      levels := [empty, empty, empty, empty, empty, empty, empty];
      tripped, leaked, outside := false, multiset{}, table.holders;
      new;
      base.refs := base.refs + 1;
      EmptyLevels(levels);
    }

    /** One new file: the number is no longer deleted; the sorted set takes the object unless it
        already has an equivalent one, in which case nobody holds the new object. */
    method AddOne(level: nat, meta: FileMeta)
      requires Valid() && level < NUM_LEVELS
      modifies this`levels, this`leaked, table
      ensures Valid() && Values(levels) == ApplyAdd(old(Values(levels)), level, meta)
      ensures |leaked| == |old(leaked)| + if Refuses(old(Values(levels))[level].added, meta) then 1 else 0
    {
      var f := table.New(meta);
      OneMore(old(table.holders), outside, Held(levels), leaked, multiset{f});
      AddNew(level, f);
    }

    method AddNew(level: nat, f: File)
      requires ValidWith(leaked + multiset{f}) && level < NUM_LEVELS
      modifies this`levels, this`leaked
      ensures Valid() && Values(levels) == ApplyAdd(old(Values(levels)), level, f.meta)
      ensures |leaked| == |old(leaked)| + if Refuses(old(Values(levels))[level].added, f.meta) then 1 else 0
    {
      hide ApplyAdd, Values, Refuses, Put, Metas, Held, Listed, table.Valid;
      PutLevel(levels, level, f);
      OneLess(table.holders, outside, Held(levels), leaked, multiset{f});
      Add(level, f);
    }

    method Add(level: nat, f: File)
      requires |levels| == NUM_LEVELS && level < NUM_LEVELS
      requires var added := levels[level].added;
               var levels' := levels[level := HeldLevel(levels[level].deleted - {f.meta.number}, Put(added, f))];
               && Values(levels') == ApplyAdd(Values(levels), level, f.meta)
               && Held(levels') == Held(levels) + (if Refuses(Metas(added), f.meta) then multiset{} else multiset{f})
      requires Balanced(table.holders, outside, Held(levels) + multiset{f}, leaked)
      requires Balanced(table.holders, outside, Held(levels), leaked + multiset{f})
      modifies this`levels, this`leaked
      ensures |levels| == NUM_LEVELS && Balanced(table.holders, outside, Held(levels), leaked)
      ensures Values(levels) == ApplyAdd(old(Values(levels)), level, f.meta)
      ensures leaked ==
              old(leaked) + if Refuses(Metas(old(levels)[level].added), f.meta) then multiset{f} else multiset{}
    {
      hide *;
      var added := levels[level].added;
      var taken := !Refuses(Metas(added), f.meta);
      levels := levels[level := HeldLevel(levels[level].deleted - {f.meta.number}, Put(added, f))];
      leaked := if taken then leaked else leaked + multiset{f};
      assert taken || Held(levels) == old(Held(levels));
    }

    /** Apply all of the edits in *edit to the current state. */
    method Apply(edit: VersionEdit)
      requires Valid() && edit.Record().LevelsOk()
      modifies this`levels, this`leaked, table, pointers
      ensures Valid() && Values(levels) == ApplyEdit(old(Values(levels)), edit.Record())
      ensures pointers.keys == ApplyPointers(old(pointers.keys), edit.Record().compactPointers)
      ensures PointersSet(old(pointers.keys), edit.Record().compactPointers, pointers.keys)
      ensures |leaked| == |old(leaked)| + Refusals(ApplyDeletes(old(Values(levels)), edit.Record().deleted),
                                                   edit.Record().added)
    {
      PointersAt(pointers.keys, edit.compactPointers);
      UpdatePointers(edit.compactPointers);
      DeleteFiles(edit.deletedFiles);
      AddFiles(edit.newFiles);
    }

    /** Lines 163-167. */
    method UpdatePointers(ps: seq<(nat, InternalKey)>)
      requires |pointers.keys| == NUM_LEVELS && forall i :: 0 <= i < |ps| ==> ps[i].0 < NUM_LEVELS
      modifies pointers
      ensures pointers.keys == ApplyPointers(old(pointers.keys), ps)
    {
      for i := 0 to |ps|
        invariant pointers.keys == ApplyPointers(old(pointers.keys), ps[..i])
      {
        assert ps[..i + 1][..i] == ps[..i];
        pointers.keys := pointers.keys[ps[i].0 := Some(ps[i].1)];
      }
      assert ps[..|ps|] == ps;
    }

    /** Lines 177-187. */
    method AddFiles(adds: seq<(nat, FileMeta)>)
      requires Valid() && forall i :: 0 <= i < |adds| ==> adds[i].0 < NUM_LEVELS
      modifies this`levels, this`leaked, table
      ensures Valid() && Values(levels) == ApplyAdds(old(Values(levels)), adds)
      ensures |leaked| == |old(leaked)| + Refusals(old(Values(levels)), adds)
    {
      hide Held, Listed, Values, ApplyAdd, Refuses;
      ghost var start := Values(levels);
      for i := 0 to |adds|
        invariant Valid() && Values(levels) == ApplyAdds(start, adds[..i])
        invariant |leaked| == |old(leaked)| + Refusals(start, adds[..i])
      {
        assert adds[..i + 1][..i] == adds[..i];
        AddOne(adds[i].0, adds[i].1);
      }
      assert adds[..|adds|] == adds;
    }

    /** Lines 170-174. */
    method DeleteFiles(deleted: set<(nat, nat)>)
      requires Valid() && forall d :: d in deleted ==> d.0 < NUM_LEVELS
      modifies this`levels
      ensures Valid() && Values(levels) == ApplyDeletes(old(Values(levels)), deleted)
    {
      hide Held, Listed, Values, ApplyDeletes, FileTable.Valid;
      ghost var start := Values(levels);
      var rest := deleted;
      ghost var dropped: set<(nat, nat)> := {};
      DeleteNone(start, dropped);
      while rest != {}
        invariant Valid() && dropped + rest == deleted
        invariant Values(levels) == ApplyDeletes(start, dropped)
        decreases rest
      {
        var d :| d in rest;
        var st := levels[d.0].(deleted := levels[d.0].deleted + {d.1});
        DeleteOne(levels, start, dropped, d);
        HeldSame(levels, d.0, st);
        levels := levels[d.0 := st];
        rest, dropped := rest - {d}, dropped + {d};
      }
    }

    /** Push a file unless it is deleted; on levels above 0 it must not overlap its predecessor. */
    method MaybeAddFile(v: Version, level: nat, f: File)
      requires Valid() && v.Shaped() && level < NUM_LEVELS && f in table.holders && v != base
      modifies this`tripped, this`outside, table`refs, table`holders, v`files
      ensures Valid() && Grown(old(table.holders), table.holders)
      ensures Pushed(old(v.files), old(outside), old(tripped), v.files, outside, tripped, level,
                     Kept(levels[level].deleted, f))
    {
      if f.meta.number in levels[level].deleted {
        // file is deleted: do nothing
        PushedNone(v.files, outside, tripped, level);
      } else {
        PushedOne(v.files, outside, tripped, level, f);
        Push(v, level, f);
      }
    }

    method Push(v: Version, level: nat, f: File)
      requires Valid() && level < |v.files| && f in table.holders && v != base
      modifies this`tripped, this`outside, table`refs, table`holders, v`files
      ensures Valid() && Grown(old(table.holders), table.holders)
      ensures v.files == old(v.files)[level := old(v.files)[level] + [f]] && outside == old(outside) + multiset([f])
      ensures tripped == (old(tripped) || Overlaps(old(v.files), level, f))
    {
      hide *;
      Hand(f);
      tripped := tripped || Overlaps(v.files, level, f);
      v.files := v.files[level := v.files[level] + [f]];
    }

    /** f->refs++ on behalf of a version. */
    method Hand(f: File)
      requires Valid() && f in table.holders
      modifies this`outside, table`refs, table`holders
      ensures Valid() && Grown(old(table.holders), table.holders)
      ensures outside == old(outside) + multiset([f])
    {
      OneMore(table.holders, outside, Held(levels), leaked, multiset([f]));
      hide Held, Listed, Balanced;
      table.Retain(f);
      outside := outside + multiset([f]);
    }

    method Emit(v: Version, level: nat, f: File, ghost start: Saving, ghost todo: Files)
      requires Valid() && v != base && level < NUM_LEVELS && f in table.holders
      requires todo != [] && todo[0] == f.meta
      requires Progress(v.files, outside, tripped, levels[level].deleted, level, start, todo)
      modifies this`tripped, this`outside, table`refs, table`holders, v`files
      ensures Valid() && Grown(old(table.holders), table.holders)
      ensures Progress(v.files, outside, tripped, levels[level].deleted, level, start, todo[1..])
    {
      assert v.Shaped();
      hide *;
      MaybeAddFile(v, level, f);
      ProgressStep(old(v.files), old(outside), old(tripped), v.files, outside, tripped, levels[level].deleted, level,
                   start, todo, f);
    }

    /** for (; base_iter != bpos; ++base_iter) MaybeAddFile(v, level, *base_iter); */
    method EmitRange(v: Version, level: nat, fs: seq<File>, ghost start: Saving, ghost rest: Files)
      requires Valid() && v != base && level < NUM_LEVELS && AllIn(fs, table.holders)
      requires Progress(v.files, outside, tripped, levels[level].deleted, level, start, Metas(fs) + rest)
      modifies this`tripped, this`outside, table`refs, table`holders, v`files
      ensures Valid() && Grown(old(table.holders), table.holders)
      ensures Progress(v.files, outside, tripped, levels[level].deleted, level, start, rest)
    {
      hide Progress, Balanced, Held, Listed;
      assert Metas(fs) == Metas(fs[0..]);
      for i := 0 to |fs|
        invariant Valid() && Grown(old(table.holders), table.holders)
        invariant Progress(v.files, outside, tripped, levels[level].deleted, level, start, Metas(fs[i..]) + rest)
      {
        assert (Metas(fs[i..]) + rest)[1..] == Metas(fs[i + 1..]) + rest;
        Emit(v, level, fs[i], start, Metas(fs[i..]) + rest);
      }
      assert Metas(fs[|fs|..]) + rest == rest;
    }

    /** One level of SaveTo: lines 195-215. */
    method SaveLevelTo(v: Version, level: nat)
      requires Valid() && v != base && v.Shaped() && level < NUM_LEVELS && v.files[level] == []
      modifies this`tripped, this`outside, table`refs, table`holders, v`files
      ensures Valid()
      ensures LevelSaved(old(v.files), old(outside), old(tripped), v.files, outside, tripped, level,
                         Metas(base.files[level]), levels[level].Value())
    {
      ghost var total := SaveLevel(Metas(base.files[level]), levels[level].Value());
      ghost var start := Saving(v.files, outside, tripped, total);
      StartLevel(start, base.files[level], levels[level], level);
      HoldsAll(level);
      var baseFile, added := base.files[level], levels[level].added;
      assert baseFile[0..] == baseFile && added[0..] == added;
      hide *;
      MergeAll(v, level, baseFile, added, start);
      Saved(v.files, outside, tripped, levels[level].Value(), level, Metas(base.files[level]), start);
    }

    method MergeAll(v: Version, level: nat, baseFile: seq<File>, added: seq<File>, ghost start: Saving)
      requires Valid() && v != base && level < NUM_LEVELS && level < |levels|
      requires AllIn(baseFile, table.holders) && AllIn(added, table.holders)
      requires Progress(v.files, outside, tripped, levels[level].deleted, level, start,
                        Merge(Metas(baseFile[0..]), Metas(added[0..])))
      modifies this`tripped, this`outside, table`refs, table`holders, v`files
      ensures Valid()
      ensures Progress(v.files, outside, tripped, levels[level].deleted, level, start, [])
    {
      hide *;
      var b: nat := 0;
      for i := 0 to |added|
        invariant Valid() && b <= |baseFile| && AllIn(baseFile, table.holders) && AllIn(added, table.holders)
        invariant Progress(v.files, outside, tripped, levels[level].deleted, level, start,
                           Merge(Metas(baseFile[b..]), Metas(added[i..])))
      {
        b := MergeTurn(v, level, baseFile, added, b, i, start);
      }
      RangeIn(baseFile, b, |baseFile|, table.holders);
      assert baseFile[b..|baseFile|] == baseFile[b..];
      EmitRest(v, level, baseFile[b..], added[|added|..], start);
    }

    /** for (; base_iter != base_end; ++base_iter) MaybeAddFile(v, level, *base_iter); */
    method EmitRest(v: Version, level: nat, rest: seq<File>, added: seq<File>, ghost start: Saving)
      requires Valid() && v != base && level < NUM_LEVELS && AllIn(rest, table.holders) && added == []
      requires Progress(v.files, outside, tripped, levels[level].deleted, level, start,
                        Merge(Metas(rest), Metas(added)))
      modifies this`tripped, this`outside, table`refs, table`holders, v`files
      ensures Valid()
      ensures Progress(v.files, outside, tripped, levels[level].deleted, level, start, [])
    {
      MergeNone(rest, added);
      hide *;
      EmitRange(v, level, rest, start, []);
    }

    /** One iteration of the loop over the added files: the smaller base files, then the added file. */
    method MergeTurn(v: Version, level: nat, baseFile: seq<File>, added: seq<File>, b: nat, i: nat, ghost start: Saving)
      returns (bpos: nat)
      requires Valid() && v != base && level < NUM_LEVELS && b <= |baseFile| && i < |added|
      requires AllIn(baseFile, table.holders) && AllIn(added, table.holders)
      requires Progress(v.files, outside, tripped, levels[level].deleted, level, start,
                        Merge(Metas(baseFile[b..]), Metas(added[i..])))
      modifies this`tripped, this`outside, table`refs, table`holders, v`files
      ensures Valid() && bpos <= |baseFile| && AllIn(baseFile, table.holders) && AllIn(added, table.holders)
      ensures Progress(v.files, outside, tripped, levels[level].deleted, level, start,
                       Merge(Metas(baseFile[bpos..]), Metas(added[i + 1..])))
    {
      bpos := b + UpperBound(Metas(baseFile[b..]), added[i].meta);
      MergeStep(baseFile, added, b, i);
      RangeIn(baseFile, b, bpos, table.holders);
      ghost var after := Merge(Metas(baseFile[bpos..]), Metas(added[i + 1..]));
      assert ([added[i].meta] + after)[1..] == after;
      hide Progress, Merge, Metas, UpperBound, Valid;
      EmitRange(v, level, baseFile[b..bpos], start, [added[i].meta] + after);
      Emit(v, level, added[i], start, [added[i].meta] + after);
    }

    /** Save the current state in *v. */
    method SaveTo(v: Version)
      requires Valid() && v != base && v.files == [[], [], [], [], [], [], []]
      modifies this`tripped, this`outside, table`refs, table`holders, v`files
      ensures Valid()
      ensures AllSaved(old(outside), old(tripped), v.files, outside, tripped, NUM_LEVELS, base.Value(), Values(levels))
    {
      NoneSaved(v.files, outside, tripped, base.Value(), Values(levels));
      SaveLevels(v, base.Value(), Values(levels));
    }

    method SaveLevels(v: Version, ghost before: Levels, ghost p: Pending)
      requires Valid() && v != base && LevelsAre(base.files, before, levels, p)
      requires AllSaved(outside, tripped, v.files, outside, tripped, 0, before, p)
      modifies this`tripped, this`outside, table`refs, table`holders, v`files
      ensures Valid() && AllSaved(old(outside), old(tripped), v.files, outside, tripped, NUM_LEVELS, before, p)
    {
      hide *;
      for level := 0 to NUM_LEVELS
        invariant Valid() && AllSaved(old(outside), old(tripped), v.files, outside, tripped, level, before, p)
      {
        SaveNext(v, level, old(outside), old(tripped), before, p);
      }
    }

    method SaveNext(v: Version, level: nat, ghost outside0: multiset<File>, ghost tripped0: bool,
                    ghost before: Levels, ghost p: Pending)
      requires Valid() && v != base && level < NUM_LEVELS && LevelsAre(base.files, before, levels, p)
      requires AllSaved(outside0, tripped0, v.files, outside, tripped, level, before, p)
      modifies this`tripped, this`outside, table`refs, table`holders, v`files
      ensures Valid() && AllSaved(outside0, tripped0, v.files, outside, tripped, level + 1, before, p)
    {
      hide SaveLevel, AdjacentDisjoint, Metas, LevelSaved, Valid, Listed, Held, Values;
      SaveLevelTo(v, level);
      AllSavedStep(outside0, tripped0, old(v.files), old(outside), old(tripped), v.files, outside, tripped, level,
                   before, p);
    }

    /** ~Builder: the added files lose the reference of the builder; those that no version took die. */
    method Destroy()
      requires Valid()
      modifies table`refs, table`holders, base`refs
      ensures table.Valid() && table.holders == outside + leaked && base.refs == old(base.refs) - 1
    {
      assert levels[0..] == levels;
      ReleaseLevels();
      base.refs := base.refs - 1;
    }

    method ReleaseLevels()
      requires table.Valid() && Balanced(table.holders, outside, Held(levels[0..]), leaked)
      modifies table`refs, table`holders
      ensures table.Valid() && table.holders == outside + leaked
    {
      hide table.Valid;
      for level := 0 to |levels|
        invariant table.Valid() && Balanced(table.holders, outside, Held(levels[level..]), leaked)
      {
        assert levels[level..][1..] == levels[level + 1..];
        table.ReleaseAll(levels[level].added);
      }
    }

    lemma HoldsAll(level: nat)
      requires Valid() && level < NUM_LEVELS
      ensures AllIn(base.files[level], table.holders) && AllIn(levels[level].added, table.holders)
    {
      ListedUpdate(base.files, level, []);
      HeldUpdate(levels, level, levels[level]);
      forall i | 0 <= i < |base.files[level]| ensures base.files[level][i] in table.holders {
        assert base.files[level][i] in multiset(base.files[level]);
      }
      forall i | 0 <= i < |levels[level].added| ensures levels[level].added[i] in table.holders {
        assert levels[level].added[i] in multiset(levels[level].added);
      }
    }
  }

  /** How far the saving of one level has come: `todo` is what is still to be pushed. */
  ghost predicate Progress(files: seq<seq<File>>, outside: multiset<File>, tripped: bool, deleted: set<nat>,
                           level: nat, start: Saving, todo: Files)
  {
    && |files| == |start.files| == NUM_LEVELS && level < NUM_LEVELS
    && files == start.files[level := files[level]]
    && Metas(files[level]) + Keep(todo, deleted) == start.total
    && outside == start.outside + multiset(files[level])
    && tripped == (start.tripped || (level > 0 && !AdjacentDisjoint(Metas(files[level]))))
  }

  /** What pushing at most one file does. */
  ghost predicate Pushed(files: seq<seq<File>>, outside: multiset<File>, tripped: bool,
                         files': seq<seq<File>>, outside': multiset<File>, tripped': bool, level: nat, kept: seq<File>)
  {
    && |files| == NUM_LEVELS && level < NUM_LEVELS
    && files' == files[level := files[level] + kept]
    && outside' == outside + multiset(kept)
    && tripped' == (tripped || (level > 0 && Collides(files[level], kept)))
  }

  lemma PushedNone(files: seq<seq<File>>, outside: multiset<File>, tripped: bool, level: nat)
    requires |files| == NUM_LEVELS && level < NUM_LEVELS
    ensures Pushed(files, outside, tripped, files, outside, tripped, level, [])
  {
    assert files[level] + [] == files[level];
  }

  lemma PushedOne(files: seq<seq<File>>, outside: multiset<File>, tripped: bool, level: nat, f: File)
    requires |files| == NUM_LEVELS && level < NUM_LEVELS
    ensures Pushed(files, outside, tripped, files[level := files[level] + [f]], outside + multiset([f]),
                   tripped || Overlaps(files, level, f), level, [f])
  {
  }

  lemma ProgressStep(files: seq<seq<File>>, outside: multiset<File>, tripped: bool,
                     files': seq<seq<File>>, outside': multiset<File>, tripped': bool,
                     deleted: set<nat>, level: nat, start: Saving, todo: Files, f: File)
    requires Progress(files, outside, tripped, deleted, level, start, todo) && todo != [] && todo[0] == f.meta
    requires Pushed(files, outside, tripped, files', outside', tripped', level, Kept(deleted, f))
    ensures Progress(files', outside', tripped', deleted, level, start, todo[1..])
  {
    EmitStep(files[level], f, deleted, todo);
    hide Keep, AdjacentDisjoint, Collides;
  }

  /** What saving one level does: the level gets the merged files, everybody else keeps theirs. */
  ghost predicate LevelSaved(files: seq<seq<File>>, outside: multiset<File>, tripped: bool,
                             files': seq<seq<File>>, outside': multiset<File>, tripped': bool,
                             level: nat, base: Files, st: LevelState)
  {
    && |files| == |files'| == NUM_LEVELS && level < NUM_LEVELS
    && files' == files[level := files'[level]]
    && Metas(files'[level]) == SaveLevel(base, st)
    && outside' == outside + multiset(files'[level])
    && tripped' == (tripped || (level > 0 && !AdjacentDisjoint(SaveLevel(base, st))))
  }

  lemma Saved(files: seq<seq<File>>, outside: multiset<File>, tripped: bool, st: LevelState, level: nat,
              base: Files, start: Saving)
    requires Progress(files, outside, tripped, st.deleted, level, start, [])
    requires start.total == SaveLevel(base, st)
    ensures LevelSaved(start.files, start.outside, start.tripped, files, outside, tripped, level, base, st)
  {
  }

  ghost predicate LevelsAre(files: seq<seq<File>>, before: Levels, levels: seq<HeldLevel>, p: Pending) {
    && |files| == |levels| == NUM_LEVELS
    && forall l :: 0 <= l < NUM_LEVELS ==> before[l] == Metas(files[l]) && p[l] == levels[l].Value()
  }

  /** The first n levels are saved; the references outside have grown by those of the new version;
      an assertion has failed if it had before or if some saved level above 0 has an overlap. */
  ghost predicate AllSaved(outside: multiset<File>, tripped: bool, files': seq<seq<File>>, outside': multiset<File>,
                           tripped': bool, n: nat, base: Levels, p: Pending)
  {
    && |files'| == NUM_LEVELS && n <= NUM_LEVELS
    && (forall l :: 0 <= l < n ==> Metas(files'[l]) == SaveLevel(base[l], p[l]))
    && (forall l :: n <= l < NUM_LEVELS ==> files'[l] == [])
    && outside' == outside + Listed(files')
    && tripped' == (tripped || exists l :: 0 < l < n && !AdjacentDisjoint(SaveLevel(base[l], p[l])))
  }

  lemma {:induction false} NoneListed(files: seq<seq<File>>)
    requires forall l :: 0 <= l < |files| ==> files[l] == []
    ensures Listed(files) == multiset{}
  {
    if files != [] { NoneListed(files[1..]); }
  }

  lemma NoneSaved(files: seq<seq<File>>, outside: multiset<File>, tripped: bool, base: Levels, p: Pending)
    requires files == [[], [], [], [], [], [], []]
    ensures AllSaved(outside, tripped, files, outside, tripped, 0, base, p)
  {
    NoneListed(files);
  }

  lemma AllSavedStep(outside: multiset<File>, tripped: bool, files': seq<seq<File>>, outside': multiset<File>,
                     tripped': bool,
                     files'': seq<seq<File>>, outside'': multiset<File>, tripped'': bool, n: nat, base: Levels,
                     p: Pending)
    requires n < NUM_LEVELS && AllSaved(outside, tripped, files', outside', tripped', n, base, p)
    requires LevelSaved(files', outside', tripped', files'', outside'', tripped'', n, base[n], p[n])
    ensures AllSaved(outside, tripped, files'', outside'', tripped'', n + 1, base, p)
  {
    hide SaveLevel, AdjacentDisjoint, Metas;
    ListedUpdate(files', n, files''[n]);
  }

  /** Saving all levels gives the version that the specification gives. */
  lemma AllSavedValue(outside: multiset<File>, tripped: bool, files: seq<seq<File>>, outside': multiset<File>,
                      tripped': bool,
                      base: Levels, p: Pending)
    requires AllSaved(outside, tripped, files, outside', tripped', NUM_LEVELS, base, p)
    ensures |files| == NUM_LEVELS && LevelsOf(files) == Save(base, p)
    ensures outside' == outside + Listed(files)
    ensures tripped' == (tripped || exists l :: 0 < l < NUM_LEVELS && !AdjacentDisjoint(Save(base, p)[l]))
  {
    hide SaveLevel, AdjacentDisjoint, Metas;
    assert forall l :: 0 <= l < NUM_LEVELS ==>
             LevelsOf(files)[l] == Save(base, p)[l] && Save(base, p)[l] == SaveLevel(base[l], p[l]);
  }

  lemma StartLevel(start: Saving, base: seq<File>, st: HeldLevel, level: nat)
    requires |start.files| == NUM_LEVELS && level < NUM_LEVELS && start.files[level] == []
    requires start.total == SaveLevel(Metas(base), st.Value())
    ensures Progress(start.files, start.outside, start.tripped, st.deleted, level, start,
                     Merge(Metas(base), Metas(st.added)))
  {
  }

  lemma {:induction false} MergeStep(base: seq<File>, added: seq<File>, b: nat, i: nat)
    requires b <= |base| && i < |added|
    ensures var bpos := b + UpperBound(Metas(base[b..]), added[i].meta);
            && bpos <= |base|
            && Merge(Metas(base[b..]), Metas(added[i..])) ==
                 Metas(base[b..bpos]) + ([added[i].meta] + Merge(Metas(base[bpos..]), Metas(added[i + 1..])))
  {
    hide Merge, Metas, Before;
    var m, a := Metas(base[b..]), Metas(added[i..]);
    MetasHead(added, i);
    MetasLength(base, b);
    var k := UpperBound(m, added[i].meta);
    MetasSlice(base, b, k);
    MergeStart(m, a);
    assert m[..k] + [a[0]] + Merge(m[k..], a[1..]) == m[..k] + ([a[0]] + Merge(m[k..], a[1..]));
  }

  lemma MetasHead(fs: seq<File>, i: nat)
    requires i < |fs|
    ensures Metas(fs[i..]) != [] && Metas(fs[i..])[0] == fs[i].meta && Metas(fs[i..])[1..] == Metas(fs[i + 1..])
  {
  }

  lemma MetasLength(fs: seq<File>, b: nat)
    requires b <= |fs|
    ensures |Metas(fs[b..])| == |fs| - b
  {
  }

  lemma MetasSlice(fs: seq<File>, b: nat, k: nat)
    requires b + k <= |fs|
    ensures Metas(fs[b..])[..k] == Metas(fs[b..b + k]) && Metas(fs[b..])[k..] == Metas(fs[b + k..])
  {
  }

  lemma {:induction false} MergeStart(m: Files, a: Files)
    requires a != []
    ensures Merge(m, a) == m[..UpperBound(m, a[0])] + [a[0]] + Merge(m[UpperBound(m, a[0])..], a[1..])
  {
  }

  lemma {:induction false} MergeNone(base: seq<File>, added: seq<File>)
    requires added == []
    ensures Merge(Metas(base), Metas(added)) == Metas(base) + []
  {
  }

  /** The state in which the saving of a level starts, and the level that it has to produce. */
  datatype Saving = Saving(files: seq<seq<File>>, outside: multiset<File>, tripped: bool, total: Files)

  lemma {:induction false} EmitStep(out: seq<File>, f: File, deleted: set<nat>, todo: Files)
    requires todo != [] && todo[0] == f.meta
    ensures var kept := Kept(deleted, f);
            && Metas(out + kept) + Keep(todo[1..], deleted) == Metas(out) + Keep(todo, deleted)
            && (AdjacentDisjoint(Metas(out + kept)) <==> AdjacentDisjoint(Metas(out)) && !Collides(out, kept))
            && multiset(out + kept) == multiset(out) + multiset(kept)
  {
    if f.meta.number in deleted {
      assert out + [] == out;
    } else {
      assert Keep(todo, deleted) == [f.meta] + Keep(todo[1..], deleted);
      assert Metas(out + [f]) == Metas(out) + [f.meta];
      var m, n := Metas(out), Metas(out + [f]);
      assert forall i :: 0 <= i < |m| ==> n[i] == m[i];
      assert Collides(out, [f]) <==> m != [] && !(Compare(n[|m| - 1].largest, n[|m|].smallest) < 0);
    }
  }

  function Kept(deleted: set<nat>, f: File): seq<File> {
    if f.meta.number in deleted then [] else [f]
  }

  function Overlaps(files: seq<seq<File>>, level: nat, f: File): bool
    requires level < |files|
  {
    level > 0 && files[level] != [] && Compare(files[level][|files[level]| - 1].meta.largest, f.meta.smallest) >= 0
  }

  /** The assertion of MaybeAddFile fails for the next file, if there is one. */
  predicate Collides(files: seq<File>, next: seq<File>) {
    files != [] && next != [] && Compare(files[|files| - 1].meta.largest, next[0].meta.smallest) >= 0
  }

  lemma HeldSame(levels: seq<HeldLevel>, l: nat, st: HeldLevel)
    requires l < |levels| && st.added == levels[l].added
    ensures Held(levels[l := st]) == Held(levels)
  {
    HeldUpdate(levels, l, st);
  }

  ghost predicate Grown(before: multiset<File>, after: multiset<File>) {
    forall f :: f in before ==> f in after
  }

  lemma RangeIn(fs: seq<File>, lo: nat, hi: nat, holders: multiset<File>)
    requires lo <= hi <= |fs| && AllIn(fs, holders)
    ensures AllIn(fs[lo..hi], holders)
  {
  }

  ghost predicate AllIn(fs: seq<File>, holders: multiset<File>) {
    forall i :: 0 <= i < |fs| ==> fs[i] in holders
  }

  /** All references are accounted for. */
  ghost predicate Balanced(holders: multiset<File>, outside: multiset<File>, held: multiset<File>,
                           leaked: multiset<File>) {
    holders == outside + held + leaked
  }

  /** Whoever gets a reference, the balance is kept. */
  lemma OneMore(holders: multiset<File>, outside: multiset<File>, held: multiset<File>, leaked: multiset<File>,
                f: multiset<File>)
    requires Balanced(holders, outside, held, leaked)
    ensures Balanced(holders + f, outside, held + f, leaked)
    ensures Balanced(holders + f, outside, held, leaked + f)
    ensures Balanced(holders + f, outside + f, held, leaked)
    ensures Grown(holders, holders + f) && outside <= outside + f
  {
  }

  lemma TakeOne(start: multiset<File>, fs: seq<File>, i: nat)
    requires i < |fs| && multiset(fs) <= start
    ensures fs[i] in start - multiset(fs[..i])
    ensures start - multiset(fs[..i]) - multiset{fs[i]} == start - multiset(fs[..i + 1])
  {
    assert fs[..i + 1] == fs[..i] + [fs[i]] && fs == fs[..i] + [fs[i]] + fs[i + 1..];
    assert multiset(fs) == multiset(fs[..i]) + multiset{fs[i]} + multiset(fs[i + 1..]);
  }

  lemma OneLess(holders: multiset<File>, outside: multiset<File>, held: multiset<File>, leaked: multiset<File>,
                f: multiset<File>)
    requires Balanced(holders, outside, held, leaked + f)
    ensures Balanced(holders, outside, held + f, leaked)
  {
  }

  lemma DeleteNone(start: Pending, deleted: set<(nat, nat)>)
    requires deleted == {}
    ensures ApplyDeletes(start, deleted) == start
  {
    forall l | 0 <= l < NUM_LEVELS ensures ApplyDeletes(start, deleted)[l] == start[l] {
      assert DeletedAt(deleted, l) == {} && start[l].deleted + {} == start[l].deleted;
    }
  }

  lemma DeleteOne(levels: seq<HeldLevel>, start: Pending, deleted: set<(nat, nat)>, d: (nat, nat))
    requires |levels| == NUM_LEVELS && d.0 < NUM_LEVELS && Values(levels) == ApplyDeletes(start, deleted)
    ensures Values(levels[d.0 := levels[d.0].(deleted := levels[d.0].deleted + {d.1})]) ==
            ApplyDeletes(start, deleted + {d})
  {
    var levels' := levels[d.0 := levels[d.0].(deleted := levels[d.0].deleted + {d.1})];
    forall l | 0 <= l < NUM_LEVELS ensures Values(levels')[l] == ApplyDeletes(start, deleted + {d})[l] {
      assert Values(levels)[l] == ApplyDeletes(start, deleted)[l];
      assert DeletedAt(deleted + {d}, l) == DeletedAt(deleted, l) + (if l == d.0 then {d.1} else {}) by {
        assert l == d.0 ==> d in deleted + {d} && d.1 in DeletedAt(deleted + {d}, l);
      }
    }
  }

  // ---------------------------------------------------------------- files that nobody frees

  /** No two additions of an edit to the same level are equivalent. */
  ghost predicate NoRepeats(adds: seq<(nat, FileMeta)>) {
    forall i, j :: 0 <= i < j < |adds| && adds[i].0 == adds[j].0 ==> !Equivalent(adds[i].1, adds[j].1)
  }

  predicate Equivalent(f: FileMeta, g: FileMeta) {
    f.smallest == g.smallest && f.number == g.number
  }

  ghost predicate HasEquivalent(added: Files, f: FileMeta) {
    exists i :: 0 <= i < |added| && Equivalent(added[i], f)
  }

  ghost predicate AddsEquivalent(adds: seq<(nat, FileMeta)>, level: nat, f: FileMeta) {
    exists i :: 0 <= i < |adds| && adds[i].0 == level && Equivalent(adds[i].1, f)
  }

  lemma LastEquivalent(added: Files, f: FileMeta, i: nat)
    requires Strict(added) && i < |added| && Equivalent(added[i], f)
    ensures UpperBound(added, f) == i + 1
  {
    UpperBoundSplits(added, f);
    var k := UpperBound(added, f);
    assert forall j :: i < j < |added| ==> Before(added[i], added[j]) && Before(f, added[j]);
  }

  lemma RefusesEquivalent(added: Files, f: FileMeta)
    requires Strict(added)
    ensures Refuses(added, f) <==> HasEquivalent(added, f)
  {
    UpperBoundSplits(added, f);
    var k := UpperBound(added, f);
    forall g ensures Equivalent(g, f) <==> !Before(g, f) && !Before(f, g) {}
    if Refuses(added, f) { assert Equivalent(added[k - 1], f); }
    if i :| 0 <= i < |added| && Equivalent(added[i], f) {
      LastEquivalent(added, f, i);
    }
  }

  lemma {:induction false} AddedEquivalents(p: Pending, adds: seq<(nat, FileMeta)>, level: nat)
    requires level < NUM_LEVELS && p[level].added == []
    requires forall i :: 0 <= i < |adds| ==> adds[i].0 < NUM_LEVELS
    ensures Strict(ApplyAdds(p, adds)[level].added)
    ensures forall f :: HasEquivalent(ApplyAdds(p, adds)[level].added, f) <==> AddsEquivalent(adds, level, f)
  {
    if adds != [] {
      var n := |adds| - 1;
      var init, f := adds[..n], adds[n].1;
      AddedEquivalents(p, init, level);
      var added := ApplyAdds(p, init)[level].added;
      if adds[n].0 == level {
        InsertFileStrict(added, f);
        RefusesEquivalent(added, f);
        forall g ensures HasEquivalent(InsertFile(added, f), g) <==> HasEquivalent(added, g) || Equivalent(f, g) {
          InsertEquivalent(added, f, g);
        }
      }
      forall g ensures AddsEquivalent(adds, level, g) <==>
          AddsEquivalent(init, level, g) || (adds[n].0 == level && Equivalent(f, g))
      {
      }
    }
  }

  lemma InsertEquivalent(added: Files, f: FileMeta, g: FileMeta)
    requires Refuses(added, f) <==> HasEquivalent(added, f)
    ensures HasEquivalent(InsertFile(added, f), g) <==> HasEquivalent(added, g) || Equivalent(f, g)
  {
    var k, out := UpperBound(added, f), InsertFile(added, f);
    if !Refuses(added, f) {
      if i :| 0 <= i < |added| && Equivalent(added[i], g) {
        assert Equivalent(out[if i < k then i else i + 1], g);
      }
      assert out[k] == f;
    }
  }

  /** Every object is freed again unless the edit adds equivalent files to one level twice: the
      builder then drops its only pointer to the second object. */
  lemma {:induction false} LeakExact(p: Pending, adds: seq<(nat, FileMeta)>)
    requires forall i :: 0 <= i < |adds| ==> adds[i].0 < NUM_LEVELS
    requires forall l :: 0 <= l < NUM_LEVELS ==> p[l].added == []
    ensures Refusals(p, adds) == 0 <==> NoRepeats(adds)
  {
    if adds != [] {
      var n := |adds| - 1;
      var init, l, f := adds[..n], adds[n].0, adds[n].1;
      LeakExact(p, init);
      AddedEquivalents(p, init, l);
      RefusesEquivalent(ApplyAdds(p, init)[l].added, f);
      OneMoreAddition(adds);
      hide *;
    }
  }

  lemma OneMoreAddition(adds: seq<(nat, FileMeta)>)
    requires adds != []
    ensures var n := |adds| - 1;
            NoRepeats(adds) <==> NoRepeats(adds[..n]) && !AddsEquivalent(adds[..n], adds[n].0, adds[n].1)
  {
  }

  lemma NothingAdded(deleted: set<(nat, nat)>)
    ensures forall l :: 0 <= l < NUM_LEVELS ==> ApplyDeletes(NOTHING, deleted)[l].added == []
  {
  }

  /** Lines 319-324 of LogAndApply: the references afterwards are the ones before, plus one for
      every listing of a file in the new version. */
  method BuildVersion(table: FileTable, current: Version, pointers: CompactPointers, edit: VersionEdit)
    returns (v: Version, tripped: bool, ghost leaked: multiset<File>)
    requires table.Valid() && current.Shaped() && current.refs > 0 && Listed(current.files) <= table.holders
    requires |pointers.keys| == NUM_LEVELS && edit.Record().LevelsOk()
    modifies table, pointers, current`refs
    ensures fresh(v) && v.Shaped() && v.refs == 0 && v.next == v.prev == v
    ensures v.Value() == Next(current.Value(), edit.Record())
    ensures table.Valid() && table.holders == old(table.holders) + Listed(v.files) + leaked
    ensures leaked == multiset{} <==> NoRepeats(edit.Record().added)
    ensures tripped <==> exists l :: 0 < l < NUM_LEVELS && !AdjacentDisjoint(v.Value()[l])
    ensures pointers.keys == ApplyPointers(old(pointers.keys), edit.Record().compactPointers)
    ensures current.refs == old(current.refs)
  {
    hide *;
    v := new Version();
    var builder := new Builder(table, current, pointers);
    tripped, leaked := RunBuilder(builder, v, edit, table.holders);
    builder.Destroy();
  }

  /** Apply the edit and save; nothing is lost exactly if the edit does not repeat itself. */
  method RunBuilder(builder: Builder, v: Version, edit: VersionEdit, ghost before: multiset<File>)
    returns (tripped: bool, ghost leaked: multiset<File>)
    requires builder.Valid() && v != builder.base && v.files == [[], [], [], [], [], [], []] && edit.Record().LevelsOk()
    requires Values(builder.levels) == NOTHING && builder.leaked == multiset{} && !builder.tripped
    requires builder.outside == before
    modifies builder, builder.table, builder.pointers, v`files
    ensures builder.Valid() && builder.base.Shaped() && v.Shaped()
    ensures v.Value() == Next(builder.base.Value(), edit.Record())
    ensures builder.outside == before + Listed(v.files) && builder.leaked == leaked && builder.tripped == tripped
    ensures leaked == multiset{} <==> NoRepeats(edit.Record().added)
    ensures tripped <==> exists l :: 0 < l < NUM_LEVELS && !AdjacentDisjoint(v.Value()[l])
    ensures builder.pointers.keys == ApplyPointers(old(builder.pointers.keys), edit.Record().compactPointers)
  {
    hide Held, Listed, ApplyAdds, Refusals, AdjacentDisjoint, NoRepeats, AllSaved, Values, Metas, SaveLevel,
      builder.table.Valid, ApplyDeletes;
    builder.Apply(edit);
    builder.SaveTo(v);
    tripped, leaked := builder.tripped, builder.leaked;
    AllSavedValue(before, false, v.files, builder.outside, tripped, builder.base.Value(),
                  ApplyEdit(NOTHING, edit.Record()));
    NothingAdded(edit.Record().deleted);
    LeakExact(ApplyDeletes(NOTHING, edit.Record().deleted), edit.Record().added);
  }
}
