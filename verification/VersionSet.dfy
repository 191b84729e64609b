/** VersionSet (leveldb/db/version_set.h:89-139, version_set.cc:235-384): the list of live versions
    and the imperative form of `ManifestSpec.LogAndApplyOn`. */
module VersionSets {
  import opened DbFormat
  import opened VersionEdits
  import opened BuilderSpec
  import opened VersionBuilders
  import opened ManifestSpec

  // ---------------------------------------------------------------- the circular list of versions

  function Follower(ring: seq<Version>, i: nat): Version
    requires i < |ring|
  {
    if i + 1 < |ring| then ring[i + 1] else ring[0]
  }

  /** A circular doubly-linked list through the given versions, in this order. */
  ghost predicate Circular(ring: seq<Version>)
    reads ring`next, ring`prev
  {
    && (forall i, j :: 0 <= i < j < |ring| ==> ring[i] != ring[j])
    && (forall i :: 0 <= i < |ring| ==> ring[i].next == Follower(ring, i) && Follower(ring, i).prev == ring[i])
  }

  /** The references that versions hold, one for every listing. */
  ghost function AllListed(vs: seq<Version>): multiset<File>
    reads vs`files
  {
    if vs == [] then multiset{} else AllListed(vs[..|vs| - 1]) + Listed(vs[|vs| - 1].files)
  }

  /** Lines 245-249: link v in before the head of the list. */
  method LinkLast(head: Version, v: Version, ghost ring: seq<Version>)
    requires Circular(ring) && ring != [] && ring[0] == head && v !in ring
    modifies v`next, v`prev, ring`next, ring`prev
    ensures Circular(ring + [v])
  {
    ghost var last := ring[|ring| - 1];
    assert Follower(ring, |ring| - 1) == head && head.prev == last;
    v.prev := head.prev;
    v.next := head;
    v.prev.next := v;
    v.next.prev := v;
    ghost var ring' := ring + [v];
    forall i | 0 <= i < |ring'| ensures ring'[i].next == Follower(ring', i) && Follower(ring', i).prev == ring'[i] {
      if i < |ring| - 1 {
        assert Follower(ring, i) == Follower(ring', i) == ring[i + 1];
      }
    }
  }

  /** ~Version: take v out of the list. */
  method Unlink(v: Version, ghost ring: seq<Version>, ghost i: nat)
    requires Circular(ring) && 0 < i < |ring| && ring[i] == v
    modifies ring`next, ring`prev
    ensures Circular(Without(ring, i))
  {
    ghost var before, after := ring[i - 1], Follower(ring, i);
    assert Follower(ring, i - 1) == v && v.prev == before && v.next == after;
    v.prev.next := v.next;
    v.next.prev := v.prev;
    ghost var ring' := Without(ring, i);
    forall k | 0 <= k < |ring'| ensures ring'[k].next == Follower(ring', k) && Follower(ring', k).prev == ring'[k] {
      if k != i - 1 {
        var j := if k < i then k else k + 1;
        assert ring'[k] == ring[j] && Follower(ring', k) == Follower(ring, j);
      } else {
        assert Follower(ring', k) == after;
      }
    }
  }

  ghost predicate Referenced(vs: seq<Version>)
    reads vs`refs, vs`files
  {
    forall i :: 0 <= i < |vs| ==> vs[i].Shaped() && vs[i].refs > 0
  }

  function Without<T>(s: seq<T>, i: nat): seq<T>
    requires i < |s|
  {
    s[..i] + s[i + 1..]
  }

  lemma {:induction false} AllListedWithout(vs: seq<Version>, i: nat)
    requires i < |vs|
    ensures AllListed(vs) == AllListed(Without(vs, i)) + Listed(vs[i].files)
  {
    var n := |vs| - 1;
    if i < n {
      AllListedWithout(vs[..n], i);
      var rest := Without(vs, i);
      assert Without(vs[..n], i) == rest[..|rest| - 1] && rest[|rest| - 1] == vs[n];
      hide Listed, Without;
    } else {
      assert Without(vs, i) == vs[..n];
    }
  }

  lemma TakeAway(all: multiset<File>, a: multiset<File>, b: multiset<File>, c: multiset<File>)
    requires all == a + b + c
    ensures b <= all && all - b == a + c
  {
  }

  /** What a Get of another thread does to the list while it has the mutex: it takes a reference to the
      current version, or gives back one to the version at this place of the list. */
  datatype Visit = Take | GiveBack(place: nat)

  class VersionSet {
    const dbname: string
    const comparator: string
    const env: FileNames.Env
    const table: FileTable
    const compactPointer: CompactPointers
    const dummyVersions: Version  // head of the circular list
    var nextFileNumber: nat
    var manifestFileNumber: nat
    var lastSequence: nat
    var logNumber: nat
    var prevLogNumber: nat
    var descriptorFile: Option<string>
    var current: Version?
    ghost var live: seq<Version>       // the list after its head
    ghost var leaked: multiset<File>   // references of objects that builders have lost

    /** The list is well formed and all its versions are referenced. */
    ghost predicate Ringed()
      reads this`live, dummyVersions`next, dummyVersions`prev, live`next, live`prev, live`refs, live`files
    {
      Circular([dummyVersions] + live) && Referenced(live)
    }

    /** ... and the current version is the one before the head. */
    ghost predicate ListValid()
      reads this`live, this`current, dummyVersions, live
    {
      && Ringed()
      && current == (if live == [] then null else live[|live| - 1])
    }

    /** current_ == dummy_versions_.prev_, and following next_ from the head visits the live versions in order. */
    lemma CurrentIsLast()
      requires ListValid() && current != null
      ensures dummyVersions.prev == current && current.next == dummyVersions
      ensures dummyVersions.next == live[0] && forall i :: 0 <= i < |live| - 1 ==> live[i].next == live[i + 1]
    {
      var ring := [dummyVersions] + live;
      assert Follower(ring, |live|) == dummyVersions && ring[|live|] == current;
      assert Follower(ring, 0) == live[0];
      forall i | 0 <= i < |live| - 1 ensures live[i].next == live[i + 1] {
        assert ring[i + 1] == live[i] && Follower(ring, i + 1) == live[i + 1];
      }
    }

    /** Each file object has one reference for every listing in a live version. */
    ghost predicate RefsValid()
      reads this`live, this`leaked, live`files, table
    {
      RefsWith(leaked)
    }

    /** ... when somebody else holds `extra`. */
    ghost predicate RefsWith(extra: multiset<File>)
      reads this`live, live`files, table
    {
      table.Valid() && table.holders == AllListed(live) + extra
    }

    constructor (dbname: string, comparator: string, env: FileNames.Env, table: FileTable, nextFile: nat, manifest: nat)
      requires table.Valid() && table.holders == multiset{}
      ensures ListValid() && RefsValid() && current == null && fresh(dummyVersions) && fresh(compactPointer)
      ensures this.dbname == dbname && this.comparator == comparator && this.env == env && this.table == table
      ensures nextFileNumber == nextFile && manifestFileNumber == manifest && descriptorFile == None
      ensures lastSequence == logNumber == prevLogNumber == 0
    {
      this.dbname, this.comparator, this.env, this.table := dbname, comparator, env, table;
      nextFileNumber, manifestFileNumber := nextFile, manifest;
      lastSequence, logNumber, prevLogNumber, descriptorFile := 0, 0, 0, None;
      compactPointer := new CompactPointers();
      dummyVersions := new Version();
      current, live, leaked := null, [], multiset{};
    }

    /** ~Version: out of the list, and one reference less for every file. */
    method Delete(v: Version, ghost i: nat, ghost extra: multiset<File>)
      requires Circular([dummyVersions] + live) && RefsWith(extra) && i < |live| && live[i] == v
      modifies this`live, live`next, live`prev, dummyVersions`next, dummyVersions`prev, table`refs, table`holders
      ensures live == Without(old(live), i)
      ensures Circular([dummyVersions] + live) && RefsWith(extra)
    {
      hide Circular, Listed;
      AllListedWithout(live, i);
      ghost var rest := AllListed(Without(live, i));
      TakeAway(table.holders, rest, Listed(v.files), extra);
      assert Without([dummyVersions] + live, i + 1) == [dummyVersions] + Without(live, i);
      Remove(v, i, rest, extra);
    }

    method Remove(v: Version, ghost i: nat, ghost rest: multiset<File>, ghost extra: multiset<File>)
      requires Circular([dummyVersions] + live) && i < |live| && live[i] == v
      requires Without([dummyVersions] + live, i + 1) == [dummyVersions] + Without(live, i)
      requires table.Valid() && Listed(v.files) <= table.holders
      requires AllListed(Without(live, i)) == rest && table.holders - Listed(v.files) == rest + extra
      modifies this`live, live`next, live`prev, dummyVersions`next, dummyVersions`prev, table`refs, table`holders
      ensures live == Without(old(live), i) && Circular([dummyVersions] + live)
      ensures table.Valid() && table.holders == AllListed(live) + extra
    {
      hide Circular, table.Valid, Listed, AllListed;
      UnlinkAt(v, i);
      table.ReleaseLists(v.files);
    }

    method UnlinkAt(v: Version, ghost i: nat)
      requires Circular([dummyVersions] + live) && i < |live| && live[i] == v
      requires Without([dummyVersions] + live, i + 1) == [dummyVersions] + Without(live, i)
      modifies this`live, live`next, live`prev, dummyVersions`next, dummyVersions`prev
      ensures live == Without(old(live), i) && Circular([dummyVersions] + live)
    {
      hide *;
      Unlink(v, [dummyVersions] + live, i + 1);
      live := Without(live, i);
    }

    /** version->Unref(): the last reference deletes the version. */
    method Unref(v: Version, ghost i: nat, ghost extra: multiset<File>)
      requires Ringed() && RefsWith(extra) && i < |live| && live[i] == v
      modifies this`live, v`refs, live`next, live`prev, dummyVersions`next, dummyVersions`prev, table`refs
      modifies table`holders
      ensures Ringed() && RefsWith(extra)
      ensures live == if old(v.refs) > 1 then old(live) else Without(old(live), i)
      ensures v.refs == old(v.refs) - 1
    {
      hide AllListed, table.Valid, Listed;
      ghost var ring := [dummyVersions] + live;
      forall j | 0 <= j < |live| && j != i ensures live[j] != v {
        assert ring[j + 1] == live[j] && ring[i + 1] == v;
      }
      v.refs := v.refs - 1;
      if v.refs == 0 {
        Delete(v, i, extra);
      }
    }

    /** The version at this place of the list, or the head if the list is not so long. */
    method At(place: nat) returns (v: Version)
      requires ListValid()
      ensures v == if place < |live| then live[place] else dummyVersions
    {
      hide Circular, Referenced;
      NextVisits();
      var i := 0;
      v := dummyVersions.next;
      while i < place && v != dummyVersions
        invariant i <= place && i <= |live|
        invariant v == if i < |live| then live[i] else dummyVersions
      {
        v := v.next;
        i := i + 1;
      }
    }

    /** next_ leads from the head through the list and back. */
    lemma NextVisits()
      requires Circular([dummyVersions] + live)
      ensures dummyVersions.next == if live == [] then dummyVersions else live[0]
      ensures forall i :: 0 <= i < |live| ==> live[i] != dummyVersions
      ensures forall i :: 0 <= i < |live| ==> live[i].next == if i + 1 < |live| then live[i + 1] else dummyVersions
    {
      var ring := [dummyVersions] + live;
      assert ring[0].next == Follower(ring, 0);
      forall i | 0 <= i < |live| ensures live[i] == ring[i + 1] && live[i].next == Follower(ring, i + 1) {}
    }

    /** Other threads while this one has released the mutex: versions gain and lose readers, and a
        version that is not current and has lost its last one goes. */
    method Visited(visits: seq<Visit>, ghost extra: multiset<File>)
      requires ListValid() && RefsWith(extra) && current != null
      modifies this`live, live`refs, live`next, live`prev, dummyVersions`next, dummyVersions`prev, table`refs
      modifies table`holders
      ensures ListValid() && RefsWith(extra) && forall i :: 0 <= i < |live| ==> live[i] in old(live)
    {
      hide ListValid, RefsWith, Ringed;
      for i := 0 to |visits|
        invariant ListValid() && RefsWith(extra) && forall i :: 0 <= i < |live| ==> live[i] in old(live)
      {
        VisitedBy(visits[i], extra);
      }
    }

    method VisitedBy(visit: Visit, ghost extra: multiset<File>)
      requires ListValid() && RefsWith(extra) && current != null
      modifies this`live, live`refs, live`next, live`prev, dummyVersions`next, dummyVersions`prev, table`refs
      modifies table`holders
      ensures ListValid() && RefsWith(extra) && forall i :: 0 <= i < |live| ==> live[i] in old(live)
    {
      hide Ringed, RefsWith;
      match visit
      case Take => Retain();
      case GiveBack(place) => Release(place, extra);
    }

    method Retain()
      requires ListValid() && current != null
      modifies current`refs
      ensures ListValid()
    {
      hide Circular;
      current.refs := current.refs + 1;
    }

    method Release(place: nat, ghost extra: multiset<File>)
      requires ListValid() && RefsWith(extra) && current != null
      modifies this`live, live`refs, live`next, live`prev, dummyVersions`next, dummyVersions`prev, table`refs
      modifies table`holders
      ensures ListValid() && RefsWith(extra) && forall i :: 0 <= i < |live| ==> live[i] in old(live)
    {
      hide Circular, RefsWith, Referenced;
      var v := At(place);
      if v != dummyVersions && (v != current || v.refs > 1) {
        Unref(v, place, extra);
      }
    }

    /** Make v current. */
    method AppendVersion(v: Version)
      requires ListValid() && v !in live && v != dummyVersions && v.refs == 0 && v.Shaped()
      requires RefsWith(Listed(v.files) + leaked)
      modifies this`current, this`live, live`refs, live`next, live`prev
      modifies dummyVersions`next, dummyVersions`prev, v`refs, v`next, v`prev, table`refs, table`holders
      ensures ListValid() && RefsValid() && current == v && v.refs == 1
      ensures var kept := old(current) == null || old(current.refs) > 1;
              live == (if kept then old(live) else old(live)[..|old(live)| - 1]) + [v]
    {
      hide Circular, AllListed, Listed, table.Valid, RefsWith;
      DropCurrent(Listed(v.files) + leaked);
      current := v;
      v.refs := v.refs + 1;
      Link(v);
    }

    /** Lines 239-241. */
    method DropCurrent(ghost extra: multiset<File>)
      requires ListValid() && RefsWith(extra)
      modifies this`live, live`refs, live`next, live`prev
      modifies dummyVersions`next, dummyVersions`prev, table`refs, table`holders
      ensures Ringed() && RefsWith(extra)
      ensures live == if old(current) == null || old(current.refs) > 1 then old(live) else old(live)[..|old(live)| - 1]
    {
      hide Circular, AllListed, Listed, table.Valid;
      if current != null {
        assert Without(live, |live| - 1) == live[..|live| - 1];
        Unref(current, |live| - 1, extra);
      }
    }

    method Link(v: Version)
      requires Ringed() && v !in live && v != dummyVersions && v.refs == 1 && v.Shaped() && current == v
      requires RefsWith(Listed(v.files) + leaked)
      modifies this`live, live`next, live`prev, dummyVersions`next, dummyVersions`prev, v`next, v`prev
      ensures ListValid() && RefsValid() && live == old(live) + [v]
    {
      ghost var ring, live' := [dummyVersions] + live, live + [v];
      assert v !in ring && ring + [v] == [dummyVersions] + live' && ring[0] == dummyVersions;
      AllListedWith(live, v);
      ReferencedWith(live, v);
      LinkAt(v, live');
    }

    method LinkAt(v: Version, ghost live': seq<Version>)
      requires Circular([dummyVersions] + live) && v !in [dummyVersions] + live && current == v && live' == live + [v]
      requires [dummyVersions] + live + [v] == [dummyVersions] + live'
      requires Referenced(live') && table.Valid() && table.holders == AllListed(live') + leaked
      modifies this`live, live`next, live`prev, dummyVersions`next, dummyVersions`prev, v`next, v`prev
      ensures ListValid() && RefsValid() && live == live'
    {
      hide Circular, AllListed, Referenced, table.Valid;
      LinkLast(dummyVersions, v, [dummyVersions] + live);
      live := live';
    }
  
    // -------------------------------------------------------------- LogAndApply

    ghost predicate DescriptorValid()
      reads this`descriptorFile, this`manifestFileNumber, env
    {
      descriptorFile.Some? ==>
        && descriptorFile.value == FileNames.DescriptorFileName(dbname, manifestFileNumber)
        && descriptorFile.value in env.disk.files && env.disk.files[descriptorFile.value].Records?
    }

    ghost predicate Valid()
      reads this, dummyVersions, live, table, compactPointer, env
    {
      && ListValid() && RefsValid() && |compactPointer.keys| == NUM_LEVELS && DescriptorValid()
      && current != null && current in live && current.Shaped()
    }

    ghost function View(): VersionState
      requires current != null && current.Shaped()
      reads this, current, compactPointer
    {
      VersionState(dbname, comparator, nextFileNumber, manifestFileNumber, lastSequence, logNumber, prevLogNumber,
                   descriptorFile.Some?, current.Value(), compactPointer.keys)
    }

    method NewFileNumber() returns (n: nat)
      modifies this`nextFileNumber
      ensures n == old(nextFileNumber) && nextFileNumber == n + 1
    {
      n := nextFileNumber;
      nextFileNumber := nextFileNumber + 1;
    }

    /** Lines 305-317. */
    method FillIn(edit: VersionEdit)
      requires current != null && current.Shaped()
      modifies edit
      ensures edit.Record() == Filled(View(), old(edit.Record()))
    {
      if !edit.hasLogNumber {
        edit.SetLogNumber(logNumber);
      }
      if !edit.hasPrevLogNumber {
        edit.SetPrevLogNumber(prevLogNumber);
      }
      edit.SetNextFile(nextFileNumber);
      edit.SetLastSequence(lastSequence);
    }

    /** WriteSnapshot: the pointers, then the files of every level. */
    method WriteSnapshot(name: string, ok: bool) returns (s: Status)
      requires current != null && current.Shaped() && |compactPointer.keys| == NUM_LEVELS
      requires name in env.disk.files && env.disk.files[name] == FileNames.Records([])
      modifies env
      ensures s == if ok then OK else Failed
      ensures var record := Snapshot(comparator, current.Value(), compactPointer.keys);
              env.disk == if !ok then old(env.disk) else
                old(env.disk).Becomes(old(env.disk).files[name := FileNames.Records([record])])
    {
      var edit := new VersionEdit();
      edit.SetComparatorName(comparator);
      SavePointers(edit);
      SaveFiles(edit);
      var record := edit.Record();
      assert record == Snapshot(comparator, current.Value(), compactPointer.keys);
      assert env.disk.files[name].records + [record] == [record];
      s := env.AddRecord(name, record, ok);
    }

    method SavePointers(edit: VersionEdit)
      requires edit.compactPointers == []
      modifies edit
      ensures edit.Record() ==
              old(edit.Record()).(compactPointers := SetPointers(compactPointer.keys, |compactPointer.keys|))
    {
      for level := 0 to |compactPointer.keys|
        invariant edit.Record() == old(edit.Record()).(compactPointers := SetPointers(compactPointer.keys, level))
      {
        if compactPointer.keys[level].Some? {
          edit.SetCompactPointer(level, compactPointer.keys[level].value);
        }
      }
    }

    method SaveFiles(edit: VersionEdit)
      requires current != null && current.Shaped() && edit.newFiles == []
      modifies edit
      ensures edit.Record() == old(edit.Record()).(added := AddsUpTo(current.Value(), NUM_LEVELS))
    {
      for level := 0 to NUM_LEVELS
        invariant edit.Record() == old(edit.Record()).(added := AddsUpTo(current.Value(), level))
      {
        SaveLevelFiles(edit, level);
      }
    }

    method SaveLevelFiles(edit: VersionEdit, level: nat)
      requires current != null && current.Shaped() && level < NUM_LEVELS
      modifies edit
      ensures edit.Record() == old(edit.Record()).(added := old(edit.newFiles) + AddsOf(level, current.Value()[level]))
    {
      var files := current.files[level];
      ghost var adds, start := AddsOf(level, Metas(files)), edit.newFiles;
      for i := 0 to |files|
        invariant edit.Record() == old(edit.Record()).(added := start + adds[..i])
      {
        var f := files[i].meta;
        assert adds[i] == (level, f) && adds[..i + 1] == adds[..i] + [adds[i]];
        edit.AddFile(level, f.number, f.fileSize, f.smallest, f.largest);
      }
      assert adds[..|files|] == adds;
    }

    /** Lines 330-343. */
    method OpenDescriptor(io: Io) returns (s: Status, newManifest: string)
      requires current != null && current.Shaped() && |compactPointer.keys| == NUM_LEVELS && DescriptorValid()
      modifies this`descriptorFile, env
      ensures (env.disk, s == OK) == ManifestSpec.OpenDescriptor(old(View()), compactPointer.keys, old(env.disk), io)
      ensures newManifest ==
              if old(descriptorFile).None? then FileNames.DescriptorFileName(dbname, manifestFileNumber) else ""
      ensures old(descriptorFile).Some? ==> descriptorFile == old(descriptorFile)
      ensures DescriptorValid() && (s == OK ==> descriptorFile.Some?)
    {
      s, newManifest := OK, "";
      if descriptorFile.None? {
        newManifest := FileNames.DescriptorFileName(dbname, manifestFileNumber);
        s := env.NewWritableFile(newManifest, io.create);
        if s == OK {
          descriptorFile := Some(newManifest);
          s := WriteSnapshot(newManifest, io.snapshot);
        }
      }
    }

    /** Lines 348-363. */
    method WriteOut(e: Edit, newManifest: string, io: Io, ghost v: VersionState) returns (s: Status)
      requires DescriptorValid() && descriptorFile.Some? && manifestFileNumber > 0
      requires v.dbname == dbname && v.manifestNumber == manifestFileNumber && v.descriptor == (newManifest == "")
      modifies env
      ensures (env.disk, s) == ManifestSpec.WriteOut(v, e, old(env.disk), true, io)
      ensures newManifest == "" || s == OK ==> DescriptorValid()
    {
      s := env.AddRecord(descriptorFile.value, e, io.append);
      if s == OK && newManifest != "" {
        s := FileNames.SetCurrentFile(env, dbname, manifestFileNumber, io);
      }
    }
  
    /** Lines 319-324. */
    method BuildNext(edit: VersionEdit) returns (v: Version, ghost tripped: bool)
      requires ListValid() && RefsValid() && current != null && |compactPointer.keys| == NUM_LEVELS
      requires edit.Record().LevelsOk()
      modifies table, compactPointer, current`refs, this`leaked
      ensures fresh(v) && v.refs == 0 && v.Shaped() && v.Value() == Next(current.Value(), edit.Record())
      ensures ListValid() && RefsWith(Listed(v.files) + leaked)
      ensures compactPointer.keys == ApplyPointers(old(compactPointer.keys), edit.Record().compactPointers)
      ensures tripped <==> exists l :: 0 < l < NUM_LEVELS && !AdjacentDisjoint(v.Value()[l])
      ensures leaked == old(leaked) <==> NoRepeats(edit.Record().added)
    {
      hide Circular, table.Valid, Listed, AdjacentDisjoint, NoRepeats, Metas, Save, ApplyEdit;
      ghost var lost;
      v, tripped, lost := BuildVersion(table, current, compactPointer, edit);
      leaked := leaked + lost;
    }

    /** The new version is built and not yet installed. */
    ghost predicate Pending(v: Version)
      reads this`live, this`leaked, this`current, dummyVersions, live, table, v
    {
      && ListValid() && RefsWith(Listed(v.files) + leaked) && current != null
      && v.refs == 0 && v.Shaped() && v !in live && v != dummyVersions
    }

    /** Lines 330-365; `window` is where the other threads have brought the counters meanwhile. */
    method Commit(e: Edit, io: Io, window: Window) returns (s: Status, newManifest: string)
      requires current != null && current.Shaped() && |compactPointer.keys| == NUM_LEVELS && DescriptorValid()
      requires manifestFileNumber > 0
      modifies this`descriptorFile, this`nextFileNumber, this`lastSequence, env
      ensures (env.disk, s) == ManifestSpec.Commit(old(View()), e, compactPointer.keys, old(env.disk), io)
      ensures newManifest ==
              if old(descriptorFile).None? then FileNames.DescriptorFileName(dbname, manifestFileNumber) else ""
      ensures old(descriptorFile).Some? ==> descriptorFile == old(descriptorFile)
      ensures (s == OK ==> descriptorFile.Some?) && (newManifest == "" || s == OK ==> DescriptorValid())
      ensures nextFileNumber == window.nextFile && lastSequence == window.lastSequence
    {
      s, newManifest := OpenDescriptor(io);
      nextFileNumber, lastSequence := window.nextFile, window.lastSequence;
      if s == OK {
        s := WriteOut(e, newManifest, io, old(View()));
      }
    }
  
    /** Lines 367-381. */
    method Finish(v: Version, edit: VersionEdit, s: Status, newManifest: string)
      requires Pending(v) && |compactPointer.keys| == NUM_LEVELS && edit.hasLogNumber && edit.hasPrevLogNumber
      requires (s == OK ==> descriptorFile.Some?) && (newManifest == "" || s == OK ==> DescriptorValid())
      modifies this`current, this`live, this`logNumber, this`prevLogNumber, this`descriptorFile, env
      modifies live`refs, live`next, live`prev, dummyVersions`next, dummyVersions`prev, v`refs, v`next, v`prev
      modifies table`refs, table`holders
      ensures Valid() && current == if s == OK then v else old(current)
      ensures s == OK ==> logNumber == edit.logNumber && prevLogNumber == edit.prevLogNumber
      ensures s != OK ==> logNumber == old(logNumber) && prevLogNumber == old(prevLogNumber)
      ensures descriptorFile == if s == OK || newManifest == "" then old(descriptorFile) else None
      ensures env.disk == if s == OK || newManifest == "" then old(env.disk)
                          else old(env.disk).Becomes(old(env.disk).files - {newManifest})
    {
      hide ListValid, RefsValid, RefsWith, Ringed;
      if s == OK {
        AppendVersion(v);
        logNumber := edit.logNumber;
        prevLogNumber := edit.prevLogNumber;
      } else {
        Discard(v);
        if newManifest != "" {
          descriptorFile := None;
          env.RemoveFile(newManifest);
        }
      }
    }

    /** delete v; */
    method Discard(v: Version)
      requires Pending(v)
      modifies table`refs, table`holders
      ensures ListValid() && RefsValid() && current in live && current.Shaped()
    {
      hide table.Valid, Listed, AllListed, Circular;
      TakeAway(table.holders, AllListed(live), Listed(v.files), leaked);
      table.ReleaseLists(v.files);
    }

    /** Lines 305-326. */
    method Prepare(edit: VersionEdit) returns (v: Version, ghost tripped: bool)
      requires ListValid() && RefsValid() && |compactPointer.keys| == NUM_LEVELS && edit.Record().LevelsOk()
      requires current != null && current in live && current.Shaped()
      modifies edit, table, compactPointer, current`refs, this`leaked
      ensures fresh(v) && Pending(v) && v.Value() == Next(old(View()).current, Filled(old(View()), old(edit.Record())))
      ensures edit.Record() == Filled(old(View()), old(edit.Record())) && edit.hasLogNumber && edit.hasPrevLogNumber
      ensures View() ==
              old(View()).(pointers := ApplyPointers(old(View()).pointers, old(edit.Record()).compactPointers))
      ensures tripped <==>
              exists l :: 0 < l < NUM_LEVELS && !AdjacentDisjoint(Next(old(View()).current, old(edit.Record()))[l])
      ensures leaked == old(leaked) <==> NoRepeats(old(edit.Record()).added)
    {
      hide ListValid, RefsValid, RefsWith, Ringed, Filled, Next, AdjacentDisjoint, NoRepeats, ApplyPointers, Metas,
        Listed;
      FilledSame(View(), edit.Record());
      FillIn(edit);
      v, tripped := BuildNext(edit);
    }

    /** Log the edit and install the version it makes of the current one.  In the window other threads
        bring the counters to `window`, and take and give back references to versions. */
    method LogAndApply(edit: VersionEdit, io: Io, window: Window, visits: seq<Visit>) returns (s: Status,
                       ghost tripped: bool)
      requires Valid() && edit.Record().LevelsOk() && manifestFileNumber > 0
      requires edit.hasLogNumber ==> logNumber <= edit.logNumber < nextFileNumber
      modifies this, edit, env, table, compactPointer, live`refs, live`next, live`prev, dummyVersions`next
      modifies dummyVersions`prev
      ensures Valid()
      ensures (View(), env.disk, s) == LogAndApplyOn(old(View()), old(env.disk), old(edit.Record()), io, window)
      ensures Outcome(old(View()), old(env.disk), old(edit.Record()), window, View(), env.disk, s)
      ensures tripped <==>
              exists l :: 0 < l < NUM_LEVELS && !AdjacentDisjoint(Next(old(View()).current, old(edit.Record()))[l])
      ensures leaked == old(leaked) <==> NoRepeats(old(edit.Record()).added)
    {
      hide ListValid, RefsValid, RefsWith, Ringed, Filled, Next, AdjacentDisjoint, NoRepeats, ApplyPointers,
        LogAndApplyOn, Outcome, Settled, Pending, DescriptorValid, Metas, Listed;
      ghost var s0, d0, e0 := View(), env.disk, edit.Record();
      var v;
      v, tripped := Prepare(edit);
      ghost var s1 := View();
      s := WriteAndInstall(v, edit, io, window, visits);
      FilledSame(s0, e0);
      Composed(s0, s1, View(), d0, env.disk, e0, io, window, s);
      LogAndApplyLeaves(s0, d0, e0, io, window);
    }

    /** What other threads do to the list does not disturb a version that is built and not yet installed. */
    method Meanwhile(v: Version, visits: seq<Visit>)
      requires Pending(v)
      modifies this`live, live`refs, live`next, live`prev, dummyVersions`next, dummyVersions`prev, table`refs
      modifies table`holders
      ensures Pending(v) && forall i :: 0 <= i < |live| ==> live[i] in old(live)
    {
      hide ListValid, RefsWith, Ringed, Listed;
      Visited(visits, Listed(v.files) + leaked);
    }

    /** Lines 330-381. */
    method WriteAndInstall(v: Version, edit: VersionEdit, io: Io, window: Window,
                           visits: seq<Visit>) returns (s: Status)
      requires Pending(v) && |compactPointer.keys| == NUM_LEVELS && DescriptorValid() && manifestFileNumber > 0
      requires current in live && current.Shaped() && edit.hasLogNumber && edit.hasPrevLogNumber
      modifies this`nextFileNumber, this`lastSequence, this`current, this`live, this`logNumber, this`prevLogNumber
      modifies this`descriptorFile
      modifies env, live`refs, live`next, live`prev, dummyVersions`next, dummyVersions`prev, v`refs, v`next, v`prev
      modifies table`refs, table`holders
      ensures Valid()
      ensures Settled(old(View()), View(), old(env.disk), env.disk, old(edit.Record()), old(v.Value()), io, window, s)
    {
      hide ListValid, RefsValid, RefsWith, Ringed, Pending, ManifestSpec.Commit, Metas, Listed;
      var newManifest: string;
      s, newManifest := Commit(edit.Record(), io, window);
      FinishLater(v, edit, s, newManifest, visits);
    }

    method FinishLater(v: Version, edit: VersionEdit, s: Status, newManifest: string, visits: seq<Visit>)
      requires Pending(v) && |compactPointer.keys| == NUM_LEVELS && edit.hasLogNumber && edit.hasPrevLogNumber
      requires (s == OK ==> descriptorFile.Some?) && (newManifest == "" || s == OK ==> DescriptorValid())
      modifies this`current, this`live, this`logNumber, this`prevLogNumber, this`descriptorFile, env
      modifies live`refs, live`next, live`prev, dummyVersions`next, dummyVersions`prev, v`refs, v`next, v`prev
      modifies table`refs, table`holders
      ensures Valid() && current == if s == OK then v else old(current)
      ensures s == OK ==> logNumber == edit.logNumber && prevLogNumber == edit.prevLogNumber
      ensures s != OK ==> logNumber == old(logNumber) && prevLogNumber == old(prevLogNumber)
      ensures descriptorFile == if s == OK || newManifest == "" then old(descriptorFile) else None
      ensures env.disk == if s == OK || newManifest == "" then old(env.disk)
                          else old(env.disk).Becomes(old(env.disk).files - {newManifest})
    {
      hide ListValid, RefsValid, RefsWith, Ringed, Pending, Listed;
      Meanwhile(v, visits);
      Finish(v, edit, s, newManifest);
    }
  }

  /** What happens to fields and disk from the first write of a call to its end. */
  ghost predicate Settled(s1: VersionState, s2: VersionState, d0: Disk, d2: Disk, record: Edit, next: Levels, io: Io,
                          w: Window, status: Status) {
    && record.logNumber.Some? && record.prevLogNumber.Some?
    && var (d1, done) := ManifestSpec.Commit(s1, record, s1.pointers, d0, io);
       && status == done
       && s2 == s1.(nextFile := w.nextFile, lastSequence := w.lastSequence,
                    current := if done == OK then next else s1.current,
                    logNumber := if done == OK then record.logNumber.value else s1.logNumber,
                    prevLogNumber := if done == OK then record.prevLogNumber.value else s1.prevLogNumber,
                    descriptor := done == OK || s1.descriptor)
       && d2 == if done == OK || s1.descriptor then d1 else d1.Becomes(d1.files - {s1.Manifest()})
  }

  lemma FilledSame(s: VersionState, e: Edit)
    requires e.LevelsOk()
    ensures var r := Filled(s, e);
            && r.LevelsOk() && r.added == e.added && r.compactPointers == e.compactPointers
            && Next(s.current, r) == Next(s.current, e) && r.logNumber.Some? && r.prevLogNumber.Some?
  {
  }

  /** The parts of the method make up the whole. */
  lemma Composed(s0: VersionState, s1: VersionState, s2: VersionState, d0: Disk, d2: Disk, e: Edit, io: Io, w: Window,
                 status: Status)
    requires e.LevelsOk() && |s0.pointers| == NUM_LEVELS && Filled(s0, e).LevelsOk()
    requires s1 == s0.(pointers := ApplyPointers(s0.pointers, e.compactPointers))
    requires Settled(s1, s2, d0, d2, Filled(s0, e), Next(s0.current, Filled(s0, e)), io, w, status)
    ensures (s2, d2, status) == LogAndApplyOn(s0, d0, e, io, w)
  {
    hide Next;
  }

  lemma AllListedWith(vs: seq<Version>, v: Version)
    ensures AllListed(vs + [v]) == AllListed(vs) + Listed(v.files)
  {
    assert (vs + [v])[..|vs|] == vs;
  }

  lemma ReferencedWith(vs: seq<Version>, v: Version)
    requires Referenced(vs) && v.Shaped() && v.refs > 0
    ensures Referenced(vs + [v])
  {
  }
}
