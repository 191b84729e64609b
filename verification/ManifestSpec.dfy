/** VersionSet::LogAndApply (leveldb/db/version_set.cc:276-384) on values, and what a restart reads back.

    A call is split where the code releases the mutex: `Prepare` runs before the window, `WriteOut`
    inside it and `Install` after it.  Other threads may allocate file numbers and advance the last
    sequence number inside the window. */
module ManifestSpec {
  import opened DbFormat
  import opened VersionEdits
  import opened BuilderSpec
  import opened Batching
  import FileNames

  type Disk = FileNames.Disk
  type Io = FileNames.Io

  /** The fields of a VersionSet. */
  datatype VersionState = VersionState(
    dbname: string,
    comparator: string,
    nextFile: nat,
    manifestNumber: nat,
    lastSequence: nat,
    logNumber: nat,
    prevLogNumber: nat,
    descriptor: bool,
    current: Levels,
    pointers: seq<Option<InternalKey>>)
  {
    function Manifest(): string {
      FileNames.DescriptorFileName(dbname, manifestNumber)
    }
  }

  // ---------------------------------------------------------------- the parts of LogAndApply

  /** Lines 305-317: the record to be written. */
  function Filled(s: VersionState, e: Edit): Edit {
    e.(logNumber := if e.logNumber.Some? then e.logNumber else Some(s.logNumber),
       prevLogNumber := if e.prevLogNumber.Some? then e.prevLogNumber else Some(s.prevLogNumber),
       nextFile := Some(s.nextFile),
       lastSequence := Some(s.lastSequence))
  }

  function SetPointers(keys: seq<Option<InternalKey>>, level: nat): seq<(nat, InternalKey)>
    requires level <= |keys|
  {
    if level == 0 then []
    else SetPointers(keys, level - 1) + if keys[level - 1].Some? then [(level - 1, keys[level - 1].value)] else []
  }

  function AddsOf(level: nat, files: Files): seq<(nat, FileMeta)> {
    seq(|files|, i requires 0 <= i < |files| => (level, files[i]))
  }

  function AddsUpTo(v: Levels, n: nat): seq<(nat, FileMeta)>
    requires n <= NUM_LEVELS
  {
    if n == 0 then [] else AddsUpTo(v, n - 1) + AddsOf(n - 1, v[n - 1])
  }

  /** The record that WriteSnapshot writes: the comparator, the pointers and every live file, and no log number. */
  function Snapshot(comparator: string, v: Levels, pointers: seq<Option<InternalKey>>): Edit {
    EMPTY.(comparator := Some(comparator), compactPointers := SetPointers(pointers, |pointers|),
           added := AddsUpTo(v, NUM_LEVELS))
  }

  /** Lines 332-343: create and start the descriptor if there is none. */
  function OpenDescriptor(s: VersionState, pointers: seq<Option<InternalKey>>, disk: Disk, io: Io): (Disk, bool) {
    if s.descriptor then (disk, true)
    else if !io.create then (disk, false)
    else
      var name := s.Manifest();
      var d := disk.Becomes(disk.files[name := FileNames.Records([])]);
      var started := FileNames.Records([Snapshot(s.comparator, s.current, pointers)]);
      if io.snapshot then (d.Becomes(d.files[name := started]), true)
      else (d, false)
  }

  function RecordsOf(files: FileNames.Files, name: string): seq<Edit> {
    if name in files && files[name].Records? then files[name].records else []
  }

  /** Lines 348-363: append the record; point CURRENT to the descriptor if it is new. */
  function WriteOut(s: VersionState, e: Edit, disk: Disk, ok: bool, io: Io): (Disk, Status) {
    if !ok || !io.append then (disk, Failed)
    else
      var name := s.Manifest();
      var d := disk.Becomes(disk.files[name := FileNames.Records(RecordsOf(disk.files, name) + [e])]);
      if s.descriptor then (d, OK) else FileNames.SetCurrentOn(d, s.dbname, s.manifestNumber, io)
  }

  /** What other threads have done in the window. */
  datatype Window = Window(nextFile: nat, lastSequence: nat)

  function Commit(s: VersionState, record: Edit, pointers: seq<Option<InternalKey>>, disk: Disk, io: Io): (Disk,
                  Status) {
    var (d, ready) := OpenDescriptor(s, pointers, disk, io);
    WriteOut(s, record, d, ready, io)
  }

  /** Lines 368-381. */
  function Finish(s: VersionState, record: Edit, pointers: seq<Option<InternalKey>>, disk: Disk, status: Status,
                  w: Window)
    : (VersionState, Disk, Status)
    requires record.LevelsOk() && record.logNumber.Some? && record.prevLogNumber.Some?
  {
    var s' := s.(pointers := pointers, nextFile := w.nextFile, lastSequence := w.lastSequence);
    if status == OK then
      (s'.(current := Next(s.current, record), logNumber := record.logNumber.value,
           prevLogNumber := record.prevLogNumber.value, descriptor := true), disk, OK)
    else if s.descriptor then (s', disk, Failed)
    else (s', disk.Becomes(disk.files - {s.Manifest()}), Failed)
  }

  function LogAndApplyOn(s: VersionState, disk: Disk, e: Edit, io: Io, w: Window): (VersionState, Disk, Status)
    requires e.LevelsOk() && |s.pointers| == NUM_LEVELS
  {
    var record := Filled(s, e);
    var pointers := ApplyPointers(s.pointers, e.compactPointers);
    var (d, status) := Commit(s, record, pointers, disk, io);
    Finish(s, record, pointers, d, status, w)
  }

  /** What a call leaves behind, whatever its file operations return.  The record that a successful call
      appends to the manifest has the files and pointers of the edit, the counters of the moment of the
      call, and its log numbers or those in use; the version set then has the log numbers of the record.
      A new manifest starts with a snapshot of the version before. */
  ghost predicate Outcome(s: VersionState, disk: Disk, e: Edit, w: Window, s': VersionState, disk': Disk,
                          status: Status)
    requires e.LevelsOk()
  {
    && PointersSet(s.pointers, e.compactPointers, s'.pointers)
    && s'.nextFile == w.nextFile && s'.lastSequence == w.lastSequence
    && s'.dbname == s.dbname && s'.comparator == s.comparator && s'.manifestNumber == s.manifestNumber
    && if status != OK then
         s'.current == s.current && s'.logNumber == s.logNumber && s'.prevLogNumber == s.prevLogNumber &&
         s'.descriptor == s.descriptor
       else
         var rs := RecordsOf(disk'.files, s.Manifest());
         && rs != [] && var last := rs[|rs| - 1];
         && last.added == e.added && last.deleted == e.deleted && last.compactPointers == e.compactPointers
         && last.comparator == e.comparator
         && last.nextFile == Some(s.nextFile) && last.lastSequence == Some(s.lastSequence)
         && last.logNumber == Some(if e.logNumber.Some? then e.logNumber.value else s.logNumber)
         && last.prevLogNumber == Some(if e.prevLogNumber.Some? then e.prevLogNumber.value else s.prevLogNumber)
         && s'.current == Next(s.current, e) && s'.descriptor
         && s'.logNumber == last.logNumber.value && s'.prevLogNumber == last.prevLogNumber.value
         && rs[..|rs| - 1] == if s.descriptor then RecordsOf(disk.files, s.Manifest())
                              else [Snapshot(s.comparator, s.current, s'.pointers)]
  }

  lemma LogAndApplyLeaves(s: VersionState, disk: Disk, e: Edit, io: Io, w: Window)
    requires e.LevelsOk() && |s.pointers| == NUM_LEVELS
    ensures var (s', disk', status) := LogAndApplyOn(s, disk, e, io, w);
            Outcome(s, disk, e, w, s', disk', status)
  {
    PointersAt(s.pointers, e.compactPointers);
    var pointers := ApplyPointers(s.pointers, e.compactPointers);
    var (d, ready) := OpenDescriptor(s, pointers, disk, io);
    var rs := RecordsOf(d.files, s.Manifest());
    var d' := d.Becomes(d.files[s.Manifest() := FileNames.Records(rs + [Filled(s, e)])]);
    FileNames.SetCurrentAtomic(d', s.dbname, s.manifestNumber, io, s.Manifest());
    var files := FileNames.SetCurrentOn(d', s.dbname, s.manifestNumber, io).0.files;
    assert FileNames.SameFile(d'.files, files, s.Manifest());
    assert Next(s.current, Filled(s, e)) == Next(s.current, e);
    hide ApplyPointers, Next, Snapshot, PointersSet, FileNames.SetCurrentOn, FileNames.DescriptorFileName;
    assert (rs + [Filled(s, e)])[..|rs|] == rs;
  }

  // ---------------------------------------------------------------- restart

  /** The last log number that the records name. */
  function LastLog(rs: seq<Edit>): nat {
    if rs == [] then 0
    else if rs[|rs| - 1].logNumber.Some? then rs[|rs| - 1].logNumber.value
    else LastLog(rs[..|rs| - 1])
  }

  datatype Recovered = Recovered(version: Levels, logNumber: nat)

  /** Follow CURRENT to a manifest and apply all its records to one builder over the empty version. */
  ghost function Replay(files: FileNames.Files, dbname: string): Option<Recovered> {
    var m := FileNames.CurrentManifest(files, dbname);
    if m.None? || m.value !in files || !files[m.value].Records? then None
    else
      var rs := files[m.value].records;
      if !Batching.LevelsOk(rs) then None else Some(Recovered(Batched(NO_FILES, rs), LastLog(rs)))
  }

  // ---------------------------------------------------------------- what callers owe

  /** The numbers of the files that an edit adds, and its log number, lie below n. */
  ghost predicate Below(e: Edit, n: nat) {
    && (forall i :: 0 <= i < |e.added| ==> e.added[i].1.number < n)
    && (e.logNumber.Some? ==> e.logNumber.value < n)
  }

  /** The assertions at the head of LogAndApply, and edits as the batching theorem wants them:
      file numbers are not added to a level that has them, and always mean the same file. */
  ghost predicate Admissible(names: map<nat, FileMeta>, s: VersionState, e: Edit) {
    && e.LevelsOk() && NamedEdit(names, e) && FreshAdds(s.current, e) && Below(e, s.nextFile)
    && (e.logNumber.Some? ==> e.logNumber.value >= s.logNumber)
  }

  // ---------------------------------------------------------------- the invariant

  /** Applying the records one after the other to the empty version gives v. */
  ghost predicate Rebuilds(names: map<nat, FileMeta>, rs: seq<Edit>, v: Levels) {
    Batching.LevelsOk(rs) && NamedEdits(names, rs) && FreshRun(NO_FILES, rs) && OneByOne(NO_FILES, rs) == v
  }

  /** A record of LogAndApply names a log, the log before, the next file and the last sequence number. */
  predicate Complete(e: Edit) {
    e.logNumber.Some? && e.prevLogNumber.Some? && e.nextFile.Some? && e.lastSequence.Some?
  }

  /** Every record but the snapshot at the head is complete, and every next-file number exceeds all
      numbers that its record and the records before it mention. */
  ghost predicate Numbered(rs: seq<Edit>, nextFile: nat) {
    && rs != [] && (forall j :: 0 <= j < |rs| ==> Below(rs[j], nextFile))
    && (forall i :: 0 < i < |rs| ==> Complete(rs[i]) && rs[i].nextFile.value <= nextFile)
    && (forall i, j :: 0 <= j <= i < |rs| && rs[i].nextFile.Some? ==> Below(rs[j], rs[i].nextFile.value))
  }

  /** The last next-file number in the manifest that CURRENT names is not above the counter, and exceeds
      every table number and log number in that manifest. */
  ghost predicate NextFileCovers(files: FileNames.Files, dbname: string, nextFile: nat) {
    var m := FileNames.CurrentManifest(files, dbname);
    m.Some? && var rs := RecordsOf(files, m.value);
    rs != [] && Complete(rs[|rs| - 1]) && rs[|rs| - 1].nextFile.value <= nextFile &&
    forall j :: 0 <= j < |rs| ==> Below(rs[j], rs[|rs| - 1].nextFile.value)
  }

  ghost predicate FilesBelow(v: Levels, n: nat) {
    forall l, i :: 0 <= l < NUM_LEVELS && 0 <= i < |v[l]| ==> v[l][i].number < n
  }

  /** The manifest that CURRENT names is the open one and rebuilds the current version. */
  ghost predicate Installed(names: map<nat, FileMeta>, s: VersionState, files: FileNames.Files) {
    && FileNames.CurrentManifest(files, s.dbname) == Some(s.Manifest())
    && s.Manifest() in files && files[s.Manifest()].Records?
    && var rs := files[s.Manifest()].records;
       Rebuilds(names, rs, s.current) && LastLog(rs) == s.logNumber && Numbered(rs, s.nextFile) && |rs| > 1
  }

  /** Before the first manifest is installed CURRENT may name an older one. */
  ghost predicate NamesOther(files: FileNames.Files, s: VersionState) {
    var m := FileNames.CurrentManifest(files, s.dbname);
    m.Some? ==> exists n: nat :: n != s.manifestNumber && m.value == FileNames.DescriptorFileName(s.dbname, n)
  }

  ghost predicate Consistent(names: map<nat, FileMeta>, s: VersionState, disk: Disk) {
    && |s.pointers| == NUM_LEVELS
    && Proper(names, s.current) && FilesBelow(s.current, s.nextFile) && s.logNumber < s.nextFile
    && if s.descriptor then Installed(names, s, disk.files) else NamesOther(disk.files, s)
  }

  // ---------------------------------------------------------------- records and versions

  lemma {:induction false} AddsUpToAt(v: Levels, n: nat, l: nat)
    requires n <= NUM_LEVELS
    ensures AddedAt(AddsUpTo(v, n), l) == if l < n then Elems(v[l]) else {}
    ensures forall i :: 0 <= i < |AddsUpTo(v, n)| ==>
              AddsUpTo(v, n)[i].0 < n && AddsUpTo(v, n)[i].1 in v[AddsUpTo(v, n)[i].0]
  {
    if n > 0 {
      AddsUpToAt(v, n - 1, l);
      var adds, last := AddsUpTo(v, n - 1), AddsOf(n - 1, v[n - 1]);
      AddedAtConcat(adds, last, l);
      forall f ensures f in AddedAt(last, l) <==> l == n - 1 && f in v[l] {
        if l == n - 1 && f in v[l] {
          var i :| 0 <= i < |v[l]| && v[l][i] == f;
          assert last[i] == (l, f);
        }
      }
    }
  }

  lemma AddedAtConcat(a: seq<(nat, FileMeta)>, b: seq<(nat, FileMeta)>, l: nat)
    ensures AddedAt(a + b, l) == AddedAt(a, l) + AddedAt(b, l)
  {
    forall f ensures f in AddedAt(a + b, l) <==> f in AddedAt(a, l) || f in AddedAt(b, l) {
      if i :| 0 <= i < |a| && a[i] == (l, f) { assert (a + b)[i] == (l, f); }
      if i :| 0 <= i < |b| && b[i] == (l, f) { assert (a + b)[|a| + i] == (l, f); }
    }
  }

  lemma {:induction false} SetPointersLevels(keys: seq<Option<InternalKey>>, level: nat)
    requires level <= |keys|
    ensures forall i :: 0 <= i < |SetPointers(keys, level)| ==> SetPointers(keys, level)[i].0 < level
  {
    if level > 0 { SetPointersLevels(keys, level - 1); }
  }

  /** ... and brings its compaction pointers back; it names the comparator and no log. */
  lemma SnapshotPointers(comparator: string, v: Levels, pointers: seq<Option<InternalKey>>,
                         keys: seq<Option<InternalKey>>)
    requires |keys| == |pointers| && forall l :: 0 <= l < |keys| ==> keys[l] == None
    ensures var e := Snapshot(comparator, v, pointers);
            var ps := e.compactPointers;
            && (forall i :: 0 <= i < |ps| ==> ps[i].0 < |keys|)
            && ApplyPointers(keys, ps) == pointers
            && e.comparator == Some(comparator) && e.logNumber == None && e.prevLogNumber == None
  {
    SetPointersBack(pointers, keys, |pointers|);
    assert pointers[..|pointers|] + keys[|pointers|..] == pointers;
  }

  lemma {:induction false} SetPointersBack(pointers: seq<Option<InternalKey>>, keys: seq<Option<InternalKey>>, n: nat)
    requires |keys| == |pointers| && n <= |pointers| && forall l :: 0 <= l < |keys| ==> keys[l] == None
    ensures forall i :: 0 <= i < |SetPointers(pointers, n)| ==> SetPointers(pointers, n)[i].0 < n
    ensures ApplyPointers(keys, SetPointers(pointers, n)) == pointers[..n] + keys[n..]
  {
    if n > 0 {
      SetPointersBack(pointers, keys, n - 1);
      var ps, qs := SetPointers(pointers, n - 1), SetPointers(pointers, n);
      if pointers[n - 1].Some? {
        assert qs[..|qs| - 1] == ps;
      } else {
        assert qs == ps;
      }
    }
  }

  /** A snapshot record alone rebuilds the version it was taken from. */
  lemma SnapshotRebuilds(names: map<nat, FileMeta>, comparator: string, v: Levels, pointers: seq<Option<InternalKey>>)
    requires Proper(names, v) && |pointers| == NUM_LEVELS
    ensures Rebuilds(names, [Snapshot(comparator, v, pointers)], v)
  {
    var e := Snapshot(comparator, v, pointers);
    SnapshotNamed(names, comparator, v, pointers);
    assert forall l :: 0 <= l < NUM_LEVELS ==> NO_FILES[l] == [];
    forall l | 0 <= l < NUM_LEVELS ensures AddedAt(e.added, l) == Elems(v[l]) && Next(NO_FILES, e)[l] == v[l] {
      AddsUpToAt(v, NUM_LEVELS, l);
      NextLevel(names, NO_FILES, e, l);
      forall f ensures f in v[l] <==> f in Next(NO_FILES, e)[l] {
        assert f in v[l] <==> f in Elems(v[l]);
        assert f in Next(NO_FILES, e)[l] <==> f in Elems(Next(NO_FILES, e)[l]);
      }
      StrictUnique(v[l], Next(NO_FILES, e)[l]);
    }
    assert Next(NO_FILES, e) == v;
    assert [e][..0] == [];
    assert OneByOne(NO_FILES, []) == NO_FILES;
  }

  lemma SnapshotNamed(names: map<nat, FileMeta>, comparator: string, v: Levels, pointers: seq<Option<InternalKey>>)
    requires Proper(names, v) && |pointers| == NUM_LEVELS
    ensures Snapshot(comparator, v, pointers).LevelsOk() && NamedEdit(names, Snapshot(comparator, v, pointers))
  {
    SetPointersLevels(pointers, |pointers|);
    AddsUpToAt(v, NUM_LEVELS, 0);
    var adds := AddsUpTo(v, NUM_LEVELS);
    forall i | 0 <= i < |adds| ensures Named(names, {adds[i].1}) {
      assert adds[i].1 in Elems(v[adds[i].0]);
    }
  }

  /** One more admissible record rebuilds the next version. */
  lemma RebuildsStep(names: map<nat, FileMeta>, rs: seq<Edit>, v: Levels, e: Edit)
    requires Rebuilds(names, rs, v) && e.LevelsOk() && NamedEdit(names, e) && FreshAdds(v, e)
    ensures Rebuilds(names, rs + [e], Next(v, e))
  {
    var rs' := rs + [e];
    assert rs'[..|rs|] == rs;
    forall i | 0 <= i < |rs'| ensures FreshAdds(OneByOne(NO_FILES, rs'[..i]), rs'[i]) {
      if i < |rs| { assert rs'[..i] == rs[..i]; }
    }
  }

  // ---------------------------------------------------------------- what a crash can see

  /** CURRENT is as before and so is every manifest but the one being written. */
  ghost predicate Untouched(files: FileNames.Files, files': FileNames.Files, s: VersionState) {
    && FileNames.CurrentManifest(files', s.dbname) == FileNames.CurrentManifest(files, s.dbname)
    && forall n: nat :: n != s.manifestNumber ==>
         FileNames.SameFile(files, files', FileNames.DescriptorFileName(s.dbname, n))
  }

  lemma UntouchedReplay(files: FileNames.Files, files': FileNames.Files, s: VersionState)
    requires NamesOther(files, s) && Untouched(files, files', s)
    ensures Replay(files', s.dbname) == Replay(files, s.dbname) && NamesOther(files', s)
  {
  }

  lemma StoreManifest(files: FileNames.Files, s: VersionState, content: FileNames.Content)
    ensures Untouched(files, files[s.Manifest() := content], s)
    ensures Untouched(files, files - {s.Manifest()}, s)
  {
    FileNames.NamesDistinct(s.dbname, s.manifestNumber, s.manifestNumber);
    forall n: nat { FileNames.NamesDistinct(s.dbname, n, s.manifestNumber); }
  }

  /** Every state of the disk since `disk` replays to one of the two given outcomes. */
  ghost predicate CrashesTo(disk: Disk, disk': Disk, dbname: string, before: Option<Recovered>,
                            after: Option<Recovered>) {
    && |disk.trace| <= |disk'.trace| && disk'.trace[..|disk.trace|] == disk.trace
    && forall i :: |disk.trace| <= i < |disk'.trace| ==>
         Replay(disk'.trace[i], dbname) == before || Replay(disk'.trace[i], dbname) == after
  }

  /** The records of a manifest after one more record. */
  lemma RecordStep(names: map<nat, FileMeta>, s: VersionState, rs: seq<Edit>, e: Edit)
    requires Rebuilds(names, rs, s.current) && Numbered(rs, s.nextFile) && Admissible(names, s, e)
    requires s.logNumber < s.nextFile
    ensures var record := Filled(s, e);
            && Rebuilds(names, rs + [record], Next(s.current, record))
            && LastLog(rs + [record]) == record.logNumber.value
            && Numbered(rs + [record], s.nextFile)
            && Next(s.current, record) == Next(s.current, e)
  {
    var record := Filled(s, e);
    assert record.LevelsOk() && NamedEdit(names, record) && FreshAdds(s.current, record);
    NumberedStep(rs, s, e);
    hide Rebuilds, Numbered, NamedEdit, FreshAdds, Below;
    RebuildsStep(names, rs, s.current, record);
    assert (rs + [record])[|rs|] == record;
  }

  lemma NumberedStep(rs: seq<Edit>, s: VersionState, e: Edit)
    requires Numbered(rs, s.nextFile) && Below(e, s.nextFile) && s.logNumber < s.nextFile
    ensures Numbered(rs + [Filled(s, e)], s.nextFile)
  {
  }

  lemma RebuildsReplay(names: map<nat, FileMeta>, files: FileNames.Files, dbname: string, name: string, rs: seq<Edit>,
                       v: Levels)
    requires FileNames.CurrentManifest(files, dbname) == Some(name) && name in files
    requires files[name] == FileNames.Records(rs)
    requires Rebuilds(names, rs, v)
    ensures Replay(files, dbname) == Some(Recovered(v, LastLog(rs)))
  {
    hide FreshRun, NamedEdits, OneByOne, Batched, FileNames.CurrentManifest;
    BatchingFromEmpty(names, rs);
  }

  /** The manifest that CURRENT names replays to the live version and the live log number. */
  lemma ReplayGivesCurrent(names: map<nat, FileMeta>, s: VersionState, disk: Disk)
    requires Consistent(names, s, disk) && s.descriptor
    ensures Replay(disk.files, s.dbname) == Some(Recovered(s.current, s.logNumber))
  {
    RebuildsReplay(names, disk.files, s.dbname, s.Manifest(), disk.files[s.Manifest()].records, s.current);
  }

  ghost function After(s: VersionState, e: Edit): Option<Recovered>
    requires e.LevelsOk()
  {
    Some(Recovered(Next(s.current, e), Filled(s, e).logNumber.value))
  }

  /** The state of the version set after a call that succeeded. */
  function Applied(s: VersionState, e: Edit, w: Window): VersionState
    requires e.LevelsOk() && |s.pointers| == NUM_LEVELS
  {
    s.(pointers := ApplyPointers(s.pointers, e.compactPointers), nextFile := w.nextFile, lastSequence := w.lastSequence,
       current := Next(s.current, e), logNumber := Filled(s, e).logNumber.value,
       prevLogNumber := Filled(s, e).prevLogNumber.value, descriptor := true)
  }

  lemma NextKeeps(names: map<nat, FileMeta>, s: VersionState, e: Edit)
    requires Proper(names, s.current) && FilesBelow(s.current, s.nextFile) && Admissible(names, s, e)
    ensures Proper(names, Next(s.current, e)) && FilesBelow(Next(s.current, e), s.nextFile)
  {
    NextProper(names, s.current, e);
    forall l, i | 0 <= l < NUM_LEVELS && 0 <= i < |Next(s.current, e)[l]|
      ensures Next(s.current, e)[l][i].number < s.nextFile
    {
      NextLevel(names, s.current, e, l);
      var f := Next(s.current, e)[l][i];
      assert f in Elems(Next(s.current, e)[l]);
    }
  }

  lemma NumberedMore(rs: seq<Edit>, n: nat, n': nat)
    requires Numbered(rs, n) && n <= n'
    ensures Numbered(rs, n')
  {
  }

  /** A disk that holds the new record in the manifest that CURRENT names. */
  lemma InstalledNow(names: map<nat, FileMeta>, s: VersionState, files: FileNames.Files, rs: seq<Edit>, e: Edit,
                     w: Window)
    requires Proper(names, s.current) && FilesBelow(s.current, s.nextFile) && s.logNumber < s.nextFile
    requires |s.pointers| == NUM_LEVELS
    requires Admissible(names, s, e) && w.nextFile >= s.nextFile
    requires Rebuilds(names, rs, s.current) && Numbered(rs, s.nextFile)
    requires FileNames.CurrentManifest(files, s.dbname) == Some(s.Manifest())
    requires s.Manifest() in files && files[s.Manifest()] == FileNames.Records(rs + [Filled(s, e)])
    ensures forall trace :: Consistent(names, Applied(s, e, w), FileNames.Disk(files, trace))
    ensures Replay(files, s.dbname) == After(s, e)
  {
    RecordStep(names, s, rs, e);
    NextKeeps(names, s, e);
    hide Rebuilds, Numbered, Next, Proper, FilesBelow, FileNames.CurrentManifest, FileNames.DescriptorFileName,
      FreshAdds, NamedEdit;
    RebuildsReplay(names, files, s.dbname, s.Manifest(), rs + [Filled(s, e)], Next(s.current, e));
    NumberedMore(rs + [Filled(s, e)], s.nextFile, w.nextFile);
    FilesBelowMore(Next(s.current, e), s.nextFile, w.nextFile);
    assert Installed(names, Applied(s, e, w), files);
  }

  lemma FilesBelowMore(v: Levels, n: nat, n': nat)
    requires FilesBelow(v, n) && n <= n'
    ensures FilesBelow(v, n')
  {
  }

  // ---------------------------------------------------------------- one call

  /** What a call does, whatever its file operations return: the invariant is kept, the disk replays
      to the new version exactly when the call succeeds, and a crash inside it to the old version or,
      if the call succeeds, to the new one. */
  ghost predicate Atomic(names: map<nat, FileMeta>, s: VersionState, disk: Disk, e: Edit, w: Window,
                         s': VersionState, disk': Disk, status: Status)
    requires e.LevelsOk() && |s.pointers| == NUM_LEVELS
  {
    var before := Replay(disk.files, s.dbname);
    && Consistent(names, s', disk')
    && s' == (if status == OK then Applied(s, e, w) else Failing(s, e, w))
    && var after := if status == OK then After(s, e) else before;
       Replay(disk'.files, s.dbname) == after && CrashesTo(disk, disk', s.dbname, before, after)
  }

  /** A failed call still moves the compaction pointers. */
  function Failing(s: VersionState, e: Edit, w: Window): VersionState
    requires e.LevelsOk() && |s.pointers| == NUM_LEVELS
  {
    s.(pointers := ApplyPointers(s.pointers, e.compactPointers), nextFile := w.nextFile, lastSequence := w.lastSequence)
  }

  lemma FailingKeeps(names: map<nat, FileMeta>, s: VersionState, disk: Disk, e: Edit, w: Window)
    requires Consistent(names, s, disk) && e.LevelsOk() && w.nextFile >= s.nextFile
    ensures Consistent(names, Failing(s, e, w), disk)
  {
    FilesBelowMore(s.current, s.nextFile, w.nextFile);
  }

  /** The manifest is open: one record is appended. */
  lemma AppendAtomic(names: map<nat, FileMeta>, s: VersionState, disk: Disk, e: Edit, io: Io, w: Window)
    requires Consistent(names, s, disk) && Admissible(names, s, e) && w.nextFile >= s.nextFile && s.descriptor
    ensures var (s', disk', status) := LogAndApplyOn(s, disk, e, io, w);
            Atomic(names, s, disk, e, w, s', disk', status)
  {
    hide Installed, NamesOther, Proper, FilesBelow, Applied, Failing, Replay, CrashesTo, After, Filled, Next;
    AppendIs(s, disk, e, io, w);
    if io.append {
      AppendInstalls(names, s, disk, e, w);
    } else {
      FailingKeeps(names, s, disk, e, w);
      CrashesNever(disk, s.dbname, Replay(disk.files, s.dbname));
    }
  }

  function WithRecord(s: VersionState, disk: Disk, e: Edit): FileNames.Files {
    disk.files[s.Manifest() := FileNames.Records(RecordsOf(disk.files, s.Manifest()) + [Filled(s, e)])]
  }

  lemma AppendIs(s: VersionState, disk: Disk, e: Edit, io: Io, w: Window)
    requires e.LevelsOk() && |s.pointers| == NUM_LEVELS && s.descriptor
    ensures LogAndApplyOn(s, disk, e, io, w) ==
              if io.append then (Applied(s, e, w), disk.Becomes(WithRecord(s, disk, e)), OK)
              else (Failing(s, e, w), disk, Failed)
  {
  }

  lemma CrashesNever(disk: Disk, dbname: string, before: Option<Recovered>)
    ensures CrashesTo(disk, disk, dbname, before, before)
  {
  }

  lemma AppendInstalls(names: map<nat, FileMeta>, s: VersionState, disk: Disk, e: Edit, w: Window)
    requires Consistent(names, s, disk) && Admissible(names, s, e) && w.nextFile >= s.nextFile && s.descriptor
    ensures Atomic(names, s, disk, e, w, Applied(s, e, w), disk.Becomes(WithRecord(s, disk, e)), OK)
  {
    hide Rebuilds, Numbered, Next, Proper, FilesBelow, FreshAdds, NamedEdit, Replay, Applied, Filled;
    FileNames.NamesDistinct(s.dbname, s.manifestNumber, s.manifestNumber);
    InstalledNow(names, s, WithRecord(s, disk, e), RecordsOf(disk.files, s.Manifest()), e, w);
    CrashesNever(disk, s.dbname, Replay(disk.files, s.dbname));
  }

  /** Nothing that a restart could see has changed since `disk`. */
  ghost predicate Quiet(s: VersionState, disk: Disk, disk': Disk) {
    && NamesOther(disk.files, s) && Untouched(disk.files, disk'.files, s)
    && CrashesTo(disk, disk', s.dbname, Replay(disk.files, s.dbname), Replay(disk.files, s.dbname))
  }

  lemma QuietStep(s: VersionState, disk: Disk, disk': Disk, files: FileNames.Files)
    requires Quiet(s, disk, disk') && Untouched(disk'.files, files, s)
    ensures Quiet(s, disk, disk'.Becomes(files))
  {
    UntouchedReplay(disk.files, disk'.files, s);
    UntouchedReplay(disk'.files, files, s);
  }

  lemma QuietStore(s: VersionState, disk: Disk, disk': Disk, content: FileNames.Content)
    requires Quiet(s, disk, disk')
    ensures Quiet(s, disk, disk'.Becomes(disk'.files[s.Manifest() := content]))
    ensures Quiet(s, disk, disk'.Becomes(disk'.files - {s.Manifest()}))
  {
    StoreManifest(disk'.files, s, content);
    QuietStep(s, disk, disk', disk'.files[s.Manifest() := content]);
    QuietStep(s, disk, disk', disk'.files - {s.Manifest()});
  }

  lemma OpenQuiet(s: VersionState, pointers: seq<Option<InternalKey>>, disk: Disk, io: Io)
    requires NamesOther(disk.files, s) && !s.descriptor
    ensures var (d, ready) := OpenDescriptor(s, pointers, disk, io);
            && Quiet(s, disk, d)
            && (ready ==> RecordsOf(d.files, s.Manifest()) == [Snapshot(s.comparator, s.current, pointers)])
  {
    assert Quiet(s, disk, disk);
    QuietStore(s, disk, disk, FileNames.Records([]));
    var d := disk.Becomes(disk.files[s.Manifest() := FileNames.Records([])]);
    hide Quiet;
    if io.create {
      QuietStore(s, disk, d, FileNames.Records([Snapshot(s.comparator, s.current, pointers)]));
    }
  }

  ghost predicate SwitchedTo(files: FileNames.Files, files': FileNames.Files, s: VersionState) {
    && FileNames.CurrentManifest(files', s.dbname) == Some(s.Manifest())
    && FileNames.SameFile(files, files', s.Manifest())
  }

  /** Installing a new manifest: nothing changes until the rename, which makes it current. */
  lemma SwitchQuiet(s: VersionState, disk: Disk, disk': Disk, io: Io, after: Option<Recovered>)
    requires Quiet(s, disk, disk')
    requires forall files :: SwitchedTo(disk'.files, files, s) ==> Replay(files, s.dbname) == after
    ensures var (d, status) := FileNames.SetCurrentOn(disk', s.dbname, s.manifestNumber, io);
            if status == OK then
              && CrashesTo(disk, d, s.dbname, Replay(disk.files, s.dbname), after)
              && SwitchedTo(disk'.files, d.files, s)
            else Quiet(s, disk, d)
  {
    FileNames.SetCurrentAtomic(disk', s.dbname, s.manifestNumber, io, s.Manifest());
    var (d, status) := FileNames.SetCurrentOn(disk', s.dbname, s.manifestNumber, io);
    var n := |disk'.trace|;
    var written := d.trace[n];
    assert d == disk'.Becomes(written).Becomes(d.files);
    QuietStep(s, disk, disk', written);
    hide FileNames.SetCurrentOn, Replay, FileNames.CurrentManifest, FileNames.DescriptorFileName;
    if status != OK {
      assert Untouched(disk'.files, d.files, s);
      assert Untouched(written, d.files, s);
      QuietStep(s, disk, disk'.Becomes(written), d.files);
    } else {
      assert Replay(d.files, s.dbname) == after;
    }
  }

  /** There is no open manifest: a new one is written, then CURRENT is switched to it. */
  lemma CreateAtomic(names: map<nat, FileMeta>, s: VersionState, disk: Disk, e: Edit, io: Io, w: Window)
    requires Consistent(names, s, disk) && Admissible(names, s, e) && w.nextFile >= s.nextFile && !s.descriptor
    ensures var (s', disk', status) := LogAndApplyOn(s, disk, e, io, w);
            Atomic(names, s, disk, e, w, s', disk', status)
  {
    var pointers := ApplyPointers(s.pointers, e.compactPointers);
    var (d1, ready) := OpenDescriptor(s, pointers, disk, io);
    OpenQuiet(s, pointers, disk, io);
    if ready && io.append {
      var snapshot := Snapshot(s.comparator, s.current, pointers);
      var d2 := Rewritten(s, d1, [snapshot] + [Filled(s, e)]);
      QuietStore(s, disk, d1, FileNames.Records([snapshot] + [Filled(s, e)]));
      SnapshotRebuilds(names, s.comparator, s.current, pointers);
      SnapshotNumbered(s, pointers);
      forall files | SwitchedTo(d2.files, files, s)
        ensures Replay(files, s.dbname) == After(s, e)
        ensures Consistent(names, Applied(s, e, w), FileNames.Disk(files, []))
      {
        InstalledNow(names, s, files, [snapshot], e, w);
      }
      SwitchQuiet(s, disk, d2, io, After(s, e));
      CreateOutcome(names, s, disk, d2, e, io, w);
    } else {
      CreateFails(names, s, disk, d1, e, w);
    }
  }

  function Rewritten(s: VersionState, d: Disk, rs: seq<Edit>): Disk {
    d.Becomes(d.files[s.Manifest() := FileNames.Records(rs)])
  }

  lemma SnapshotNumbered(s: VersionState, pointers: seq<Option<InternalKey>>)
    requires FilesBelow(s.current, s.nextFile)
    ensures Numbered([Snapshot(s.comparator, s.current, pointers)], s.nextFile)
  {
    AddsUpToAt(s.current, NUM_LEVELS, 0);
    var adds := AddsUpTo(s.current, NUM_LEVELS);
    forall i | 0 <= i < |adds| ensures adds[i].1.number < s.nextFile {
      var j :| 0 <= j < |s.current[adds[i].0]| && s.current[adds[i].0][j] == adds[i].1;
    }
  }

  /** Giving up removes the unfinished manifest. */
  lemma CreateFails(names: map<nat, FileMeta>, s: VersionState, disk: Disk, d: Disk, e: Edit, w: Window)
    requires Consistent(names, s, disk) && e.LevelsOk() && w.nextFile >= s.nextFile && !s.descriptor
    requires Quiet(s, disk, d)
    ensures Atomic(names, s, disk, e, w, Failing(s, e, w), d.Becomes(d.files - {s.Manifest()}), Failed)
  {
    QuietStore(s, disk, d, FileNames.Records([]));
    var d' := d.Becomes(d.files - {s.Manifest()});
    UntouchedReplay(disk.files, d'.files, s);
    FailingKeeps(names, s, disk, e, w);
  }

  lemma CreateOutcome(names: map<nat, FileMeta>, s: VersionState, disk: Disk, d: Disk, e: Edit, io: Io, w: Window)
    requires Consistent(names, s, disk) && Admissible(names, s, e) && w.nextFile >= s.nextFile && !s.descriptor
    requires forall files :: SwitchedTo(d.files, files, s) ==>
               Replay(files, s.dbname) == After(s, e) && Consistent(names, Applied(s, e, w), FileNames.Disk(files, []))
    requires var (d', status) := FileNames.SetCurrentOn(d, s.dbname, s.manifestNumber, io);
             if status == OK then
               CrashesTo(disk, d', s.dbname, Replay(disk.files, s.dbname), After(s, e)) &&
               SwitchedTo(d.files, d'.files, s)
             else Quiet(s, disk, d')
    ensures var (d', status) := FileNames.SetCurrentOn(d, s.dbname, s.manifestNumber, io);
            Atomic(names, s, disk, e, w, if status == OK then Applied(s, e, w) else Failing(s, e, w),
                   if status == OK then d' else d'.Becomes(d'.files - {s.Manifest()}), status)
  {
    var (d', status) := FileNames.SetCurrentOn(d, s.dbname, s.manifestNumber, io);
    hide FileNames.SetCurrentOn, FileNames.CurrentManifest, Replay, Applied, Failing, After;
    if status != OK {
      CreateFails(names, s, disk, d', e, w);
    } else {
      assert Consistent(names, Applied(s, e, w), FileNames.Disk(d'.files, []));
      hide Installed, NamesOther, Proper, FilesBelow;
    }
  }

  lemma LogAndApplyAtomic(names: map<nat, FileMeta>, s: VersionState, disk: Disk, e: Edit, io: Io, w: Window)
    requires Consistent(names, s, disk) && Admissible(names, s, e) && w.nextFile >= s.nextFile
    ensures var (s', disk', status) := LogAndApplyOn(s, disk, e, io, w);
            Atomic(names, s, disk, e, w, s', disk', status)
  {
    hide *;
    if s.descriptor {
      AppendAtomic(names, s, disk, e, io, w);
    } else {
      CreateAtomic(names, s, disk, e, io, w);
    }
  }

  // ---------------------------------------------------------------- runs

  /** A call of LogAndApply, or other threads taking file numbers and sequence numbers between calls. */
  datatype Call = Log(edit: Edit, io: Io, window: Window) | Advance(window: Window)

  predicate CallShaped(c: Call) {
    c.Log? ==> c.edit.LevelsOk()
  }

  function StepOn(s: VersionState, disk: Disk, c: Call): (r: (VersionState, Disk))
    requires CallShaped(c) && |s.pointers| == NUM_LEVELS
    ensures |r.0.pointers| == NUM_LEVELS && r.0.dbname == s.dbname
  {
    match c
    case Log(e, io, w) => var (s', disk', _) := LogAndApplyOn(s, disk, e, io, w); (s', disk')
    case Advance(w) => (s.(nextFile := w.nextFile, lastSequence := w.lastSequence), disk)
  }

  function RunOn(s: VersionState, disk: Disk, cs: seq<Call>): (r: (VersionState, Disk))
    requires |s.pointers| == NUM_LEVELS && forall i :: 0 <= i < |cs| ==> CallShaped(cs[i])
    ensures |r.0.pointers| == NUM_LEVELS && r.0.dbname == s.dbname
  {
    if cs == [] then (s, disk)
    else
      var (s', disk') := RunOn(s, disk, cs[..|cs| - 1]);
      StepOn(s', disk', cs[|cs| - 1])
  }

  ghost predicate CallOk(names: map<nat, FileMeta>, s: VersionState, c: Call) {
    c.window.nextFile >= s.nextFile && (c.Log? ==> Admissible(names, s, c.edit))
  }

  /** Every call finds a version set for which it is admissible. */
  ghost predicate ProperRun(names: map<nat, FileMeta>, s: VersionState, disk: Disk, cs: seq<Call>)
    requires |s.pointers| == NUM_LEVELS
  {
    && (forall i :: 0 <= i < |cs| ==> CallShaped(cs[i]))
    && forall i :: 0 <= i < |cs| ==> CallOk(names, RunOn(s, disk, cs[..i]).0, cs[i])
  }

  /** What a restart finds when the version set is s: its version, once a manifest is installed. */
  ghost function Expected(s: VersionState, start: Option<Recovered>): Option<Recovered> {
    if s.descriptor then Some(Recovered(s.current, s.logNumber)) else start
  }

  /** A restart from this state of the disk finds what it would have found after the first k calls, for some k. */
  ghost predicate FindsSome(s: VersionState, disk: Disk, cs: seq<Call>, files: FileNames.Files)
    requires |s.pointers| == NUM_LEVELS && forall i :: 0 <= i < |cs| ==> CallShaped(cs[i])
  {
    exists k :: 0 <= k <= |cs| && FindsAfter(s, disk, cs[..k], files)
  }

  ghost predicate FindsAfter(s: VersionState, disk: Disk, cs: seq<Call>, files: FileNames.Files)
    requires |s.pointers| == NUM_LEVELS && forall i :: 0 <= i < |cs| ==> CallShaped(cs[i])
  {
    Replay(files, s.dbname) == Expected(RunOn(s, disk, cs).0, Replay(disk.files, s.dbname))
  }

  lemma StepReplays(names: map<nat, FileMeta>, s: VersionState, disk: Disk, c: Call, start: Option<Recovered>)
    requires Consistent(names, s, disk) && CallShaped(c) && CallOk(names, s, c)
    requires Replay(disk.files, s.dbname) == Expected(s, start)
    ensures var (s', disk') := StepOn(s, disk, c);
            && Consistent(names, s', disk')
            && Replay(disk'.files, s.dbname) == Expected(s', start)
            && CrashesTo(disk, disk', s.dbname, Expected(s, start), Expected(s', start))
  {
    match c
    case Log(e, io, w) =>
      LogAndApplyAtomic(names, s, disk, e, io, w);
    case Advance(w) =>
      FailingKeeps(names, s, disk, EMPTY, w);
  }

  lemma PrefixOfCalls(names: map<nat, FileMeta>, s: VersionState, disk: Disk, cs: seq<Call>)
    requires |s.pointers| == NUM_LEVELS && ProperRun(names, s, disk, cs) && cs != []
    ensures ProperRun(names, s, disk, cs[..|cs| - 1])
    ensures CallOk(names, RunOn(s, disk, cs[..|cs| - 1]).0, cs[|cs| - 1])
  {
    var init := cs[..|cs| - 1];
    assert forall i :: 0 <= i < |init| ==> init[..i] == cs[..i];
  }

  lemma Covered(names: map<nat, FileMeta>, s: VersionState, disk: Disk)
    requires Consistent(names, s, disk)
    ensures s.descriptor ==> NextFileCovers(disk.files, s.dbname, s.nextFile)
  {
    hide Rebuilds, Proper, FilesBelow, Below, FileNames.CurrentManifest, FileNames.DescriptorFileName;
  }

  /** Manifest replay, over every run of calls with any mixture of successes and failures: once a
      manifest is installed, a restart rebuilds the live version and the live log number, and the last
      next-file number that it reads exceeds every table and log number in the manifest; and a crash at
      any moment of the run leads back to the state after some number of its calls. */
  lemma {:induction false} ReplayAlways(names: map<nat, FileMeta>, s: VersionState, disk: Disk, cs: seq<Call>)
    requires Consistent(names, s, disk) && ProperRun(names, s, disk, cs)
    requires s.descriptor ==> Replay(disk.files, s.dbname) == Some(Recovered(s.current, s.logNumber))
    ensures var (s', disk') := RunOn(s, disk, cs);
            && Consistent(names, s', disk')
            && Replay(disk'.files, s.dbname) == Expected(s', Replay(disk.files, s.dbname))
            && (s'.descriptor ==> NextFileCovers(disk'.files, s.dbname, s'.nextFile))
            && |disk.trace| <= |disk'.trace|
            && forall i :: |disk.trace| <= i < |disk'.trace| ==> FindsSome(s, disk, cs, disk'.trace[i])
  {
    var start := Replay(disk.files, s.dbname);
    if cs == [] {
      Covered(names, s, disk);
    } else {
      var init, c := cs[..|cs| - 1], cs[|cs| - 1];
      PrefixOfCalls(names, s, disk, cs);
      ReplayAlways(names, s, disk, init);
      var (s1, d1) := RunOn(s, disk, init);
      StepReplays(names, s1, d1, c, start);
      Covered(names, RunOn(s, disk, cs).0, RunOn(s, disk, cs).1);
      hide NextFileCovers, Replay, StepOn, Consistent, CallOk, Expected, ProperRun;
      var (_, d2) := RunOn(s, disk, cs);
      forall i | |disk.trace| <= i < |d2.trace| ensures FindsSome(s, disk, cs, d2.trace[i]) {
        if i < |d1.trace| {
          assert d2.trace[..|d1.trace|][i] == d2.trace[i];
          FindsMore(s, disk, cs, d2.trace[i]);
        } else {
          FindsLast(s, disk, cs, d2.trace[i]);
        }
      }
    }
  }

  lemma FindsMore(s: VersionState, disk: Disk, cs: seq<Call>, files: FileNames.Files)
    requires |s.pointers| == NUM_LEVELS && cs != [] && forall i :: 0 <= i < |cs| ==> CallShaped(cs[i])
    requires FindsSome(s, disk, cs[..|cs| - 1], files)
    ensures FindsSome(s, disk, cs, files)
  {
    hide FindsAfter;
    var init := cs[..|cs| - 1];
    var k :| 0 <= k <= |init| && FindsAfter(s, disk, init[..k], files);
    assert init[..k] == cs[..k];
  }

  lemma FindsLast(s: VersionState, disk: Disk, cs: seq<Call>, files: FileNames.Files)
    requires |s.pointers| == NUM_LEVELS && cs != [] && forall i :: 0 <= i < |cs| ==> CallShaped(cs[i])
    requires FindsAfter(s, disk, cs[..|cs| - 1], files) || FindsAfter(s, disk, cs, files)
    ensures FindsSome(s, disk, cs, files)
  {
    hide FindsAfter;
    assert cs[..|cs|] == cs;
  }
}
