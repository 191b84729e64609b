/** The manifest of a run of `DbMachine` is that of a run of `ManifestSpec`: every step that writes the
    manifest is one call of LogAndApply on the disk, admissible where it is made. */
module DbManifest {
  import opened DbFormat
  import opened VersionEdits
  import opened BuilderSpec
  import opened Batching
  import opened VersionReads
  import opened ManifestSpec
  import opened DbStore
  import opened DbQueue
  import opened DbMachine
  import opened DbInvariants
  import opened DbSteps
  import opened DbBackground
  import opened DbTheorems
  import opened DbLogs

  // ---------------------------------------------------------------- more names

  ghost predicate Extends(names: map<nat, FileMeta>, all: map<nat, FileMeta>) {
    forall n :: n in names ==> n in all && all[n] == names[n]
  }

  lemma NamedEditGrows(names: map<nat, FileMeta>, all: map<nat, FileMeta>, e: Edit)
    requires Extends(names, all) && NamedEdit(names, e)
    ensures NamedEdit(all, e)
  {
    forall i | 0 <= i < |e.added| ensures Named(all, {e.added[i].1}) {
      assert Named(names, {e.added[i].1}) && e.added[i].1 in {e.added[i].1};
    }
  }

  lemma ProperGrows(names: map<nat, FileMeta>, all: map<nat, FileMeta>, v: Levels)
    requires Extends(names, all) && Proper(names, v)
    ensures Proper(all, v)
  {
    forall l | 0 <= l < NUM_LEVELS ensures Named(all, Elems(v[l])) {
      assert Named(names, Elems(v[l]));
    }
  }

  lemma ConsistentGrows(names: map<nat, FileMeta>, all: map<nat, FileMeta>, s: VersionState, disk: Disk)
    requires Extends(names, all) && Consistent(names, s, disk)
    ensures Consistent(all, s, disk)
  {
    hide FileNames.CurrentManifest, Extends, Proper, NamedEdit, FreshRun, Numbered, FilesBelow;
    ProperGrows(names, all, s.current);
    if s.descriptor {
      var rs := disk.files[s.Manifest()].records;
      forall i | 0 <= i < |rs| ensures NamedEdit(all, rs[i]) {
        NamedEditGrows(names, all, rs[i]);
      }
    }
  }

  // ---------------------------------------------------------------- the edit behind a job

  /** The version set as LogAndApply sees it. */
  function VersionsOf(st: Store): VersionState {
    VersionState("", "", st.nextFile, 0, st.lastSequence, st.logNumber, 0, true, st.current, [])
  }

  ghost predicate EditFor(st: Store, job: Job, e: Edit)
    requires job.Logging?
  {
    && Admissible(st.names, VersionsOf(st), e) && Next(st.current, e) == job.target
    && e.logNumber == (if job.flush then Some(job.log) else None)
    && (!job.flush ==> job.log == st.logNumber)
  }

  /** What is about to be logged comes from an admissible edit. */
  ghost predicate HasEdit(st: Store, job: Job) {
    job.Logging? ==> exists e :: EditFor(st, job, e)
  }

  /** Nothing that an edit depends on changes, but more numbers may be given out. */
  ghost predicate Steady(st: Store, st': Store) {
    && st'.names == st.names && st'.current == st.current && st'.logNumber == st.logNumber
    && st'.nextFile >= st.nextFile && st'.manifest == st.manifest
  }

  lemma EditKeeps(st: Store, st': Store, job: Job)
    requires HasEdit(st, job) && Steady(st, st')
    ensures HasEdit(st', job)
  {
    hide Next, NamedEdit, FreshAdds;
    if job.Logging? {
      var e :| EditFor(st, job, e);
      assert EditFor(st', job, e);
    }
  }

  lemma ProceedJob(s: Db, force: bool, allowDelay: bool, o: Luck)
    requires s.queue.queue != [] && s.queue.queue[0] in s.queue.writers && s.store.mems != []
    ensures Proceed(s, force, allowDelay, o).bg.job == s.bg.job
  {
    hide MakeRoom, Retired, Stamp, Ops, GroupSize, Moved, Switched;
    MakeRoomContract(s.store, s.bg, force, allowDelay, o);
  }

  lemma WriterJob(s: Db, a: Action)
    requires Enabled(s, a) && (a.AEnqueue? || a.ARun?)
    ensures Step(s, a).bg.job == s.bg.job
  {
    hide Proceed, Moved, Pushed;
    match a
    case AEnqueue(id, batch, sync, o) =>
      if s.queue.queue == [] {
        var s' := s.(queue := Pushed(s.queue, id, Writer(batch, sync, false, OK, Parked(true))));
        PushedFirst(s.queue, id, Writer(batch, sync, false, OK, Parked(true)));
        ProceedJob(s', batch.None?, !batch.None?, o);
      }
    case ARun(id, o) =>
      if s.queue.queue != [] && s.queue.queue[0] == id {
        var w := s.queue.writers[id];
        match w.pc
        case Parked(_) => ProceedJob(s, w.batch.None?, !w.batch.None?, o);
        case Napping(force) => ProceedJob(s, force, false, o);
        case Stalled(force, allowDelay, _) => ProceedJob(s, force, allowDelay, o);
        case _ =>
      }
  }

  predicate Foreground(a: Action) {
    a.AAppend? || a.ASync? || a.AInsert? || a.AConclude? || a.ABegin? || a.ARead? || a.AEnd? || a.AShutdown?
  }

  lemma ForegroundSteady(s: Db, a: Action)
    requires Enabled(s, a) && Foreground(a)
    ensures Steady(s.store, Step(s, a).store) && Step(s, a).bg.job == s.bg.job
  {
    hide Retired, Moved, SignalAll, ReadOne;
  }

  lemma StartEdit(s: Db, move: Option<(nat, FileMeta)>, needs: bool, base: nat, origin: set<Entry>)
    requires Inv(s, base, origin) && Enabled(s, AStart(move, needs))
    ensures HasEdit(Start(s, move, needs).store, Start(s, move, needs).bg.job)
    ensures Steady(s.store, Start(s, move, needs).store)
  {
    hide Inv, SignalAll, Movable, Admissible, Next;
    if move.Some? {
      MoveAdmissible(s, base, origin, move.value.0, move.value.1, VersionsOf(s.store));
      var s' := Start(s, move, needs);
      if s'.bg.job.Logging? { assert EditFor(s'.store, s'.bg.job, MoveEdit(move.value.0, move.value.1)); }
    }
  }

  lemma SameNext(v: Levels, e: Edit, log: nat)
    requires e.LevelsOk()
    ensures e.(logNumber := Some(log), prevLogNumber := Some(0)).LevelsOk()
    ensures Next(v, e.(logNumber := Some(log), prevLogNumber := Some(0))) == Next(v, e)
  {
  }

  lemma LogFlushEdit(s: Db, level: nat, needs: bool, base: nat, origin: set<Entry>)
    requires Inv(s, base, origin) && s.store.Shaped() && s.bg.job.TableBuilt? && level < NUM_LEVELS
    requires s.bg.job.file.Some? ==> Placeable(s.bg.job.base, level, s.bg.job.file.value)
    ensures HasEdit(LogFlush(s, level, needs).store, LogFlush(s, level, needs).bg.job)
    ensures Steady(s.store, LogFlush(s, level, needs).store)
  {
    JobBase(s, base, origin);
    hide Inv, SignalAll, Placeable, Admissible, Next;
    var s', job, log := LogFlush(s, level, needs), s.bg.job, s.store.LogfileNumber();
    var edit := if job.file.Some? then FlushEdit(level, job.file.value) else EMPTY;
    SameNext(s.store.current, edit, log);
    if s'.bg.job.Logging? {
      if job.file.Some? {
        FlushAdmissible(s, base, origin, level, VersionsOf(s.store));
      } else {
        EmptyAdmissible(s, base, origin, VersionsOf(s.store));
      }
      assert EditFor(s'.store, s'.bg.job, edit.(logNumber := Some(log), prevLogNumber := Some(0)));
    }
  }

  lemma JobBase(s: Db, base: nat, origin: set<Entry>)
    requires Inv(s, base, origin) && s.bg.job.TableBuilt?
    ensures s.bg.job.base == s.store.current && s.store.Shaped()
  {
    hide QueueOk, LeaderOk, ReadersOk, AccountsOk, StallOk;
  }

  // ---------------------------------------------------------------- calls

  /** File operations that all succeed, and none that matters. */
  function Luckily(ok: bool): FileNames.Io {
    FileNames.Io(true, true, ok, true, 0, true)
  }

  lemma LuckDecides(s: VersionState, disk: Disk, e: Edit, ok: bool, w: Window)
    requires e.LevelsOk() && |s.pointers| == NUM_LEVELS
    ensures LogAndApplyOn(s, disk, e, Luckily(ok), w).2 == if ok then OK else Failed
  {
  }

  function ResultOfCall(r: (VersionState, Disk), c: Call): Status
    requires c.Log? && CallShaped(c) && |r.0.pointers| == NUM_LEVELS
  {
    LogAndApplyOn(r.0, r.1, c.edit, c.io, c.window).2
  }

  /** The results of the calls of LogAndApply in a run. */
  function Statuses(s: VersionState, disk: Disk, cs: seq<Call>): seq<Status>
    requires |s.pointers| == NUM_LEVELS && forall i :: 0 <= i < |cs| ==> CallShaped(cs[i])
  {
    if cs == [] then []
    else
      var init, c := cs[..|cs| - 1], cs[|cs| - 1];
      assert CallShaped(c);
      Statuses(s, disk, init) + if c.Log? then [ResultOfCall(RunOn(s, disk, init), c)] else []
  }

  /** The outcomes of the machine's writes to the manifest. */
  function Commits(actions: seq<Action>): seq<Status> {
    if actions == [] then []
    else (if actions[0].ACommit? then [if actions[0].ok then OK else Failed] else []) + Commits(actions[1..])
  }

  /** The version set and the disk are where the machine's manifest is. */
  ghost predicate Tracks(st: Store, all: map<nat, FileMeta>, s: VersionState, disk: Disk) {
    && Consistent(all, s, disk) && s.nextFile <= st.nextFile
    && Replay(disk.files, s.dbname) == Some(st.manifest) && st.manifest == Recovered(s.current, s.logNumber)
  }

  /** A run of calls that has brought the disk there. */
  ghost predicate Reached(st: Store, all: map<nat, FileMeta>, s: VersionState, disk: Disk, cs: seq<Call>,
                          results: seq<Status>) {
    && |s.pointers| == NUM_LEVELS && ProperRun(all, s, disk, cs) && Statuses(s, disk, cs) == results
    && Tracks(st, all, RunOn(s, disk, cs).0, RunOn(s, disk, cs).1)
  }

  lemma ProperMore(all: map<nat, FileMeta>, s: VersionState, disk: Disk, cs: seq<Call>, c: Call)
    requires |s.pointers| == NUM_LEVELS && ProperRun(all, s, disk, cs) && CallShaped(c)
    requires CallOk(all, RunOn(s, disk, cs).0, c)
    ensures ProperRun(all, s, disk, cs + [c])
    ensures RunOn(s, disk, cs + [c]) == StepOn(RunOn(s, disk, cs).0, RunOn(s, disk, cs).1, c)
    ensures Statuses(s, disk, cs + [c]) == Statuses(s, disk, cs) +
              if c.Log? then [ResultOfCall(RunOn(s, disk, cs), c)] else []
  {
    hide StepOn, CallOk, ResultOfCall;
    var cs' := cs + [c];
    assert cs'[..|cs|] == cs;
    forall i | 0 <= i < |cs'| ensures CallOk(all, RunOn(s, disk, cs'[..i]).0, cs'[i]) {
      assert i < |cs| ==> cs'[..i] == cs[..i];
    }
  }

  /** The counters of the version set catch up with those of the machine. */
  lemma CatchUp(st: Store, all: map<nat, FileMeta>, s: VersionState, disk: Disk, cs: seq<Call>, results: seq<Status>)
    returns (cs': seq<Call>)
    requires Reached(st, all, s, disk, cs, results)
    ensures Reached(st, all, s, disk, cs', results) && RunOn(s, disk, cs').0.nextFile == st.nextFile
  {
    var w := Window(st.nextFile, st.lastSequence);
    var (s1, d1) := RunOn(s, disk, cs);
    ProperMore(all, s, disk, cs, Advance(w));
    hide Consistent, Replay, ProperRun, Statuses, RunOn;
    FailingKeeps(all, s1, d1, EMPTY, w);
    NoPointers(s1.pointers);
    cs' := cs + [Advance(w)];
  }

  lemma NoPointers(pointers: seq<Option<InternalKey>>)
    ensures ApplyPointers(pointers, []) == pointers
  {
  }

  /** One write of the machine to its manifest is one call. */
  lemma OneCall(st: Store, job: Job, ok: bool, all: map<nat, FileMeta>, s: VersionState, disk: Disk, cs: seq<Call>,
                results: seq<Status>)
    returns (cs': seq<Call>)
    requires job.Logging? && HasEdit(st, job) && Extends(st.names, all)
    requires st.manifest == Recovered(st.current, st.logNumber)
    requires Reached(st, all, s, disk, cs, results) && RunOn(s, disk, cs).0.nextFile == st.nextFile
    ensures Reached(if ok then st.(manifest := Recovered(job.target, job.log)) else st, all, s, disk, cs',
                    results + [if ok then OK else Failed])
  {
    hide Consistent, Replay, Statuses, RunOn, Next, FreshAdds, NamedEdit, Below, Extends, LogAndApplyOn;
    var e :| EditFor(st, job, e);
    NamedEditGrows(st.names, all, e);
    var w := Window(st.nextFile, st.lastSequence);
    var (s1, d1) := RunOn(s, disk, cs);
    var c := Log(e, Luckily(ok), w);
    ProperMore(all, s, disk, cs, c);
    LuckDecides(s1, d1, e, ok, w);
    LogAndApplyAtomic(all, s1, d1, e, Luckily(ok), w);
    cs' := cs + [c];
  }

  // ---------------------------------------------------------------- runs

  /** Steps other than the write to the manifest leave it alone. */
  lemma ManifestStays(s: Db, a: Action, base: nat, origin: set<Entry>)
    requires Inv(s, base, origin) && Enabled(s, a) && !a.ACommit? && HasEdit(s.store, s.bg.job)
    ensures Step(s, a).store.manifest == s.store.manifest && Step(s, a).store.nextFile >= s.store.nextFile
    ensures Extends(s.store.names, Step(s, a).store.names) && HasEdit(Step(s, a).store, Step(s, a).bg.job)
  {
    hide Inv, Enqueue, Run, Start, LogFlush, AppendLog, SyncLog, InsertNext, Conclude, BeginRead, EndRead, ReadOne,
      SignalAll, EditFor;
    if a.AEnqueue? || a.ARun? {
      WriterStore(s, a);
      WriterJob(s, a);
      EditKeeps(s.store, Step(s, a).store, s.bg.job);
    } else if Foreground(a) {
      ForegroundSteady(s, a);
      EditKeeps(s.store, Step(s, a).store, s.bg.job);
    } else if a.AStart? {
      StartEdit(s, a.move, a.needs, base, origin);
    } else if a.ALogFlush? {
      LogFlushEdit(s, a.level, a.needs, base, origin);
    } else if a.ABuild? {
      NumberFree(s, base, origin);
    }
  }

  lemma NumberFree(s: Db, base: nat, origin: set<Entry>)
    requires Inv(s, base, origin) && s.bg.job.Building?
    ensures s.bg.job.number !in s.store.names
  {
    hide QueueOk, LeaderOk, ReadersOk, AccountsOk, StallOk, StoreOk;
  }

  lemma TracksMore(st: Store, st': Store, all: map<nat, FileMeta>, s: VersionState, disk: Disk, cs: seq<Call>,
                   results: seq<Status>)
    requires Reached(st, all, s, disk, cs, results) && st'.manifest == st.manifest && st'.nextFile >= st.nextFile
    ensures Reached(st', all, s, disk, cs, results)
  {
    hide Consistent, Replay, ProperRun, Statuses, RunOn;
  }

  lemma ManifestStep(s: Db, a: Action, base: nat, origin: set<Entry>, all: map<nat, FileMeta>,
                     v: VersionState, disk: Disk, cs: seq<Call>, results: seq<Status>) returns (cs': seq<Call>)
    requires Inv(s, base, origin) && Enabled(s, a) && HasEdit(s.store, s.bg.job) && Extends(s.store.names, all)
    requires Reached(s.store, all, v, disk, cs, results)
    ensures HasEdit(Step(s, a).store, Step(s, a).bg.job)
    ensures Reached(Step(s, a).store, all, v, disk, cs', results + Commits([a]))
  {
    CommitsOne(a);
    hide Reached, HasEdit, StoreOk, QueueOk, LeaderOk, ReadersOk, AccountsOk, StallOk, Commits;
    if a.ACommit? {
      cs' := CatchUp(s.store, all, v, disk, cs, results);
      cs' := OneCall(s.store, s.bg.job, a.ok, all, v, disk, cs', results);
      NotLogging(Step(s, a));
    } else {
      ManifestStays(s, a, base, origin);
      TracksMore(s.store, Step(s, a).store, all, v, disk, cs, results);
      assert results + Commits([a]) == results;
      cs' := cs;
    }
  }

  lemma NotLogging(s: Db)
    requires !s.bg.job.Logging?
    ensures HasEdit(s.store, s.bg.job)
  {
  }

  lemma CommitsOne(a: Action)
    ensures Commits([a]) == if a.ACommit? then [if a.ok then OK else Failed] else []
  {
    assert [a][1..] == [];
  }

  /** Names are never taken back. */
  lemma {:induction false} NamesGrow(s: Db, actions: seq<Action>, base: nat, origin: set<Entry>)
    requires Inv(s, base, origin) && Possible(s, actions) && HasEdit(s.store, s.bg.job)
    ensures Extends(s.store.names, Execute(s, actions).store.names)
    decreases |actions|
  {
    hide Inv, Step, Enabled, HasEdit;
    if actions != [] {
      StepKeeps(s, actions[0], base, origin);
      NamesStep(s, actions[0], base, origin);
      NamesGrow(Step(s, actions[0]), actions[1..], base, origin);
    }
  }

  lemma NamesStep(s: Db, a: Action, base: nat, origin: set<Entry>)
    requires Inv(s, base, origin) && Enabled(s, a) && HasEdit(s.store, s.bg.job)
    ensures Extends(s.store.names, Step(s, a).store.names) && HasEdit(Step(s, a).store, Step(s, a).bg.job)
  {
    hide Inv, HasEdit, Enqueue, Run, AppendLog, SyncLog, InsertNext, Conclude, Start, Build, LogFlush, InstallVersion,
      BeginRead, EndRead;
    if a.ACommit? {
      NotLogging(Step(s, a));
    } else {
      ManifestStays(s, a, base, origin);
    }
  }

  lemma {:induction false} ManifestRun(s: Db, actions: seq<Action>, base: nat, origin: set<Entry>, all: map<nat,
                                       FileMeta>,
                                       v: VersionState, disk: Disk, cs: seq<Call>, results: seq<Status>)
    returns (cs': seq<Call>)
    requires Inv(s, base, origin) && Possible(s, actions) && HasEdit(s.store, s.bg.job)
    requires Extends(Execute(s, actions).store.names, all) && Reached(s.store, all, v, disk, cs, results)
    ensures Reached(Execute(s, actions).store, all, v, disk, cs', results + Commits(actions))
    decreases |actions|
  {
    hide Inv, Step, Enabled, Reached, HasEdit, Extends;
    if actions == [] {
      assert results + Commits(actions) == results;
      cs' := cs;
    } else {
      NamesGrow(s, actions, base, origin);
      ExtendsBoth(s.store.names, Execute(s, actions).store.names, all);
      StepKeeps(s, actions[0], base, origin);
      cs' := ManifestStep(s, actions[0], base, origin, all, v, disk, cs, results);
      cs' := ManifestRun(Step(s, actions[0]), actions[1..], base, origin, all, v, disk, cs',
                         results + Commits([actions[0]]));
      CommitsOne(actions[0]);
      assert results + Commits([actions[0]]) + Commits(actions[1..]) == results + Commits(actions);
    }
  }

  lemma ExtendsBoth(a: map<nat, FileMeta>, b: map<nat, FileMeta>, c: map<nat, FileMeta>)
    requires Extends(a, b) && Extends(b, c)
    ensures Extends(a, c)
  {
  }

  // ---------------------------------------------------------------- restart

  /** A run of admissible calls whose results are those of the machine's writes to its manifest. */
  ghost predicate WritesAs(names: map<nat, FileMeta>, v: VersionState, disk: Disk, cs: seq<Call>,
                           actions: seq<Action>)
  {
    |v.pointers| == NUM_LEVELS && ProperRun(names, v, disk, cs) && Statuses(v, disk, cs) == Commits(actions)
  }

  /** A restart from the disk that the calls leave finds every entry that was inserted. */
  ghost predicate FindsAll(st: Store, v: VersionState, disk: Disk, cs: seq<Call>)
    requires |v.pointers| == NUM_LEVELS && forall i :: 0 <= i < |cs| ==> CallShaped(cs[i])
  {
    var found := Replay(RunOn(v, disk, cs).1.files, v.dbname);
    && found == Some(st.manifest)
    && History(st) <= Recoverable(st.(manifest := found.value))
  }

  /** A manifest that is open, or was opened by a call of this run, names a next file that no table and no
      log in it has reached; the machine has not reached it before it was written. */
  ghost predicate NumbersLeft(st: Store, v: VersionState, disk: Disk, cs: seq<Call>, results: seq<Status>)
    requires |v.pointers| == NUM_LEVELS && forall i :: 0 <= i < |cs| ==> CallShaped(cs[i])
  {
    v.descriptor || OK in results ==> NextFileCovers(RunOn(v, disk, cs).1.files, v.dbname, st.nextFile)
  }

  /** A call that succeeds leaves a manifest open. */
  lemma {:induction false} OpenAfter(s: VersionState, disk: Disk, cs: seq<Call>)
    requires |s.pointers| == NUM_LEVELS && forall i :: 0 <= i < |cs| ==> CallShaped(cs[i])
    requires s.descriptor || OK in Statuses(s, disk, cs)
    ensures RunOn(s, disk, cs).0.descriptor
  {
    if cs != [] {
      var init, c := cs[..|cs| - 1], cs[|cs| - 1];
      var (s1, d1) := RunOn(s, disk, init);
      assert CallShaped(c);
      if s.descriptor || OK in Statuses(s, disk, init) { OpenAfter(s, disk, init); }
      if c.Log? { LogAndApplyLeaves(s1, d1, c.edit, c.io, c.window); }
      hide LogAndApplyOn, Replay, Snapshot, PointersSet;
    }
  }

  /** Every run of the machine writes its manifest as some run of LogAndApply calls does, each of them
      admissible, with the same results in the same order; so a restart that follows CURRENT on the
      resulting disk finds the machine's manifest, with it every entry that was inserted, and a next-file
      number above all tables and logs that the manifest mentions. */
  lemma RestartFromDisk(s: Db, actions: seq<Action>, v: VersionState, disk: Disk)
    requires Opened(s) && Possible(s, actions)
    requires Consistent(s.store.names, v, disk) && v.current == s.store.current && v.logNumber == s.store.logNumber
    requires v.nextFile <= s.store.nextFile && Replay(disk.files, v.dbname) == Some(s.store.manifest)
    ensures var s' := Execute(s, actions);
            exists cs :: WritesAs(s'.store.names, v, disk, cs, actions) && FindsAll(s'.store, v, disk, cs) &&
              NumbersLeft(s'.store, v, disk, cs, Commits(actions))
  {
    hide NumbersLeft, Inv, Execute, Possible, Opened, Consistent, Reached, Entries, HasEdit, Extends, WritesAs,
      FindsAll, Replay;
    var s', base, origin := Execute(s, actions), s.store.lastSequence, Entries(s.store.current, s.store.tables);
    OpenedOk(s);
    InvAfter(s, actions);
    OpenedReached(s, v, disk);
    NamesGrow(s, actions, base, origin);
    ConsistentGrows(s.store.names, s'.store.names, v, disk);
    StartReached(s.store, s'.store.names, v, disk);
    ExtendsItself(s'.store.names);
    var cs := ManifestRun(s, actions, base, origin, s'.store.names, v, disk, [], []);
    assert [] + Commits(actions) == Commits(actions);
    CrashSafe(s', base, origin);
    ReachedFinds(s'.store, s'.store.names, v, disk, cs, actions);
  }

  lemma ExtendsItself(names: map<nat, FileMeta>)
    ensures Extends(names, names)
  {
  }

  lemma ReachedFinds(st: Store, names: map<nat, FileMeta>, v: VersionState, disk: Disk, cs: seq<Call>,
                     actions: seq<Action>)
    requires Reached(st, names, v, disk, cs, Commits(actions)) && History(st) <= Recoverable(st)
    ensures WritesAs(names, v, disk, cs, actions) && FindsAll(st, v, disk, cs)
    ensures NumbersLeft(st, v, disk, cs, Commits(actions))
  {
    if v.descriptor || OK in Commits(actions) {
      OpenAfter(v, disk, cs);
      Covered(names, RunOn(v, disk, cs).0, RunOn(v, disk, cs).1);
    }
    hide Replay, Consistent, History, Recoverable, RunOn, Statuses, Commits;
    assert st.(manifest := st.manifest) == st;
  }

  lemma OpenedReached(s: Db, v: VersionState, disk: Disk)
    requires Opened(s) && Consistent(s.store.names, v, disk)
    ensures HasEdit(s.store, s.bg.job) && s.store.manifest == Recovered(s.store.current, s.store.logNumber)
    ensures |v.pointers| == NUM_LEVELS
  {
  }

  lemma StartReached(st: Store, all: map<nat, FileMeta>, v: VersionState, disk: Disk)
    requires Consistent(all, v, disk) && v.current == st.current && v.logNumber == st.logNumber
    requires |v.pointers| == NUM_LEVELS
    requires v.nextFile <= st.nextFile && Replay(disk.files, v.dbname) == Some(st.manifest)
    requires st.manifest == Recovered(st.current, st.logNumber)
    ensures Reached(st, all, v, disk, [], [])
  {
    hide Consistent, Replay;
  }

  // ---------------------------------------------------------------- the assertion of MaybeAddFile

  /** Every file spans from its smallest to its largest key. */
  ghost predicate Ranged(names: map<nat, FileMeta>) {
    forall n :: n in names ==> Compare(names[n].smallest, names[n].largest) <= 0
  }

  lemma DescribedRange(f: FileMeta, es: set<Entry>)
    requires Describes(f, es)
    ensures Compare(f.smallest, f.largest) <= 0
  {
    var first, last :| first in es && last in es && IsFirst(first, es) && IsLast(last, es) &&
      f.smallest == InternalKey(first.key, first.sequence) && f.largest == InternalKey(last.key, last.sequence);
  }

  /** Only a table that was built gets a name. */
  lemma NamesStay(s: Db, a: Action)
    requires Enabled(s, a) && !a.ABuild?
    ensures Step(s, a).store.names == s.store.names
  {
    hide Enqueue, Run, Next, SignalAll, Retired, ReadOne, MaybeSchedule, AppendLog, SyncLog, InsertNext, Conclude,
      BeginRead, EndRead;
    if a.AEnqueue? || a.ARun? {
      WriterStore(s, a);
    } else if Foreground(a) {
      ForegroundSteady(s, a);
    }
  }

  lemma RangedStep(s: Db, a: Action)
    requires Enabled(s, a) && Ranged(s.store.names)
    ensures Ranged(Step(s, a).store.names)
  {
    hide Describes, Enqueue, Run, Next, SignalAll, Retired, ReadOne, MaybeSchedule, AppendLog, SyncLog, InsertNext,
      Conclude, Start, LogFlush, InstallVersion, BeginRead, EndRead;
    if a.ABuild? {
      if s.store.Imm().entries != {} { DescribedRange(a.file, s.store.Imm().entries); }
    } else {
      NamesStay(s, a);
    }
  }

  lemma {:induction false} RangedRun(s: Db, actions: seq<Action>)
    requires Possible(s, actions) && Ranged(s.store.names)
    ensures Ranged(Execute(s, actions).store.names)
    decreases |actions|
  {
    hide Step, Enabled, Ranged;
    if actions != [] {
      RangedStep(s, actions[0]);
      RangedRun(Step(s, actions[0]), actions[1..]);
    }
  }

  lemma SaneAdjacent(names: map<nat, FileMeta>, v: Levels, tables: Tables, l: nat)
    requires Sane(names, v, tables) && Ranged(names) && 0 < l < NUM_LEVELS
    ensures AdjacentDisjoint(v[l])
  {
    assert Strict(v[l]) && Named(names, Elems(v[l]));
    forall i | 0 < i < |v[l]| ensures Compare(v[l][i - 1].largest, v[l][i].smallest) < 0 {
      var f, g := v[l][i - 1], v[l][i];
      assert f in Elems(v[l]) && g in Elems(v[l]) && HasFile(v, l, f) && HasFile(v, l, g);
      assert Before(f, g) && !Overlap(f, g);
    }
  }

  /** In no run of flushes and moves does the assertion of MaybeAddFile fail: neither the current version
      nor one that is about to be installed has adjacent files above level 0 that overlap. */
  lemma NeverTrips(s: Db, actions: seq<Action>, l: nat)
    requires Opened(s) && Possible(s, actions) && Ranged(s.store.names) && 0 < l < NUM_LEVELS
    ensures var s' := Execute(s, actions);
            && AdjacentDisjoint(s'.store.current[l])
            && (s'.bg.job.Logging? || s'.bg.job.Written? ==> AdjacentDisjoint(s'.bg.job.target[l]))
  {
    var s', base, origin := Execute(s, actions), s.store.lastSequence, Entries(s.store.current, s.store.tables);
    InvAfter(s, actions);
    RangedRun(s, actions);
    hide Execute, Possible, Opened, Entries, Inv, Sane, Ranged, AdjacentDisjoint;
    TargetSane(s', base, origin);
    SaneAdjacent(s'.store.names, s'.store.current, s'.store.tables, l);
    if s'.bg.job.Logging? || s'.bg.job.Written? {
      SaneAdjacent(s'.store.names, s'.bg.job.target, s'.store.tables, l);
    }
  }

  lemma TargetSane(s: Db, base: nat, origin: set<Entry>)
    requires Inv(s, base, origin)
    ensures Sane(s.store.names, s.store.current, s.store.tables)
    ensures s.bg.job.Logging? || s.bg.job.Written? ==> Sane(s.store.names, s.bg.job.target, s.store.tables)
  {
    hide QueueOk, LeaderOk, ReadersOk, AccountsOk, StallOk, Sane, Entries, MemsOk, Union;
  }
}
