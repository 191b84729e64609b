/** The background thread: when a call is scheduled, what it does, that the flush of an immutable memtable
    is carried through, and that a closing database comes to rest. */
module DbWork {
  import opened DbFormat
  import opened VersionEdits
  import opened BuilderSpec
  import opened VersionReads
  import opened ManifestSpec
  import opened DbStore
  import opened DbQueue
  import opened DbMachine
  import opened DbInvariants
  import opened DbSteps
  import opened DbBackground
  import opened DbTheorems
  import opened DbGroups
  import opened DbLogs
  import opened DbManifest

  // ---------------------------------------------------------------- when a call is scheduled

  /** The version needs a compaction for other reasons than its level 0, as this step finds. */
  predicate OtherNeeds(a: Action) {
    match a
    case AEnqueue(_, _, _, luck) => luck.needs
    case ARun(_, luck) => luck.needs
    case AStart(_, needs) => needs
    case ALogFlush(_, needs) => needs
    case AInstall(needs) => needs
    case AEnd(_, update, needs) => update && needs
    case _ => false
  }

  predicate HasWork(st: Store, other: bool) {
    st.imm || |st.current[0]| >= COMPACTION_TRIGGER || other
  }

  lemma ProceedSchedules(s: Db, force: bool, allowDelay: bool, o: Luck)
    requires s.queue.queue != [] && s.queue.queue[0] in s.queue.writers && s.store.mems != []
    ensures var s' := Proceed(s, force, allowDelay, o);
            s'.bg == s.bg || (s'.store.imm && s'.bg == MaybeSchedule(s.bg, true, NeedsCompaction(s'.store.current,
                                                                                                 o.needs)))
  {
    hide MakeRoom, MaybeSchedule, Retired, Stamp, Ops, GroupSize, Moved;
    MakeRoomContract(s.store, s.bg, force, allowDelay, o);
  }

  lemma WriterSchedules(s: Db, a: Action)
    requires Enabled(s, a) && (a.AEnqueue? || a.ARun?)
    ensures var s' := Step(s, a);
            s'.bg == s.bg || (s'.store.imm && exists needs :: s'.bg == MaybeSchedule(s.bg, true, needs))
  {
    hide Proceed, Moved, Pushed, MaybeSchedule;
    match a
    case AEnqueue(id, batch, sync, o) =>
      if s.queue.queue == [] {
        var w := Writer(batch, sync, false, OK, Parked(true));
        PushedFirst(s.queue, id, w);
        ProceedSchedules(s.(queue := Pushed(s.queue, id, w)), batch.None?, !batch.None?, o);
      }
    case ARun(id, o) =>
      if s.queue.queue != [] && s.queue.queue[0] == id {
        var w := s.queue.writers[id];
        match w.pc
        case Parked(_) => ProceedSchedules(s, w.batch.None?, !w.batch.None?, o);
        case Napping(force) => ProceedSchedules(s, force, false, o);
        case Stalled(force, allowDelay, _) => ProceedSchedules(s, force, allowDelay, o);
        case _ =>
      }
  }

  /** A step schedules a call only if there is work, no error, and the database is not closing; a step that
      only starts a call or does not concern scheduling schedules none. */
  lemma CallsForWork(s: Db, a: Action)
    requires Enabled(s, a)
    requires Step(s, a).bg.queuedCalls > s.bg.queuedCalls - (if a.AStart? then 1 else 0)
    ensures var s' := Step(s, a);
            && HasWork(s'.store, OtherNeeds(a)) && !s'.bg.failed && !s'.bg.shuttingDown
            && s'.bg.scheduled
  {
    hide Next, SignalAll, Retired, ReadOne, Enqueue, Run;
    if a.AEnqueue? || a.ARun? { WriterSchedules(s, a); }
  }

  ghost predicate AllAwake(q: Queue) {
    forall id :: id in q.writers && q.writers[id].pc.Stalled? ==> q.writers[id].pc.woken
  }

  /** When a call ends all stalled writers are awake, and the next call is scheduled exactly if there is
      more work and neither an error nor the end of the database stands against it. */
  lemma CallEnds(s: Db, a: Action)
    requires Enabled(s, a) && Step(s, a).bg.job.Idle? && (a.AStart? || !s.bg.job.Idle?)
    ensures var s' := Step(s, a);
            && (s'.bg.scheduled <==>
                  HasWork(s'.store, OtherNeeds(a)) && !s'.bg.failed && !s'.bg.shuttingDown)
            && AllAwake(s'.queue)
  {
    hide Next, ReadOne, Tail, Fail, WithVersion, AllAwake, Enqueue, Run, AppendLog, SyncLog, InsertNext, Conclude,
      BeginRead, EndRead;
    if a.AEnqueue? || a.ARun? { WriterJob(s, a); } else if Foreground(a) { ForegroundSteady(s, a); }
    match a
    case AStart(_, needs) => TailEnds(s.(bg := s.bg.(queuedCalls := s.bg.queuedCalls - 1)), needs);
    case ALogFlush(_, needs) => TailEnds(Fail(s), needs);
    case AInstall(needs) =>
      var j := s.bg.job;
      TailEnds(s.(store := WithVersion(s.store, j.target, j.log, j.flush)), needs);
      TailEnds(Fail(s), needs);
    case _ =>
  }

  lemma TailEnds(s: Db, needs: bool)
    ensures var s' := Tail(s, needs);
            && (s'.bg.scheduled <==> HasWork(s'.store, needs) && !s'.bg.failed && !s'.bg.shuttingDown)
            && AllAwake(s'.queue)
  {
  }

  /** A Get that finds that a file is worth compacting has a call scheduled. */
  lemma SeekSchedules(s: Db, id: nat, needs: bool)
    requires Enabled(s, AEnd(id, true, needs)) && HasWork(s.store, needs) && !s.bg.failed && !s.bg.shuttingDown
    ensures Step(s, AEnd(id, true, needs)).bg.scheduled
  {
  }

  // ---------------------------------------------------------------- what a call does

  /** A call that starts does nothing exactly if the database is closing, has an error, or has neither an
      immutable memtable nor a file to move; an immutable memtable is flushed before any file is moved. */
  lemma StartExact(s: Db, move: Option<(nat, FileMeta)>, needs: bool)
    requires Enabled(s, AStart(move, needs))
    ensures var s' := Step(s, AStart(move, needs));
            var idle := s.bg.shuttingDown || s.bg.failed || (!s.store.imm && move.None?);
            && (s'.bg.job.Idle? <==> idle) && (idle ==> s'.store == s.store)
            && (!idle && s.store.imm ==>
                  s'.bg.job == Building(s.store.nextFile, s.store.current) &&
                  s'.store == s.store.(nextFile := s.store.nextFile + 1))
            && (!idle && !s.store.imm ==>
                  s'.store == s.store && s'.bg.job == Logging(s.store.current, Next(s.store.current,
                  MoveEdit(move.value.0, move.value.1)), s.store.logNumber, false))
  {
    hide Next, SignalAll;
  }

  /** A flush goes on to the manifest exactly if its table was built and the database is not closing;
      otherwise the error is recorded and the call ends. */
  lemma FlushGoesOn(s: Db, level: nat, needs: bool)
    requires Enabled(s, ALogFlush(level, needs))
    ensures var s' := Step(s, ALogFlush(level, needs));
            && s'.store == s.store
            && if s.bg.job.ok && !s.bg.shuttingDown then
                 s'.bg.job.Logging? && s'.bg.job.flush && s'.bg.job.log == s.store.LogfileNumber()
               else s'.bg.job.Idle? && s'.bg.failed
  {
    hide Next, SignalAll;
  }

  /** The version that a flush writes to the manifest has the new table on the level that was picked, and
      otherwise the files of the current version; without a table it has just those. */
  lemma FlushTarget(s: Db, first: seq<Action>, level: nat, needs: bool)
    requires Opened(s) && Possible(s, first) && Enabled(Execute(s, first), ALogFlush(level, needs))
    requires var s0 := Execute(s, first); s0.bg.job.ok && !s0.bg.shuttingDown
    ensures var s0 := Execute(s, first);
            var s' := Step(s0, ALogFlush(level, needs));
            s'.bg.job.Logging? && forall l, g :: HasFile(s'.bg.job.target, l, g) <==>
              HasFile(s0.store.current, l, g) || (l == level && s0.bg.job.file == Some(g))
  {
    hide Execute, Possible, Opened, Entries, Inv, Step, Enabled, HasFile;
    InvAfter(s, first);
    FlushTargetAt(Execute(s, first), level, needs, s.store.lastSequence, Entries(s.store.current, s.store.tables));
  }

  lemma FlushTargetAt(s: Db, level: nat, needs: bool, base: nat, origin: set<Entry>)
    requires Inv(s, base, origin) && Enabled(s, ALogFlush(level, needs)) && s.bg.job.ok && !s.bg.shuttingDown
    ensures var s' := Step(s, ALogFlush(level, needs));
            s'.bg.job.Logging? && forall l, g :: HasFile(s'.bg.job.target, l, g) <==>
              HasFile(s.store.current, l, g) || (l == level && s.bg.job.file == Some(g))
  {
    hide QueueOk, LeaderOk, StallOk, AccountsOk, ReadersOk, MemsOk, LogsOk, Next, HasFile, Placeable, Entries, Union,
      SignalAll;
    var st := s.store;
    match s.bg.job.file
    case Some(f) =>
      ImmIsNewer(st, Bound(st.lastSequence, s.leader));
      FlushLevels(st.names, st.current, st.tables, level, f, st.Imm().entries);
    case None => EmptyEdit(st.current);
  }

  /** The version that a trivial move writes to the manifest has the file one level below, and otherwise the
      files of the current version. */
  lemma MoveTarget(s: Db, first: seq<Action>, level: nat, f: FileMeta, needs: bool)
    requires Opened(s) && Possible(s, first) && Enabled(Execute(s, first), AStart(Some((level, f)), needs))
    requires var s0 := Execute(s, first); !s0.bg.shuttingDown && !s0.bg.failed && !s0.store.imm
    ensures var s0 := Execute(s, first);
            var s' := Step(s0, AStart(Some((level, f)), needs));
            s'.bg.job.Logging? && forall l, g :: HasFile(s'.bg.job.target, l, g) <==>
              (HasFile(s0.store.current, l, g) && !(l == level && g == f)) || (l == level + 1 && g == f)
  {
    hide Execute, Possible, Opened, Entries, Inv, Step, Enabled, HasFile;
    InvAfter(s, first);
    MoveTargetAt(Execute(s, first), level, f, needs, s.store.lastSequence, Entries(s.store.current, s.store.tables));
  }

  lemma MoveTargetAt(s: Db, level: nat, f: FileMeta, needs: bool, base: nat, origin: set<Entry>)
    requires Inv(s, base, origin) && Enabled(s, AStart(Some((level, f)), needs))
    requires !s.bg.shuttingDown && !s.bg.failed && !s.store.imm
    ensures var s' := Step(s, AStart(Some((level, f)), needs));
            s'.bg.job.Logging? && forall l, g :: HasFile(s'.bg.job.target, l, g) <==>
              (HasFile(s.store.current, l, g) && !(l == level && g == f)) || (l == level + 1 && g == f)
  {
    hide QueueOk, LeaderOk, StallOk, AccountsOk, ReadersOk, MemsOk, LogsOk, Next, HasFile, Movable, Entries, Union,
      SignalAll;
    MoveLevels(s.store.names, s.store.current, s.store.tables, level, f);
  }

  /** A version whose record is in the manifest becomes the current one, with its log number; a flush then
      has no immutable memtable left.  If the write failed nothing changes and the error is recorded. */
  lemma InstallsTarget(s: Db, needs: bool)
    requires Enabled(s, AInstall(needs))
    ensures var s', j := Step(s, AInstall(needs)), s.bg.job;
            if j.ok then
              s'.store.current == j.target && s'.store.logNumber == j.log && s'.store.mems == s.store.mems &&
              s'.store.imm == (s.store.imm && !j.flush) && s'.bg.failed == s.bg.failed
            else s'.store == s.store && s'.bg.failed
  {
    hide SignalAll;
  }

  // ---------------------------------------------------------------- a table for every memtable

  lemma {:induction false} HasFirst(es: set<Entry>) returns (first: Entry)
    requires es != {}
    ensures first in es && IsFirst(first, es)
    decreases |es|
  {
    var e :| e in es;
    if es == {e} {
      first := e;
    } else {
      var f := HasFirst(es - {e});
      first := if Compare(InternalKey(f.key, f.sequence), InternalKey(e.key, e.sequence)) <= 0 then f else e;
    }
  }

  lemma {:induction false} HasLast(es: set<Entry>) returns (last: Entry)
    requires es != {}
    ensures last in es && IsLast(last, es)
    decreases |es|
  {
    var e :| e in es;
    if es == {e} {
      last := e;
    } else {
      var f := HasLast(es - {e});
      last := if Compare(InternalKey(e.key, e.sequence), InternalKey(f.key, f.sequence)) <= 0 then f else e;
    }
  }

  lemma TableFor(es: set<Entry>, number: nat) returns (f: FileMeta)
    ensures f.number == number && (es != {} ==> Describes(f, es))
  {
    f := FileMeta(number, 1, InternalKey(0, 0), InternalKey(0, 0));
    if es != {} {
      var first := HasFirst(es);
      var last := HasLast(es);
      f := FileMeta(number, 1, InternalKey(first.key, first.sequence), InternalKey(last.key, last.sequence));
    }
  }

  // ---------------------------------------------------------------- a flush that runs through

  function Flush(move: Option<(nat, FileMeta)>, f: FileMeta, level: nat, needs: bool): seq<Action> {
    [AStart(move, needs), ABuild(f, true), ALogFlush(level, needs), ACommit(true), AInstall(needs)]
  }

  /** The immutable memtable of st1 is in the tables of st2, nothing else has changed in the tables, and the
      logs that it needed are gone. */
  ghost predicate FlushedInto(st1: Store, st2: Store)
    requires st1.Shaped() && st1.imm
  {
    && !st2.imm && st2.mems == st1.mems
    && Entries(st2.current, st2.tables) == Entries(st1.current, st1.tables) + st1.Imm().entries
    && st2.logNumber == st1.LogfileNumber()
    && (forall n :: n in st2.logs <==> n in st1.logs && n >= st1.LogfileNumber())
    && (forall n :: n in st2.logs ==> st2.logs[n] == st1.logs[n])
  }

  /** A call is queued and finds an immutable memtable; f describes its table and may go to this level. */
  ghost predicate Flushable(s: Db, move: Option<(nat, FileMeta)>, f: FileMeta, level: nat) {
    && s.store.Shaped() && s.store.imm && s.bg.queuedCalls > 0 && !s.bg.failed && !s.bg.shuttingDown
    && (move.Some? ==> move.value.0 + 1 < NUM_LEVELS && Movable(s.store.current, move.value.0, move.value.1))
    && f.number == s.store.nextFile && level < NUM_LEVELS
    && (s.store.Imm().entries != {} ==>
          Describes(f, s.store.Imm().entries) && Placeable(s.store.current, level, f))
  }

  /** In every reachable state with an immutable memtable, a queued call, no error and no shutdown: for any
      description of the table and any level that the contract allows, the call can run through, and then
      the memtable is in tables, its logs are gone, and whoever waited is awake. */
  lemma FlushRuns(s: Db, first: seq<Action>, move: Option<(nat, FileMeta)>, f: FileMeta, level: nat, needs: bool)
    requires Opened(s) && Possible(s, first) && Flushable(Execute(s, first), move, f, level)
    ensures var s0 := Execute(s, first);
            Possible(s0, Flush(move, f, level, needs)) &&
            var s5 := Execute(s0, Flush(move, f, level, needs));
            s0.store.Shaped() && s0.store.imm && FlushedInto(s0.store, s5.store) && s5.bg.job.Idle? &&
            !s5.bg.failed && AllAwake(s5.queue)
  {
    hide Execute, Possible, Opened, Entries, Inv, FlushedInto, AllAwake, Enabled, Step;
    var s0 := Execute(s, first);
    var base, origin := s.store.lastSequence, Entries(s.store.current, s.store.tables);
    InvAfter(s, first);
    var s1, s2 := FlushBuilds(s0, base, origin, move, f, level, needs);
    var a := Flush(move, f, level, needs);
    StepKeeps(s0, a[0], base, origin);
    StepKeeps(s1, a[1], base, origin);
    var s3, s4, s5 := FlushFinishes(s2, base, origin, level, needs);
    BuiltImm(s1, f, base, origin);
    LastOfRun(s0, s1, s2, s3, s4, s5, a);
    FlushedSame(s0.store, s1.store, s2.store, s5.store);
  }

  lemma FlushFinishes(s: Db, base: nat, origin: set<Entry>, level: nat, needs: bool) returns (s3: Db, s4: Db, s5: Db)
    requires Inv(s, base, origin) && Enabled(s, ALogFlush(level, needs)) && s.store.Shaped() && s.store.imm
    requires s.bg.job.TableBuilt? && s.bg.job.ok && !s.bg.shuttingDown && !s.bg.failed
    ensures s3 == Step(s, ALogFlush(level, needs))
    ensures Enabled(s3, ACommit(true)) && s4 == Step(s3, ACommit(true))
    ensures Enabled(s4, AInstall(needs)) && s5 == Step(s4, AInstall(needs))
    ensures FlushedInto(s.store, s5.store) && s5.bg.job.Idle? && !s5.bg.failed && AllAwake(s5.queue)
  {
    hide Inv, Enabled, Step, FlushedInto, AllAwake;
    StepKeeps(s, ALogFlush(level, needs), base, origin);
    FlushGoesOn(s, level, needs);
    NoNewError(s, level, needs);
    s3 := Step(s, ALogFlush(level, needs));
    s4, s5 := FlushInstalls(s3, base, origin, needs);
  }

  lemma NoNewError(s: Db, level: nat, needs: bool)
    requires Enabled(s, ALogFlush(level, needs)) && s.bg.job.ok && !s.bg.shuttingDown && !s.bg.failed
    ensures !Step(s, ALogFlush(level, needs)).bg.failed
  {
    hide Next, SignalAll;
  }

  lemma FlushedSame(st0: Store, st1: Store, st2: Store, st5: Store)
    requires st0.Shaped() && st0.imm && st2.Shaped() && st2.imm && FlushedInto(st2, st5)
    requires st1 == st0.(nextFile := st0.nextFile + 1)
    requires st2.mems == st0.mems && st2.logs == st0.logs && st2.current == st0.current
    requires Entries(st2.current, st2.tables) == Entries(st1.current, st1.tables)
    ensures FlushedInto(st0, st5)
  {
  }

  /** A new table does not change what the current version holds. */
  lemma BuiltImm(s: Db, f: FileMeta, base: nat, origin: set<Entry>)
    requires Inv(s, base, origin) && Enabled(s, ABuild(f, true))
    ensures var st, st' := s.store, Step(s, ABuild(f, true)).store;
            Entries(st'.current, st'.tables) == Entries(st.current, st.tables)
  {
    hide QueueOk, LeaderOk, StallOk, AccountsOk, ReadersOk, MemsOk, Union, Describes;
    SaneGrows(s.store.names, s.store.current, s.store.tables, f, s.store.Imm().entries);
  }

  lemma FlushBuilds(s0: Db, base: nat, origin: set<Entry>, move: Option<(nat, FileMeta)>, f: FileMeta, level: nat,
                    needs: bool)
    returns (s1: Db, s2: Db)
    requires Inv(s0, base, origin) && Flushable(s0, move, f, level)
    ensures Enabled(s0, AStart(move, needs)) && s1 == Step(s0, AStart(move, needs))
    ensures Enabled(s1, ABuild(f, true)) && s2 == Step(s1, ABuild(f, true)) && Enabled(s2, ALogFlush(level, needs))
    ensures s1.store == s0.store.(nextFile := s0.store.nextFile + 1)
    ensures s2.bg.job.TableBuilt? && s2.bg.job.ok && !s2.bg.shuttingDown && !s2.bg.failed && s2.store.Shaped()
    ensures s2.store.mems == s0.store.mems && s2.store.imm && s2.store.logs == s0.store.logs
    ensures s2.store.current == s0.store.current
  {
    hide StoreOk, QueueOk, LeaderOk, StallOk, AccountsOk, ReadersOk, Describes, Placeable, Movable;
    s1 := Step(s0, AStart(move, needs));
    s2 := Step(s1, ABuild(f, true));
  }

  lemma FlushInstalls(s: Db, base: nat, origin: set<Entry>, needs: bool) returns (s4: Db, s5: Db)
    requires Inv(s, base, origin) && s.store.Shaped() && s.store.imm && s.bg.job.Logging? && s.bg.job.flush
    requires !s.bg.failed && s.bg.job.log == s.store.LogfileNumber()
    ensures Enabled(s, ACommit(true)) && s4 == Step(s, ACommit(true))
    ensures Enabled(s4, AInstall(needs)) && s5 == Step(s4, AInstall(needs))
    ensures FlushedInto(s.store, s5.store) && s5.bg.job.Idle? && !s5.bg.failed && AllAwake(s5.queue)
  {
    hide StoreOk, QueueOk, LeaderOk, StallOk, AccountsOk, ReadersOk, Sane, Entries;
    s4 := Step(s, ACommit(true));
    s5 := Step(s4, AInstall(needs));
    CallEnds(s4, AInstall(needs));
  }

  // ---------------------------------------------------------------- a flush among other steps

  predicate InBackground(a: Action) {
    a.AStart? || a.ABuild? || a.ALogFlush? || a.ACommit? || a.AInstall?
  }

  function CountBackground(actions: seq<Action>): nat {
    if actions == [] then 0 else (if InBackground(actions[0]) then 1 else 0) + CountBackground(actions[1..])
  }

  /** How many background steps memtable k still has to wait at most, unless there is an error or the
      database is closing: those of a move under way, and those of its own flush. */
  predicate Waits(s: Db, k: nat) {
    s.store.imm && k + 2 == |s.store.mems| && !s.bg.failed && !s.bg.shuttingDown
  }

  function Rank(s: Db, k: nat): nat {
    if !Waits(s, k) then 0
    else match s.bg.job
         case Idle => 5
         case Building(_, _) => 4
         case TableBuilt(_, _, _) => 3
         case Logging(_, _, _, flush) => if flush then 2 else 7
         case Written(_, _, _, flush, _) => if flush then 1 else 6
  }

  /** An earlier memtable stays as it is. */
  ghost predicate Keeps(st: Store, st': Store, k: nat) {
    k + 1 < |st.mems| <= |st'.mems| && st'.mems[k] == st.mems[k]
  }

  lemma ProceedWaits(s: Db, force: bool, allowDelay: bool, o: Luck)
    requires s.queue.queue != [] && s.queue.queue[0] in s.queue.writers && s.store.mems != [] && s.store.imm
    ensures Proceed(s, force, allowDelay, o).store == s.store && Proceed(s, force, allowDelay, o).bg == s.bg
  {
    hide MakeRoom, MaybeSchedule, Retired, Stamp, Ops, GroupSize, Moved;
    MakeRoomContract(s.store, s.bg, force, allowDelay, o);
  }

  /** While there is an immutable memtable writers do not switch. */
  lemma WriterWaits(s: Db, a: Action)
    requires Enabled(s, a) && (a.AEnqueue? || a.ARun?) && s.store.imm
    ensures Step(s, a).store == s.store && Step(s, a).bg == s.bg
  {
    hide Proceed, Moved, Pushed;
    match a
    case AEnqueue(id, batch, sync, o) =>
      if s.queue.queue == [] {
        var w := Writer(batch, sync, false, OK, Parked(true));
        PushedFirst(s.queue, id, w);
        ProceedWaits(s.(queue := Pushed(s.queue, id, w)), batch.None?, !batch.None?, o);
      }
    case ARun(id, o) =>
      if s.queue.queue != [] && s.queue.queue[0] == id {
        var w := s.queue.writers[id];
        match w.pc
        case Parked(_) => ProceedWaits(s, w.batch.None?, !w.batch.None?, o);
        case Napping(force) => ProceedWaits(s, force, false, o);
        case Stalled(force, allowDelay, _) => ProceedWaits(s, force, allowDelay, o);
        case _ =>
      }
  }

  lemma KeepsStep(s: Db, a: Action, k: nat)
    requires Enabled(s, a) && k + 1 < |s.store.mems|
    ensures Keeps(s.store, Step(s, a).store, k)
  {
    hide Next, SignalAll, Retired, ReadOne, MaybeSchedule, Enqueue, Run;
    if a.AEnqueue? || a.ARun? { WriterStore(s, a); }
  }

  lemma ForegroundRank(s: Db, a: Action, k: nat)
    requires Enabled(s, a) && Foreground(a) && k + 1 < |s.store.mems|
    ensures Rank(Step(s, a), k) <= Rank(s, k)
  {
    hide Next, SignalAll, Retired, ReadOne;
    ForegroundSteady(s, a);
  }

  lemma BackgroundRank(s: Db, a: Action, base: nat, origin: set<Entry>, k: nat)
    requires Inv(s, base, origin) && Enabled(s, a) && InBackground(a) && k + 1 < |s.store.mems|
    ensures Rank(Step(s, a), k) < Rank(s, k) || Rank(Step(s, a), k) == 0
  {
    hide StoreOk, QueueOk, LeaderOk, StallOk, AccountsOk, ReadersOk, Next, SignalAll, Target, TableOk, Taken, Movable,
      Describes, Placeable;
  }

  lemma RankStep(s: Db, a: Action, base: nat, origin: set<Entry>, k: nat)
    requires Inv(s, base, origin) && Enabled(s, a) && k + 1 < |s.store.mems|
    ensures Rank(Step(s, a), k) <= Rank(s, k)
    ensures InBackground(a) ==> Rank(Step(s, a), k) < Rank(s, k) || Rank(Step(s, a), k) == 0
  {
    hide Inv, Step, Enabled, Rank;
    if InBackground(a) {
      BackgroundRank(s, a, base, origin, k);
    } else if a.AEnqueue? || a.ARun? {
      WriterRank(s, a, k);
    } else {
      ForegroundRank(s, a, k);
    }
  }

  lemma WriterRank(s: Db, a: Action, k: nat)
    requires Enabled(s, a) && (a.AEnqueue? || a.ARun?) && k + 1 < |s.store.mems|
    ensures Rank(Step(s, a), k) <= Rank(s, k)
  {
    hide Step, Enabled;
    if s.store.imm { WriterWaits(s, a); } else { WriterStore(s, a); }
  }

  lemma {:induction false} RankRun(s: Db, actions: seq<Action>, base: nat, origin: set<Entry>, k: nat)
    requires Inv(s, base, origin) && Possible(s, actions) && k + 1 < |s.store.mems|
    ensures Keeps(s.store, Execute(s, actions).store, k)
    ensures Rank(Execute(s, actions), k) == 0 ||
            Rank(Execute(s, actions), k) + CountBackground(actions) <= Rank(s, k)
    decreases |actions|
  {
    hide Inv, Step, Enabled, Rank;
    if actions != [] {
      var s1 := Step(s, actions[0]);
      KeepsStep(s, actions[0], k);
      RankStep(s, actions[0], base, origin, k);
      StepKeeps(s, actions[0], base, origin);
      RankRun(s1, actions[1..], base, origin, k);
    }
  }

  /** The flush of an immutable memtable is carried through, whatever else runs: after at most seven steps
      of the background thread, anywhere in a run, its entries are in the tables of the current version,
      unless there is an error or the database is closing. */
  lemma FlushDone(s: Db, first: seq<Action>, rest: seq<Action>)
    requires Opened(s) && Possible(s, first) && Possible(Execute(s, first), rest)
    requires Execute(s, first).store.Shaped() && Execute(s, first).store.imm && CountBackground(rest) >= 7
    ensures var s0, s1 := Execute(s, first), Execute(Execute(s, first), rest);
            s0.store.Imm().entries <= Entries(s1.store.current, s1.store.tables) || s1.bg.failed ||
            s1.bg.shuttingDown
  {
    hide Execute, Possible, Opened, Entries, Inv, Rank, Union;
    var s0, base, origin := Execute(s, first), s.store.lastSequence, Entries(s.store.current, s.store.tables);
    var k := |s0.store.mems| - 2;
    var s1 := Execute(s0, rest);
    InvAfter(s, first);
    RankRun(s0, rest, base, origin, k);
    RankAtMost(s0, k);
    RunKeeps(s0, rest, base, origin);
    RankZero(s1, base, origin, k);
  }

  lemma RankAtMost(s: Db, k: nat)
    ensures Rank(s, k) <= 7
  {
  }

  lemma RankZero(s: Db, base: nat, origin: set<Entry>, k: nat)
    requires Inv(s, base, origin) && k + 1 < |s.store.mems| && Rank(s, k) == 0
    ensures s.store.mems[k].entries <= Entries(s.store.current, s.store.tables) || s.bg.failed || s.bg.shuttingDown
  {
    hide QueueOk, LeaderOk, StallOk, AccountsOk, ReadersOk, BgOk, Sane, Entries, MemsOk, LogsOk, NumbersOk;
    var st := s.store;
    if k < st.Flushed() { assert st.mems[..st.Flushed()][k] == st.mems[k]; }
  }

  /** ... and until then the background thread can always go on. */
  lemma FlushNeverStuck(s: Db, first: seq<Action>)
    requires Opened(s) && Possible(s, first)
    requires var s0 := Execute(s, first); s0.store.imm && !s0.bg.failed && !s0.bg.shuttingDown
    ensures exists a :: InBackground(a) && Enabled(Execute(s, first), a)
  {
    hide Execute, Possible, Opened, Entries, Inv, Enabled;
    InvAfter(s, first);
    ImmScheduled(Execute(s, first), s.store.lastSequence, Entries(s.store.current, s.store.tables));
    var a := NextInBackground(Execute(s, first), s.store.lastSequence, Entries(s.store.current, s.store.tables));
  }

  lemma ImmScheduled(s: Db, base: nat, origin: set<Entry>)
    requires Inv(s, base, origin) && s.store.imm && !s.bg.failed && !s.bg.shuttingDown
    ensures s.bg.scheduled
  {
    hide StoreOk, QueueOk, LeaderOk, StallOk, AccountsOk, ReadersOk;
  }

  lemma NextInBackground(s: Db, base: nat, origin: set<Entry>) returns (a: Action)
    requires Inv(s, base, origin) && s.bg.scheduled
    ensures InBackground(a) && Enabled(s, a)
  {
    hide QueueOk, LeaderOk, StallOk, AccountsOk, ReadersOk, Sane, Entries, MemsOk, LogsOk, NumbersOk, Replaces, TableOk,
      Taken, Describes;
    match s.bg.job
    case Idle => a := AStart(None, false);
    case Building(number, _) =>
      var f := TableFor(s.store.Imm().entries, number);
      a := ABuild(f, true);
    case TableBuilt(_, _, _) => a := ALogFlush(0, false);
    case Logging(_, _, _, _) => a := ACommit(true);
    case Written(_, _, _, _, _) => a := AInstall(false);
  }

  // ---------------------------------------------------------------- the end of the database

  /** How many background steps are left once the database is closing. */
  function LeftToDo(bg: Background): nat {
    bg.queuedCalls + match bg.job
                     case Idle => 0
                     case Building(_, _) => 2
                     case TableBuilt(_, _, _) => 1
                     case Logging(_, _, _, _) => 2
                     case Written(_, _, _, _, _) => 1
  }

  lemma ClosingStep(s: Db, a: Action)
    requires Enabled(s, a) && s.bg.shuttingDown
    ensures var s' := Step(s, a);
            && s'.bg.shuttingDown
            && LeftToDo(s'.bg) == LeftToDo(s.bg) - (if InBackground(a) then 1 else 0)
  {
    hide Next, SignalAll, Retired, ReadOne, Enqueue, Run;
    if a.AEnqueue? || a.ARun? { WriterSchedules(s, a); }
  }

  lemma {:induction false} ClosingRun(s: Db, actions: seq<Action>)
    requires Possible(s, actions) && s.bg.shuttingDown
    ensures Execute(s, actions).bg.shuttingDown
    ensures LeftToDo(Execute(s, actions).bg) == LeftToDo(s.bg) - CountBackground(actions)
    decreases |actions|
  {
    hide Step, Enabled, LeftToDo;
    if actions != [] {
      ClosingStep(s, actions[0]);
      ClosingRun(Step(s, actions[0]), actions[1..]);
    }
  }

  /** A database that closes comes to rest: whatever runs from then on, the background thread makes at most
      two more steps; while a call is scheduled it can make the next one, and after it has made the last no
      call is scheduled ever again. */
  lemma ClosingEnds(s: Db, first: seq<Action>, rest: seq<Action>)
    requires Opened(s) && Possible(s, first) && Enabled(Execute(s, first), AShutdown)
    requires Possible(Step(Execute(s, first), AShutdown), rest)
    ensures var s' := Execute(Step(Execute(s, first), AShutdown), rest);
            && s'.bg.shuttingDown && CountBackground(rest) <= 2
            && (CountBackground(rest) == 2 ==> !s'.bg.scheduled)
            && (s'.bg.scheduled ==> exists a :: InBackground(a) && Enabled(s', a))
  {
    hide Execute, Possible, Opened, Entries, Inv, Enabled;
    var base, origin := s.store.lastSequence, Entries(s.store.current, s.store.tables);
    var s0 := Execute(s, first);
    InvAfter(s, first);
    var s1 := Step(s0, AShutdown);
    StepKeeps(s0, AShutdown, base, origin);
    RunKeeps(s1, rest, base, origin);
    ClosingRun(s1, rest);
    LeftBounded(s1, base, origin);
    LeftBounded(Execute(s1, rest), base, origin);
    if Execute(s1, rest).bg.scheduled { var a := NextInBackground(Execute(s1, rest), base, origin); }
  }

  lemma LeftBounded(s: Db, base: nat, origin: set<Entry>)
    requires Inv(s, base, origin)
    ensures LeftToDo(s.bg) <= 2 && (LeftToDo(s.bg) == 0 <==> !s.bg.scheduled)
  {
    hide StoreOk, QueueOk, LeaderOk, StallOk, AccountsOk, ReadersOk;
  }
}
