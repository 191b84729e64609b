/** The write, flush and read protocol of DBImpl (leveldb/db/db_impl.cc) as a step machine.

    A step is what one thread does while it holds the mutex, or one access it makes in a window in
    which the mutex is released: sleeping and waiting in MakeRoomForWrite (278-281, 289, 293), writing
    the log and the memtable (345-357), building a table (99-101), writing the manifest
    (version_set.cc:346-364) and reading (407-418).  Any number of writers and readers take steps in
    any order; the environment runs one background call at a time.

    What the code takes from outside enters as a parameter of the step: whether a file operation
    succeeds, whether the memtable has room, which prefix of the queue BuildBatchGroup takes, what
    PickCompaction and PickLevelForMemTableOutput choose.  RecordBackgroundError, whose body is not in
    the repository, sets bg_error_ and signals background_work_finish_signal_; NeedsCompaction is true
    at least when level 0 has four files. */
module DbMachine {
  import opened DbFormat
  import opened VersionEdits
  import opened BuilderSpec
  import opened VersionReads
  import opened ManifestSpec
  import opened DbStore
  import opened DbQueue

  const SLOWDOWN_TRIGGER: nat := 8
  const STOP_TRIGGER: nat := 12
  const COMPACTION_TRIGGER: nat := 4

  /** Where the background call is. */
  datatype Job =
    | Idle
    | Building(number: nat, base: Levels)
    | TableBuilt(base: Levels, file: Option<FileMeta>, ok: bool)
    | Logging(base: Levels, target: Levels, log: nat, flush: bool)
    | Written(base: Levels, target: Levels, log: nat, flush: bool, ok: bool)

  datatype Background = Background(scheduled: bool, shuttingDown: bool, failed: bool, queuedCalls: nat, job: Job)

  datatype Stage = ToAppend | ToSync | ToInsert | Ended

  /** The leader's work on its group while the mutex is released. */
  datatype Leader = Leader(count: nat, record: Record, memAt: nat, stage: Stage, status: Status, syncError: bool,
                           logged: bool, inserted: nat)

  datatype ReadPc = AtMem | AtImm | AtVersion | Done(result: GetResult)

  /** A Get and the references it took: a memtable, perhaps the immutable one before it, a version. */
  datatype Reader = Reader(key: int, snapshot: nat, mem: nat, imm: bool, version: Levels, pc: ReadPc)

  datatype Db = Db(
    store: Store,
    queue: Queue,
    leader: Option<Leader>,
    bg: Background,
    readers: map<nat, Reader>,
    journal: seq<Record>,    // the records appended to logs, in order
    inserts: seq<Entry>)     // the entries inserted into memtables, in order

  // ---------------------------------------------------------------- scheduling

  function NeedsCompaction(version: Levels, other: bool): bool {
    other || |version[0]| >= COMPACTION_TRIGGER
  }

  /** MaybeScheduleCompaction. */
  function MaybeSchedule(bg: Background, imm: bool, needs: bool): Background {
    if bg.scheduled then bg
    else if bg.shuttingDown then bg
    else if bg.failed then bg
    else if !imm && !needs then bg
    else bg.(scheduled := true, queuedCalls := bg.queuedCalls + 1)
  }

  /** background_work_finish_signal_.SignalAll(). */
  function SignalAll(q: Queue): Queue {
    q.(writers := map id | id in q.writers ::
         var w := q.writers[id];
         if w.pc.Stalled? then w.(pc := w.pc.(woken := true)) else w)
  }

  // ---------------------------------------------------------------- MakeRoomForWrite

  /** What a writer meets: room in the memtable, a log file that can be created, room in a fresh
      memtable, other reasons to compact, and the group that BuildBatchGroup takes. */
  datatype Luck = Luck(room: bool, newFile: bool, freshRoom: bool, needs: bool, group: nat)

  datatype Room = Nap | Stall(force: bool) | Break(status: Status)

  /** The loop of MakeRoomForWrite from one acquisition of the mutex to the next release, or to the end.
      Line 268 is read as testing for an error. */
  function MakeRoom(st: Store, bg: Background, force: bool, allowDelay: bool, o: Luck): (r: (Store, Background, Room))
    ensures st.mems != [] ==> r.0.mems != []
    decreases !st.imm
  {
    if bg.failed then (st, bg, Break(Failed))
    else if allowDelay && |st.current[0]| >= SLOWDOWN_TRIGGER then (st, bg, Nap)
    else if !force && o.room then (st, bg, Break(OK))
    else if st.imm then (st, bg, Stall(force))
    else if |st.current[0]| >= STOP_TRIGGER then (st, bg, Stall(force))
    else if !o.newFile then (st, bg, Break(Failed))  // the number goes back: ReuseFileNumber
    else
      var st' := Switched(st);
      MakeRoom(st', MaybeSchedule(bg, st'.imm, NeedsCompaction(st'.current, o.needs)), false, allowDelay,
               o.(room := o.freshRoom))
  }

  // ---------------------------------------------------------------- writers

  /** A group that its leader retires without having tried to write. */
  function Bare(id: nat, status: Status): Group {
    Group([id], [], status, false, false, 0)
  }

  /** BuildBatchGroup: a non-empty prefix of the queue, all with batches. */
  function GroupSize(q: Queue, wish: nat): (n: nat)
    requires q.queue != [] && HasBatches(q.writers, q.queue[..1])
    ensures 0 < n <= |q.queue| && HasBatches(q.writers, q.queue[..n])
  {
    if 0 < wish <= |q.queue| && HasBatches(q.writers, q.queue[..wish]) then wish else 1
  }

  /** The front of the queue runs MakeRoomForWrite and, if it may go on, forms its group. */
  function Proceed(s: Db, force: bool, allowDelay: bool, o: Luck): Db
    requires s.queue.queue != [] && s.queue.queue[0] in s.queue.writers && s.store.mems != []
  {
    var (st, bg, room) := MakeRoom(s.store, s.bg, force, allowDelay, o);
    Decide(s.(store := st, bg := bg), room, force, allowDelay, o)
  }

  function Decide(s: Db, room: Room, force: bool, allowDelay: bool, o: Luck): Db
    requires s.queue.queue != [] && s.queue.queue[0] in s.queue.writers && s.store.mems != []
  {
    var id := s.queue.queue[0];
    match room
    case Nap => s.(queue := Moved(s.queue, id, Napping(force)))
    case Stall(f) => s.(queue := Moved(s.queue, id, Stalled(f, allowDelay, false)))
    case Break(status) =>
      if status == OK && s.queue.writers[id].batch.Some? then Lead(s, id, o)
      else s.(queue := Retired(s.queue, Bare(id, status)))
  }

  function Lead(s: Db, id: nat, o: Luck): Db
    requires s.queue.queue != [] && s.queue.queue[0] == id && id in s.queue.writers && s.queue.writers[id].batch.Some?
    requires s.store.mems != []
  {
    var n := GroupSize(s.queue, o.group);
    var record := Stamp(Ops(s.queue.writers, s.queue.queue[..n]), s.store.lastSequence + 1);
    s.(queue := Moved(s.queue, id, Leading),
       leader := Some(Leader(n, record, |s.store.mems| - 1, ToAppend, OK, false, false, 0)))
  }

  /** Write takes the mutex and queues up; alone in the queue it needs no signal and goes on at once. */
  function Enqueue(s: Db, id: nat, batch: Option<Batch>, sync: bool, o: Luck): Db
    requires s.store.mems != []
  {
    var w := Writer(batch, sync, false, OK, Parked(s.queue.queue == []));
    var s' := s.(queue := Pushed(s.queue, id, w));
    if s.queue.queue == [] then Proceed(s', batch.None?, !batch.None?, o) else s'
  }

  /** A writer's thread gets the mutex back: from cv.Wait(), the sleep or the wait for background work. */
  function Run(s: Db, id: nat, o: Luck): Db
    requires id in s.queue.writers && s.store.mems != []
  {
    var w := s.queue.writers[id];
    match w.pc
    case Parked(_) =>
      if w.done then s.(queue := Moved(s.queue, id, Returned))
      else if s.queue.queue != [] && s.queue.queue[0] == id then Proceed(s, w.batch.None?, !w.batch.None?, o)
      else s.(queue := Moved(s.queue, id, Parked(false)))
    case Napping(force) => if s.queue.queue != [] && s.queue.queue[0] == id then Proceed(s, force, false, o) else s
    case Stalled(force, allowDelay, _) =>
      if s.queue.queue != [] && s.queue.queue[0] == id then Proceed(s, force, allowDelay, o) else s
    case _ => s
  }

  // ---------------------------------------------------------------- the leader's window

  function AppendLog(s: Db, ok: bool): Db
    requires s.leader.Some? && s.queue.queue != [] && s.queue.queue[0] in s.queue.writers
    requires s.store.mems != [] && s.store.LogfileNumber() in s.store.logs
  {
    var w := s.leader.value;
    if ok then
      s.(store := Appended(s.store, w.record), journal := s.journal + [w.record],
         leader := Some(w.(logged := true,
                           stage := if s.queue.writers[s.queue.queue[0]].sync then ToSync else ToInsert)))
    else s.(leader := Some(w.(status := Failed, stage := Ended)))
  }

  function SyncLog(s: Db, ok: bool): Db
    requires s.leader.Some?
  {
    var w := s.leader.value;
    s.(leader := Some(if ok then w.(stage := ToInsert) else w.(status := Failed, syncError := true, stage := Ended)))
  }

  function InsertNext(s: Db, ok: bool): Db
    requires s.leader.Some? && s.store.mems != []
  {
    var w := s.leader.value;
    if w.inserted >= |w.record| then s.(leader := Some(w.(stage := Ended)))
    else if !ok then s.(leader := Some(w.(status := Failed, stage := Ended)))
    else
      s.(store := WithEntry(s.store, w.record[w.inserted]), inserts := s.inserts + [w.record[w.inserted]],
         leader := Some(w.(inserted := w.inserted + 1)))
  }

  /** The leader takes the mutex back: lines 357-380. */
  function Conclude(s: Db): Db
    requires s.leader.Some? && 0 < s.leader.value.count <= |s.queue.queue|
  {
    var w := s.leader.value;
    var q := if w.syncError then SignalAll(s.queue) else s.queue;
    var g := Group(s.queue.queue[..w.count], w.record, w.status, true, w.logged, w.inserted);
    s.(bg := s.bg.(failed := s.bg.failed || w.syncError),
       store := s.store.(lastSequence := s.store.lastSequence + |w.record|),
       queue := Retired(q, g),
       leader := None)
  }

  // ---------------------------------------------------------------- the background call

  /** The end of BackgroundCall: lines 194-199. */
  function Tail(s: Db, needs: bool): Db {
    s.(bg := MaybeSchedule(s.bg.(scheduled := false, job := Idle), s.store.imm,
                           NeedsCompaction(s.store.current, needs)),
       queue := SignalAll(s.queue))
  }

  function Fail(s: Db): Db {
    s.(bg := s.bg.(failed := true), queue := SignalAll(s.queue))
  }

  /** BackgroundCall starts: a flush, a trivial move, or nothing. */
  function Start(s: Db, move: Option<(nat, FileMeta)>, needs: bool): Db
    requires s.bg.queuedCalls > 0 && (move.Some? ==> move.value.0 + 1 < NUM_LEVELS)
  {
    var s' := s.(bg := s.bg.(queuedCalls := s.bg.queuedCalls - 1));
    if s.bg.shuttingDown || s.bg.failed then Tail(s', needs)
    else if s.store.imm then
      s'.(store := NewNumber(s.store), bg := s'.bg.(job := Building(s.store.nextFile, s.store.current)))
    else if move.None? then Tail(s', needs)
    else
      s'.(bg := s'.bg.(job := Logging(s.store.current, Next(s.store.current, MoveEdit(move.value.0, move.value.1)),
                                      s.store.logNumber, false)))
  }

  /** BuildTable: the table has exactly the entries of imm_; an empty memtable makes no table. */
  function Build(s: Db, file: FileMeta, ok: bool): Db
    requires s.bg.job.Building? && s.store.Shaped() && s.store.imm
  {
    var es := s.store.Imm().entries;
    var base := s.bg.job.base;
    if !ok then s.(bg := s.bg.(job := TableBuilt(base, None, false)))
    else if es == {} then s.(bg := s.bg.(job := TableBuilt(base, None, true)))
    else s.(store := Built(s.store, file, es), bg := s.bg.(job := TableBuilt(base, Some(file), true)))
  }

  /** CompactMemtable after the table: lines 102-120 and 139-149, up to the window of LogAndApply. */
  function LogFlush(s: Db, level: nat, needs: bool): Db
    requires s.bg.job.TableBuilt? && s.store.mems != [] && level < NUM_LEVELS
  {
    var job := s.bg.job;
    if !job.ok || s.bg.shuttingDown then Tail(Fail(s), needs)
    else
      var edit := if job.file.Some? then FlushEdit(level, job.file.value) else EMPTY;
      s.(bg := s.bg.(job := Logging(s.store.current, Next(s.store.current, edit), s.store.LogfileNumber(), true)))
  }

  /** The window of LogAndApply: the manifest gets the record, or does not (ManifestSpec.LogAndApplyAtomic). */
  function CommitManifest(s: Db, ok: bool): Db
    requires s.bg.job.Logging?
  {
    var j := s.bg.job;
    s.(bg := s.bg.(job := Written(j.base, j.target, j.log, j.flush, ok)),
       store := if ok then s.store.(manifest := Recovered(j.target, j.log)) else s.store)
  }

  /** LogAndApply takes the mutex back and installs; the call ends. */
  function InstallVersion(s: Db, needs: bool): Db
    requires s.bg.job.Written?
  {
    var j := s.bg.job;
    if j.ok then Tail(s.(store := WithVersion(s.store, j.target, j.log, j.flush)), needs)
    else Tail(Fail(s), needs)
  }

  // ---------------------------------------------------------------- readers

  function BeginRead(s: Db, id: nat, key: int, snapshot: Option<nat>): Db
    requires s.store.mems != []
  {
    var sequence := if snapshot.Some? then snapshot.value else s.store.lastSequence;
    s.(readers := s.readers[id := Reader(key, sequence, |s.store.mems| - 1, s.store.imm, s.store.current, AtMem)])
  }

  ghost function ReadOne(st: Store, r: Reader, outcomes: map<nat, Outcome>): Reader
    requires r.mem < |st.mems| && (r.imm ==> r.mem > 0)
  {
    match r.pc
    case AtMem =>
      var a := Lookup(st.mems[r.mem].entries, r.key, r.snapshot);
      r.(pc := if a.Some? then Done(ResultOf(a)) else if r.imm then AtImm else AtVersion)
    case AtImm =>
      if !r.imm then r else
      var a := Lookup(st.mems[r.mem - 1].entries, r.key, r.snapshot);
      r.(pc := if a.Some? then Done(ResultOf(a)) else AtVersion)
    case AtVersion =>
      r.(pc := Done(if Fails(SearchOrder(r.version, r.key), st.tables, r.key, r.snapshot, outcomes) then Error
                    else ResultOf(Lookup(Entries(r.version, st.tables), r.key, r.snapshot))))
    case Done(_) => r
  }

  function EndRead(s: Db, id: nat, update: bool, needs: bool): Db {
    s.(readers := s.readers - {id},
       bg := if update then MaybeSchedule(s.bg, s.store.imm, NeedsCompaction(s.store.current, needs)) else s.bg)
  }

  // ---------------------------------------------------------------- the machine

  datatype Action =
    | AEnqueue(id: nat, batch: Option<Batch>, sync: bool, luck: Luck)
    | ARun(id: nat, luck: Luck)
    | AAppend(ok: bool)
    | ASync(ok: bool)
    | AInsert(ok: bool)
    | AConclude
    | AStart(move: Option<(nat, FileMeta)>, needs: bool)
    | ABuild(file: FileMeta, ok: bool)
    | ALogFlush(level: nat, needs: bool)
    | ACommit(ok: bool)
    | AInstall(needs: bool)
    | ABegin(id: nat, key: int, snapshot: Option<nat>)
    | ARead(id: nat, outcomes: map<nat, Outcome>)
    | AEnd(id: nat, update: bool, needs: bool)
    | AShutdown

  /** meta describes the table that BuildTable makes of these entries. */
  ghost predicate Describes(f: FileMeta, es: set<Entry>) {
    exists first, last :: first in es && last in es && IsFirst(first, es) && IsLast(last, es) &&
      f.smallest == InternalKey(first.key, first.sequence) && f.largest == InternalKey(last.key, last.sequence)
  }

  ghost predicate IsFirst(first: Entry, es: set<Entry>) {
    forall e :: e in es ==> Compare(InternalKey(first.key, first.sequence), InternalKey(e.key, e.sequence)) <= 0
  }

  ghost predicate IsLast(last: Entry, es: set<Entry>) {
    forall e :: e in es ==> Compare(InternalKey(e.key, e.sequence), InternalKey(last.key, last.sequence)) <= 0
  }

  /** The steps that a state allows. */
  ghost predicate Enabled(s: Db, a: Action) {
    && s.store.Shaped()
    && match a
       case AEnqueue(id, _, _, _) => id !in s.queue.writers
       case ARun(id, _) => id in s.queue.writers
       case AAppend(_) =>
         && s.leader.Some? && s.leader.value.stage == ToAppend && s.queue.queue != [] &&
            s.queue.queue[0] in s.queue.writers
         && s.store.LogfileNumber() in s.store.logs
       case ASync(_) => s.leader.Some? && s.leader.value.stage == ToSync
       case AInsert(_) => s.leader.Some? && s.leader.value.stage == ToInsert
       case AConclude => s.leader.Some? && s.leader.value.stage == Ended && 0 < s.leader.value.count <= |s.queue.queue|
       case AStart(move, _) =>
         && s.bg.queuedCalls > 0 && s.bg.job == Idle
         && (move.Some? ==> move.value.0 + 1 < NUM_LEVELS && Movable(s.store.current, move.value.0, move.value.1))
       case ABuild(file, _) =>
         && s.bg.job.Building? && s.store.imm && file.number == s.bg.job.number
         && (s.store.Imm().entries != {} ==> Describes(file, s.store.Imm().entries))
       case ALogFlush(level, _) =>
         && s.bg.job.TableBuilt? && level < NUM_LEVELS
         && (s.bg.job.file.Some? ==> Placeable(s.bg.job.base, level, s.bg.job.file.value))
       case ACommit(_) => s.bg.job.Logging?
       case AInstall(_) => s.bg.job.Written?
       case ABegin(id, _, snapshot) => id !in s.readers && (snapshot.Some? ==> snapshot.value <= s.store.lastSequence)
       case ARead(id, _) =>
         id in s.readers && s.readers[id].mem < |s.store.mems| && (s.readers[id].imm ==> s.readers[id].mem > 0)
       case AEnd(id, _, _) => id in s.readers && s.readers[id].pc.Done?
       case AShutdown => true
  }

  ghost function Step(s: Db, a: Action): Db
    requires Enabled(s, a)
  {
    match a
    case AEnqueue(id, batch, sync, luck) => Enqueue(s, id, batch, sync, luck)
    case ARun(id, luck) => Run(s, id, luck)
    case AAppend(ok) => AppendLog(s, ok)
    case ASync(ok) => SyncLog(s, ok)
    case AInsert(ok) => InsertNext(s, ok)
    case AConclude => Conclude(s)
    case AStart(move, needs) => Start(s, move, needs)
    case ABuild(file, ok) => Build(s, file, ok)
    case ALogFlush(level, needs) => LogFlush(s, level, needs)
    case ACommit(ok) => CommitManifest(s, ok)
    case AInstall(needs) => InstallVersion(s, needs)
    case ABegin(id, key, snapshot) => BeginRead(s, id, key, snapshot)
    case ARead(id, outcomes) => s.(readers := s.readers[id := ReadOne(s.store, s.readers[id], outcomes)])
    case AEnd(id, update, needs) => EndRead(s, id, update, needs)
    case AShutdown => s.(bg := s.bg.(shuttingDown := true))
  }
}
