/** The invariants of the step machine `DbMachine`, and that every step keeps them. */
module DbInvariants {
  import opened DbFormat
  import opened VersionEdits
  import opened BuilderSpec
  import opened VersionReads
  import opened ManifestSpec
  import opened DbStore
  import opened DbQueue
  import opened DbMachine

  // ---------------------------------------------------------------- the leader

  /** The state of a group that is being written. */
  ghost predicate StageOk(w: Leader) {
    && w.inserted <= |w.record|
    && (!w.logged ==> w.inserted == 0)
    && (w.stage != Ended ==> w.status == OK && !w.syncError)
    && (w.stage.ToAppend? ==> !w.logged)
    && (w.stage.ToSync? ==> w.logged && w.inserted == 0)
    && (w.stage.ToInsert? ==> w.logged)
    && (w.stage.Ended? && w.status == OK ==> w.logged && w.inserted == |w.record|)
  }

  /** There is a leader in the window exactly if the front of the queue leads; its group is a prefix of
      the queue with the next sequence numbers; and mem_ and log_ are still those it started with. */
  ghost predicate LeaderOk(q: Queue, leader: Option<Leader>, st: Store) {
    && (leader.Some? <==> q.queue != [] && q.queue[0] in q.writers && q.writers[q.queue[0]].pc.Leading?)
    && (leader.Some? ==>
          var w := leader.value;
          && StageOk(w) && 0 < w.count <= |q.queue| && HasBatches(q.writers, q.queue[..w.count])
          && w.record == Stamp(Ops(q.writers, q.queue[..w.count]), st.lastSequence + 1)
          && |st.mems| == w.memAt + 1
          && (w.logged ==> st.LogfileNumber() in st.logs && AllLogged(w.record, st.logs[st.LogfileNumber()])))
  }

  ghost predicate AllLogged(r: Record, rs: seq<Record>) {
    forall j :: 0 <= j < |r| ==> r[j] in Logged(rs)
  }

  /** The highest sequence number in use. */
  function Bound(lastSequence: nat, leader: Option<Leader>): int {
    lastSequence + if leader.Some? then leader.value.inserted else 0
  }

  // ---------------------------------------------------------------- the background call

  /** The flushed table is ready to be added. */
  ghost predicate TableOk(st: Store, f: FileMeta)
    requires st.Shaped() && st.imm
  {
    && f.number in st.names && st.names[f.number] == f
    && f.number in st.tables && st.tables[f.number] == st.Imm().entries
    && Covers(f, st.Imm().entries)
    && forall l, g :: HasFile(st.current, l, g) ==> g.number < f.number
  }

  /** The version a call started from is still the current one, and what it is about to install replaces it. */
  ghost predicate JobOk(st: Store, job: Job)
    requires st.Shaped()
  {
    && (job.Written? && job.ok ==> st.manifest == Recovered(job.target, job.log))
    && (!(job.Written? && job.ok) ==> st.manifest == Recovered(st.current, st.logNumber))
    && match job
       case Idle => true
       case Building(number, base) => st.imm && base == st.current && Taken(st, number)
       case TableBuilt(base, file, ok) =>
         && st.imm && base == st.current
         && (ok ==> if file.Some? then TableOk(st, file.value) else st.Imm().entries == {})
       case Logging(base, target, log, flush) => base == st.current && Target(st, target, log, flush)
       case Written(base, target, log, flush, ok) => base == st.current && Target(st, target, log, flush)
  }

  ghost predicate Target(st: Store, target: Levels, log: nat, flush: bool)
    requires st.Shaped()
  {
    Replaces(st, target, flush) && log == if flush then st.LogfileNumber() else st.logNumber
  }

  predicate CallsOk(bg: Background) {
    bg.queuedCalls + (if bg.job.Idle? then 0 else 1) == if bg.scheduled then 1 else 0
  }

  /** Work that is there gets done, unless there was an error or the database is closing. */
  predicate WorkOk(st: Store, bg: Background) {
    (st.imm || |st.current[0]| >= COMPACTION_TRIGGER) && !bg.failed && !bg.shuttingDown ==> bg.scheduled
  }

  ghost predicate BgOk(st: Store, bg: Background)
    requires st.Shaped()
  {
    CallsOk(bg) && JobOk(st, bg.job) && WorkOk(st, bg)
  }

  /** Whoever waits for background work will be woken: it is scheduled. */
  ghost predicate StallOk(q: Queue, bg: Background) {
    forall id :: id in q.writers && q.writers[id].pc.Stalled? && !q.writers[id].pc.woken ==>
      bg.scheduled || bg.shuttingDown
  }

  // ---------------------------------------------------------------- readers

  ghost predicate NewerThan(m: Mem, sequence: nat) {
    forall e :: e in m.entries ==> e.sequence > sequence
  }

  /** The version and the memtables that a reader holds have everything its snapshot sees. */
  ghost predicate ReaderHolds(st: Store, r: Reader) {
    && r.mem < |st.mems| && (r.imm ==> r.mem > 0) && r.snapshot <= st.lastSequence
    && Sane(st.names, r.version, st.tables)
    && Entries(r.version, st.tables) == Union(st.mems[..if r.imm then r.mem - 1 else r.mem])
    && (forall i :: r.mem < i < |st.mems| ==> NewerThan(st.mems[i], r.snapshot))
  }

  /** How far the search has come without a hit, or what it has found. */
  ghost predicate ReaderFound(st: Store, r: Reader)
    requires r.mem < |st.mems| && (r.imm ==> r.mem > 0)
  {
    match r.pc
    case AtMem => true
    case AtImm => r.imm && Answers(st.mems[r.mem].entries, r.key, r.snapshot, None)
    case AtVersion =>
      && Answers(st.mems[r.mem].entries, r.key, r.snapshot, None)
      && (r.imm ==> Answers(st.mems[r.mem - 1].entries, r.key, r.snapshot, None))
    case Done(result) => result == Error || result == ResultOf(Lookup(History(st), r.key, r.snapshot))
  }

  ghost predicate ReaderOk(st: Store, r: Reader) {
    ReaderHolds(st, r) && ReaderFound(st, r)
  }

  ghost predicate ReadersOk(st: Store, readers: map<nat, Reader>) {
    forall id :: id in readers ==> ReaderOk(st, readers[id])
  }

  // ---------------------------------------------------------------- accounts

  function LoggedBy(gs: seq<Group>): seq<Record> {
    if gs == [] then [] else LoggedBy(gs[..|gs| - 1]) + if gs[|gs| - 1].logged then [gs[|gs| - 1].record] else []
  }

  function InsertedBy(gs: seq<Group>): seq<Entry>
    requires forall k :: 0 <= k < |gs| ==> gs[k].inserted <= |gs[k].record|
  {
    if gs == [] then [] else InsertedBy(gs[..|gs| - 1]) + gs[|gs| - 1].record[..gs[|gs| - 1].inserted]
  }

  ghost predicate InsertedOk(gs: seq<Group>) {
    forall k :: 0 <= k < |gs| ==> gs[k].inserted <= |gs[k].record|
  }

  ghost function SetOf(es: seq<Entry>): set<Entry> {
    set e | e in es
  }

  /** The log got the record of every group that says so, once and in order; the memtables got the
      entries of every group, once and in order; and nothing else was ever inserted. */
  ghost predicate AccountsOk(gs: seq<Group>, leader: Option<Leader>, journal: seq<Record>, inserts: seq<Entry>,
                             history: set<Entry>, origin: set<Entry>) {
    && InsertedOk(gs)
    && journal == LoggedBy(gs) + (if leader.Some? && leader.value.logged then [leader.value.record] else [])
    && (leader.Some? ==> leader.value.inserted <= |leader.value.record|)
    && inserts == InsertedBy(gs) + (if leader.Some? then leader.value.record[..leader.value.inserted] else [])
    && history == origin + SetOf(inserts)
  }

  // ---------------------------------------------------------------- the invariant

  /** `base` is the last sequence number and `origin` the set of entries with which the database was opened. */
  ghost predicate Inv(s: Db, base: nat, origin: set<Entry>) {
    && StoreOk(s.store, Bound(s.store.lastSequence, s.leader))
    && QueueOk(s.queue, base, s.store.lastSequence)
    && LeaderOk(s.queue, s.leader, s.store)
    && BgOk(s.store, s.bg)
    && StallOk(s.queue, s.bg)
    && ReadersOk(s.store, s.readers)
    && AccountsOk(s.queue.retired, s.leader, s.journal, s.inserts, History(s.store), origin)
  }

  // ---------------------------------------------------------------- MakeRoomForWrite

  /** The memtable is full or has to go, and neither imm_ nor the files of level 0 stand against it. */
  predicate Switching(st: Store, bg: Background, force: bool, allowDelay: bool, o: Luck) {
    && !bg.failed && !(allowDelay && |st.current[0]| >= SLOWDOWN_TRIGGER) && (force || !o.room)
    && !st.imm && |st.current[0]| < STOP_TRIGGER
  }

  /** st2 is st1 after a switch: the memtable is immutable, a new one is empty and has a new log, under a
      number that was free; everything else is as before. */
  ghost predicate SwitchedTo(st1: Store, st2: Store) {
    && st2.mems == st1.mems + [Mem({}, st1.nextFile)] && st2.imm && st2.nextFile == st1.nextFile + 1
    && st2.logs == st1.logs[st1.nextFile := []]
    && st2 == st1.(mems := st2.mems, imm := st2.imm, nextFile := st2.nextFile, logs := st2.logs)
  }

  /** What MakeRoomForWrite does before it lets go of the mutex, exactly: when it reports an error, sleeps,
      waits or says that there is room, and when it switches memtables - at most once, never when imm_ is
      set, and not without a log file.  A switch makes a call scheduled unless the database is closing. */
  lemma MakeRoomContract(st: Store, bg: Background, force: bool, allowDelay: bool, o: Luck)
    ensures var (st', bg', room) := MakeRoom(st, bg, force, allowDelay, o);
            var slow := allowDelay && |st.current[0]| >= SLOWDOWN_TRIGGER;
            var full := st.imm || |st.current[0]| >= STOP_TRIGGER;
            var switching := Switching(st, bg, force, allowDelay, o);
            && (room == Break(Failed) <==> bg.failed || (switching && !o.newFile))
            && (room == Nap <==> !bg.failed && slow)
            && (room.Stall? <==> (!bg.failed && !slow && (force || !o.room) && full) ||
                                 (switching && o.newFile && !o.freshRoom))
            && (room == Break(OK) <==> (!bg.failed && !slow && !force && o.room) ||
                                       (switching && o.newFile && o.freshRoom))
            && (room.Stall? ==> room.force == (force && full))
            && (if switching && o.newFile then
                  SwitchedTo(st, st') && st' == Switched(st) && (bg'.scheduled || bg'.shuttingDown) &&
                  bg' == MaybeSchedule(bg, true, NeedsCompaction(st'.current, o.needs))
                else st' == st && bg' == bg)
  {
    if Switching(st, bg, force, allowDelay, o) && o.newFile {
      var st1 := Switched(st);
      assert |st1.mems| == |st.mems| + 1;
      var bg1 := MaybeSchedule(bg, st1.imm, NeedsCompaction(st1.current, o.needs));
      assert MakeRoom(st1, bg1, false, allowDelay, o.(room := o.freshRoom)) ==
             (st1, bg1, if o.freshRoom then Break(OK) else Stall(false));
    }
  }

  /** Line 268 taken literally: the loop stops when there is no error. */
  function MakeRoomAsWritten(st: Store, bg: Background, force: bool, allowDelay: bool, o: Luck): (Store, Background,
                             Room)
    decreases !st.imm
  {
    if !bg.failed then (st, bg, Break(OK))
    else if allowDelay && |st.current[0]| >= SLOWDOWN_TRIGGER then (st, bg, Nap)
    else if !force && o.room then (st, bg, Break(OK))
    else if st.imm then (st, bg, Stall(force))
    else if |st.current[0]| >= STOP_TRIGGER then (st, bg, Stall(force))
    else if !o.newFile then (st, bg, Break(Failed))
    else
      var st' := Switched(st);
      MakeRoomAsWritten(st', MaybeSchedule(bg, st'.imm, NeedsCompaction(st'.current, o.needs)), false, allowDelay,
                        o.(room := o.freshRoom))
  }

  /** As written the loop does what is intended exactly if there is room, no demand and no delay; or, in
      case of an error, if a new log file is tried and cannot be created. */
  lemma AsWrittenExact(st: Store, bg: Background, force: bool, allowDelay: bool, o: Luck)
    ensures var delayed := allowDelay && |st.current[0]| >= SLOWDOWN_TRIGGER;
            MakeRoomAsWritten(st, bg, force, allowDelay, o) == MakeRoom(st, bg, force, allowDelay, o) <==>
              if !bg.failed then !delayed && !force && o.room
              else !delayed && !(!force && o.room) && !st.imm && |st.current[0]| < STOP_TRIGGER && !o.newFile
  {
    assert Switched(st) != st by { assert |Switched(st).mems| != |st.mems|; }
    var st1 := Switched(st);
    var bg1 := MaybeSchedule(bg, st1.imm, NeedsCompaction(st1.current, o.needs));
    var o1 := o.(room := o.freshRoom);
    MakeRoomContract(st, bg, force, allowDelay, o);
    assert MakeRoomAsWritten(st1, bg1, false, allowDelay, o1).2 != Break(Failed);
  }

  // ---------------------------------------------------------------- what store updates keep

  /** The memtables only grow: the last one by newer entries, and by new memtables. */
  ghost predicate Grows(st: Store, st': Store) {
    && 0 < |st.mems| <= |st'.mems| && st.lastSequence <= st'.lastSequence
    && (forall i :: 0 <= i < |st.mems| - 1 ==> st'.mems[i] == st.mems[i])
    && GrowsBy(st.mems[|st.mems| - 1], st'.mems[|st.mems| - 1], st.lastSequence)
    && (forall i :: |st.mems| <= i < |st'.mems| ==> NewerThan(st'.mems[i], st.lastSequence))
  }

  ghost predicate GrowsBy(m: Mem, m': Mem, sequence: nat) {
    && m.entries <= m'.entries && forall e :: e in m'.entries && e !in m.entries ==> e.sequence > sequence
  }

  lemma GrowsAt(st: Store, st': Store, i: nat)
    requires Grows(st, st') && i < |st.mems|
    ensures GrowsBy(st.mems[i], st'.mems[i], st.lastSequence)
  {
  }

  lemma HistoryGrows(st: Store, st': Store)
    requires Grows(st, st')
    ensures History(st) <= History(st')
    ensures forall e :: e in History(st') && e !in History(st) ==> e.sequence > st.lastSequence
  {
    forall e | e in History(st) ensures e in History(st') {
      var i :| 0 <= i < |st.mems| && e in st.mems[i].entries;
      GrowsAt(st, st', i);
    }
    forall e | e in History(st') && e !in History(st) ensures e.sequence > st.lastSequence {
      var i :| 0 <= i < |st'.mems| && e in st'.mems[i].entries;
      if i < |st.mems| { GrowsAt(st, st', i); }
    }
  }

  /** A lookup does not see entries newer than its snapshot. */
  lemma LookupFrozen(es: set<Entry>, es': set<Entry>, key: int, snapshot: nat)
    requires es <= es' && OneEach(es') && forall e :: e in es' && e !in es ==> e.sequence > snapshot
    ensures Lookup(es', key, snapshot) == Lookup(es, key, snapshot)
  {
    AnswerUnique(es', key, snapshot, Lookup(es, key, snapshot), Lookup(es', key, snapshot));
  }

  /** Growing memtables do not disturb a reader. */
  lemma ReaderKeeps(st: Store, st': Store, r: Reader, bound: int)
    requires ReaderOk(st, r) && Grows(st, st') && MemsOk(st'.mems, bound)
    requires Sane(st'.names, r.version, st'.tables) && Entries(r.version, st'.tables) == Entries(r.version, st.tables)
    ensures ReaderOk(st', r)
  {
    hide Sane, Entries, Union, Lookup, MemsOk;
    var k := if r.imm then r.mem - 1 else r.mem;
    assert st'.mems[..k] == st.mems[..k];
    GrowsAt(st, st', r.mem);
    if r.imm { GrowsAt(st, st', r.mem - 1); }
    HistoryGrows(st, st');
    HistoryOneEach(st'.mems, bound);
    LookupFrozen(History(st), History(st'), r.key, r.snapshot);
    forall i | r.mem < i < |st'.mems| ensures NewerThan(st'.mems[i], r.snapshot) {
      if i < |st.mems| { GrowsAt(st, st', i); }
    }
  }

  lemma ReadersKeep(st: Store, st': Store, readers: map<nat, Reader>, bound: int)
    requires ReadersOk(st, readers) && Grows(st, st') && MemsOk(st'.mems, bound)
    requires st'.names == st.names && st'.tables == st.tables
    ensures ReadersOk(st', readers)
  {
    hide Sane, Entries, Grows, MemsOk, ReaderFound;
    forall id | id in readers ensures ReaderOk(st', readers[id]) {
      ReaderKeeps(st, st', readers[id], bound);
    }
  }

  /** The background call does not notice growing memtables, new numbers or log records. */
  lemma JobKeeps(st: Store, st': Store, job: Job)
    requires st.Shaped() && JobOk(st, job) && |st'.mems| == |st.mems| && st'.nextFile >= st.nextFile
    requires st'.imm == st.imm && st'.current == st.current && st'.logNumber == st.logNumber
    requires st'.names == st.names && st'.tables == st.tables && st'.manifest == st.manifest
    requires forall i :: 0 <= i < |st.mems| ==> st'.mems[i].log == st.mems[i].log
    requires forall i :: 0 <= i < |st.mems| - 1 ==> st'.mems[i] == st.mems[i]
    ensures st'.Shaped() && JobOk(st', job)
  {
    hide Sane, Entries;
  }

  /** A switch happens only while no flush is under way. */
  lemma JobSwitch(st: Store, job: Job)
    requires st.Shaped() && JobOk(st, job) && !st.imm
    ensures Switched(st).Shaped() && JobOk(Switched(st), job)
  {
    hide Sane, Entries;
  }
}
