/** The background steps of the machine `DbMachine` keep its invariants. */
module DbBackground {
  import opened DbFormat
  import opened VersionEdits
  import opened BuilderSpec
  import opened Batching
  import opened VersionReads
  import opened ManifestSpec
  import opened DbStore
  import opened DbQueue
  import opened DbMachine
  import opened DbInvariants
  import opened DbSteps

  // ---------------------------------------------------------------- what a flush makes

  /** The immutable memtable is newer than everything in tables. */
  lemma ImmIsNewer(st: Store, bound: int)
    requires StoreOk(st, bound) && st.imm
    ensures OneEach(st.Imm().entries)
    ensures forall d, e :: d in st.Imm().entries && e in Entries(st.current, st.tables) ==> d.sequence > e.sequence
  {
    hide Sane, Entries, MemsOk, Union;
    var n := |st.mems| - 2;
    MemFacts(st.mems, bound, n);
    forall d, e | d in st.Imm().entries && e in Entries(st.current, st.tables) ensures d.sequence > e.sequence {
      assert e in Union(st.mems[..n]);
    }
  }

  lemma MemFacts(mems: seq<Mem>, bound: int, n: nat)
    requires MemsOk(mems, bound) && n < |mems|
    ensures OneEach(mems[n].entries)
    ensures forall d, e :: d in mems[n].entries && e in Union(mems[..n]) ==> d.sequence > e.sequence
  {
    forall d, e | d in mems[n].entries && e in Union(mems[..n]) ensures d.sequence > e.sequence {
      var i :| 0 <= i < |mems[..n]| && e in mems[..n][i].entries;
      assert Older(mems[i], mems[n]);
    }
  }

  lemma FlushReplaces(st: Store, bound: int, level: nat, f: FileMeta)
    requires StoreOk(st, bound) && st.imm && TableOk(st, f) && Placeable(st.current, level, f)
    ensures FlushEdit(level, f).LevelsOk() && Replaces(st, Next(st.current, FlushEdit(level, f)), true)
  {
    var es := st.Imm().entries;
    ImmIsNewer(st, bound);
    assert st.tables[f.number := es] == st.tables;
    hide Entries, MemsOk, Union, Next, Placeable;
    FlushKeepsSane(st.names, st.current, st.tables, level, f, es);
  }

  lemma {:induction false} KeepAll(s: Files)
    ensures Keep(s, {}) == s
  {
    if s != [] { KeepAll(s[1..]); }
  }

  /** An edit without files changes nothing. */
  lemma EmptyEdit(v: Levels)
    ensures EMPTY.LevelsOk() && Next(v, EMPTY) == v
  {
    forall l | 0 <= l < NUM_LEVELS ensures Next(v, EMPTY)[l] == v[l] {
      KeepAll(v[l]);
      assert DeletedAt({}, l) == {};
      assert ApplyEdit(NOTHING, EMPTY)[l] == LevelState({}, []);
    }
  }

  lemma EmptyReplaces(st: Store, bound: int)
    requires StoreOk(st, bound) && st.imm && st.Imm().entries == {}
    ensures EMPTY.LevelsOk() && Replaces(st, Next(st.current, EMPTY), true)
  {
    EmptyEdit(st.current);
    hide Sane, Entries, MemsOk, Union, Next;
  }

  lemma MoveReplaces(st: Store, bound: int, level: nat, f: FileMeta)
    requires StoreOk(st, bound) && Movable(st.current, level, f)
    ensures MoveEdit(level, f).LevelsOk() && Replaces(st, Next(st.current, MoveEdit(level, f)), false)
  {
    hide Sane, Entries, MemsOk, Union, Next, Movable;
    MoveLevels(st.names, st.current, st.tables, level, f);
    MoveKeepsSane(st.names, st.current, st.tables, level, f);
    MoveKeepsEntries(st.names, st.current, st.tables, level, f);
  }

  lemma DescribedCovers(f: FileMeta, es: set<Entry>)
    requires Describes(f, es)
    ensures Covers(f, es)
  {
    var first, last :| first in es && last in es && IsFirst(first, es) && IsLast(last, es) &&
      f.smallest == InternalKey(first.key, first.sequence) && f.largest == InternalKey(last.key, last.sequence);
  }

  // ---------------------------------------------------------------- the end of a call

  /** What the end of a background call needs. */
  ghost predicate Ending(s: Db, base: nat, origin: set<Entry>) {
    && StoreOk(s.store, Bound(s.store.lastSequence, s.leader)) && ReadersOk(s.store, s.readers)
    && QueueOk(s.queue, base, s.store.lastSequence) && LeaderOk(s.queue, s.leader, s.store)
    && AccountsOk(s.queue.retired, s.leader, s.journal, s.inserts, History(s.store), origin)
    && s.store.manifest == Recovered(s.store.current, s.store.logNumber) && s.bg.queuedCalls == 0
  }

  lemma TailKeeps(s: Db, needs: bool, base: nat, origin: set<Entry>)
    requires Ending(s, base, origin)
    ensures Inv(Tail(s, needs), base, origin)
  {
    hide StoreOk, ReadersOk, QueueOk, LeaderOk, AccountsOk, SignalAll, Union, StallOk;
    SignalKeeps(s.queue, base, s.store.lastSequence);
    SignalLeader(s.queue, s.leader, s.store);
    SignalStall(s.queue, Tail(s, needs).bg);
    SignalSame(s.queue);
    StoreMems(s.store, Bound(s.store.lastSequence, s.leader));
  }

  lemma FailEnding(s: Db, base: nat, origin: set<Entry>)
    requires Ending(s, base, origin)
    ensures Ending(Fail(s), base, origin)
  {
    hide StoreOk, ReadersOk, QueueOk, LeaderOk, AccountsOk, SignalAll, Union;
    SignalKeeps(s.queue, base, s.store.lastSequence);
    SignalLeader(s.queue, s.leader, s.store);
    SignalSame(s.queue);
  }

  // ---------------------------------------------------------------- steps

  lemma LeaderSame(q: Queue, leader: Option<Leader>, st: Store, st': Store)
    requires LeaderOk(q, leader, st) && st.mems != [] && st'.mems == st.mems && st'.lastSequence == st.lastSequence
    requires leader.Some? && st.LogfileNumber() in st.logs ==>
               st.LogfileNumber() in st'.logs && st'.logs[st.LogfileNumber()] == st.logs[st.LogfileNumber()]
    ensures LeaderOk(q, leader, st')
  {
    hide Stamp, Ops, HasBatches, AllLogged;
  }

  lemma StartStep(s: Db, move: Option<(nat, FileMeta)>, needs: bool, base: nat, origin: set<Entry>)
    requires Inv(s, base, origin) && Enabled(s, AStart(move, needs))
    ensures Inv(Start(s, move, needs), base, origin)
  {
    hide StoreOk, ReadersOk, QueueOk, LeaderOk, AccountsOk, StallOk, Union, Tail, Replaces, Taken, Next, MemsOk, Grows;
    var s' := s.(bg := s.bg.(queuedCalls := s.bg.queuedCalls - 1));
    var bound := Bound(s.store.lastSequence, s.leader);
    StoreMems(s.store, bound);
    if s.bg.shuttingDown || s.bg.failed || (!s.store.imm && move.None?) {
      TailKeeps(s', needs, base, origin);
    } else if s.store.imm {
      var st := NewNumber(s.store);
      NumberKeeps(s.store, bound);
      TakenNow(s.store, bound);
      GrowsSame(s.store, st);
      ReadersKeep(s.store, st, s.readers, bound);
      LeaderSame(s.queue, s.leader, s.store, st);
      StallSame(s.queue, s.bg, Start(s, move, needs).bg);
    } else {
      MoveReplaces(s.store, bound, move.value.0, move.value.1);
      StallSame(s.queue, s.bg, Start(s, move, needs).bg);
    }
  }

  lemma TakenNow(st: Store, bound: int)
    requires StoreOk(st, bound)
    ensures Taken(NewNumber(st), st.nextFile)
  {
    LogsBelow(st, bound);
  }

  lemma BuiltReaders(st: Store, f: FileMeta, es: set<Entry>, readers: map<nat, Reader>, bound: int)
    requires ReadersOk(st, readers) && st.mems != [] && MemsOk(st.mems, bound) && f.number !in st.names
    ensures ReadersOk(Built(st, f, es), readers)
  {
    hide Sane, Entries, MemsOk, Grows, ReaderFound;
    var st' := Built(st, f, es);
    GrowsSame(st, st');
    forall id | id in readers ensures ReaderOk(st', readers[id]) {
      SaneGrows(st.names, readers[id].version, st.tables, f, es);
      ReaderKeeps(st, st', readers[id], bound);
    }
  }

  lemma BuiltTable(st: Store, f: FileMeta, bound: int)
    requires StoreOk(st, bound) && st.imm && Taken(st, f.number) && Describes(f, st.Imm().entries)
    ensures Built(st, f, st.Imm().entries).Shaped() && TableOk(Built(st, f, st.Imm().entries), f)
  {
    DescribedCovers(f, st.Imm().entries);
    forall l: nat, g | HasFile(st.current, l, g) ensures g.number < f.number {
      assert g in Elems(st.current[l]);
    }
  }

  lemma BuildStep(s: Db, file: FileMeta, ok: bool, base: nat, origin: set<Entry>)
    requires Inv(s, base, origin) && Enabled(s, ABuild(file, ok))
    ensures Inv(Build(s, file, ok), base, origin)
  {
    hide StoreOk, ReadersOk, QueueOk, LeaderOk, AccountsOk, StallOk, Union, MemsOk, TableOk, Describes;
    var s', bound := Build(s, file, ok), Bound(s.store.lastSequence, s.leader);
    StoreMems(s.store, bound);
    StallSame(s.queue, s.bg, s'.bg);
    var es := s.store.Imm().entries;
    if ok && es != {} {
      BuildKeeps(s.store, bound, file, es);
      BuiltReaders(s.store, file, es, s.readers, bound);
      BuiltTable(s.store, file, bound);
      LeaderSame(s.queue, s.leader, s.store, s'.store);
    }
  }

  lemma LogFlushStep(s: Db, level: nat, needs: bool, base: nat, origin: set<Entry>)
    requires Inv(s, base, origin) && Enabled(s, ALogFlush(level, needs))
    ensures Inv(LogFlush(s, level, needs), base, origin)
  {
    hide StoreOk, ReadersOk, QueueOk, LeaderOk, AccountsOk, StallOk, Union, TableOk, Tail, Fail, Replaces, Next,
      Placeable;
    var s', bound, job := LogFlush(s, level, needs), Bound(s.store.lastSequence, s.leader), s.bg.job;
    if !job.ok || s.bg.shuttingDown {
      FailEnding(s, base, origin);
      TailKeeps(Fail(s), needs, base, origin);
    } else {
      StallSame(s.queue, s.bg, s'.bg);
      if job.file.Some? {
        FlushReplaces(s.store, bound, level, job.file.value);
      } else {
        EmptyReplaces(s.store, bound);
      }
    }
  }

  lemma CommitStep(s: Db, ok: bool, base: nat, origin: set<Entry>)
    requires Inv(s, base, origin) && s.bg.job.Logging?
    ensures Inv(CommitManifest(s, ok), base, origin)
  {
    hide QueueOk, AccountsOk, StallOk, Union, MemsOk, Sane, Entries, Logged, ReaderFound, Grows, ReadersOk;
    var s' := CommitManifest(s, ok);
    StallSame(s.queue, s.bg, s'.bg);
    LeaderSame(s.queue, s.leader, s.store, s'.store);
    GrowsSame(s.store, s'.store);
    ReadersKeep(s.store, s'.store, s.readers, Bound(s.store.lastSequence, s.leader));
  }

  lemma InstallStep(s: Db, needs: bool, base: nat, origin: set<Entry>)
    requires Inv(s, base, origin) && s.bg.job.Written?
    ensures Inv(InstallVersion(s, needs), base, origin)
  {
    hide StoreOk, ReadersOk, QueueOk, LeaderOk, AccountsOk, StallOk, Union, Tail, Fail, Replaces, MemsOk, Grows;
    var j, bound := s.bg.job, Bound(s.store.lastSequence, s.leader);
    StoreMems(s.store, bound);
    if j.ok {
      var st := WithVersion(s.store, j.target, j.log, j.flush);
      InstallKeeps(s.store, bound, j.target, j.log, j.flush);
      GrowsSame(s.store, st);
      ReadersKeep(s.store, st, s.readers, bound);
      LeaderSame(s.queue, s.leader, s.store, st);
      TailKeeps(s.(store := st), needs, base, origin);
    } else {
      FailEnding(s, base, origin);
      TailKeeps(Fail(s), needs, base, origin);
    }
  }

  // ---------------------------------------------------------------- readers

  lemma BeginStep(s: Db, id: nat, key: int, snapshot: Option<nat>, base: nat, origin: set<Entry>)
    requires Inv(s, base, origin) && Enabled(s, ABegin(id, key, snapshot))
    ensures Inv(BeginRead(s, id, key, snapshot), base, origin)
  {
    hide MemsOk, LogsOk, NumbersOk, QueueOk, LeaderOk, JobOk, AccountsOk, StallOk, Union, Sane, Entries;
    var st, r := s.store, BeginRead(s, id, key, snapshot).readers[id];
    assert st.Flushed() == if st.imm then r.mem - 1 else r.mem;
  }

  /** Entries newer than the snapshot are all that a reader does not hold. */
  lemma HeldHistory(st: Store, r: Reader, bound: int)
    requires ReaderHolds(st, r) && MemsOk(st.mems, bound)
    ensures var imm := if r.imm then st.mems[r.mem - 1].entries else {};
            var held := Entries(r.version, st.tables) + st.mems[r.mem].entries + imm;
            held <= History(st) && forall e :: e in History(st) && e !in held ==> e.sequence > r.snapshot
  {
    hide Sane, Entries, MemsOk;
    var k := if r.imm then r.mem - 1 else r.mem;
    UnionSplit(st.mems, k);
    forall e | e in Union(st.mems[k..]) && e !in st.mems[r.mem].entries && (r.imm ==> e !in st.mems[r.mem - 1].entries)
      ensures e.sequence > r.snapshot
    {
      var i :| 0 <= i < |st.mems[k..]| && e in st.mems[k..][i].entries;
      assert st.mems[k..][i] == st.mems[k + i];
      assert NewerThan(st.mems[k + i], r.snapshot);
    }
    assert r.imm ==> st.mems[k..][0] == st.mems[r.mem - 1];
    MemInHistory(st, r.mem);
    if r.imm { MemInHistory(st, r.mem - 1); }
  }

  lemma MemInHistory(st: Store, i: nat)
    requires i < |st.mems|
    ensures st.mems[i].entries <= History(st)
  {
  }

  /** What is in the memtables before m is older than what is in m. */
  lemma EarlierIsOlder(st: Store, k: nat, m: nat, bound: int)
    requires MemsOk(st.mems, bound) && k <= m < |st.mems|
    ensures forall d, e :: d in Union(st.mems[..k]) && e in st.mems[m].entries ==> d.sequence < e.sequence
  {
    forall d, e | d in Union(st.mems[..k]) && e in st.mems[m].entries ensures d.sequence < e.sequence {
      var i :| 0 <= i < |st.mems[..k]| && d in st.mems[..k][i].entries;
      assert Older(st.mems[i], st.mems[m]);
    }
  }

  /** A hit in the newest place that has one is the newest entry of all. */
  lemma HitIsNewest(newer: set<Entry>, older: set<Entry>, rest: set<Entry>, all: set<Entry>, key: int, snapshot: nat,
                    a: Option<Entry>)
    requires Answers(newer, key, snapshot, a) && a.Some? && OneEach(all)
    requires newer + older <= all && forall e :: e in all && e !in newer + older && e !in rest ==> e.sequence > snapshot
    requires forall d, e :: d in older && e in newer ==> d.sequence < e.sequence
    requires forall e :: e in rest ==> !Visible(e, key, snapshot)
    ensures Lookup(all, key, snapshot) == a
  {
    hide OneEach;
    assert Newest(all, key, snapshot, a.value) by {
      forall d | d in all && Visible(d, key, snapshot) ensures d.sequence <= a.value.sequence {}
    }
    AnswerUnique(all, key, snapshot, a, Lookup(all, key, snapshot));
  }

  lemma ReadMem(st: Store, r: Reader, bound: int)
    requires ReaderHolds(st, r) && MemsOk(st.mems, bound)
    requires Lookup(st.mems[r.mem].entries, r.key, r.snapshot).Some?
    ensures Lookup(History(st), r.key, r.snapshot) == Lookup(st.mems[r.mem].entries, r.key, r.snapshot)
  {
    hide Sane, Entries;
    var k, newer := if r.imm then r.mem - 1 else r.mem, st.mems[r.mem].entries;
    var older := Entries(r.version, st.tables) + if r.imm then st.mems[r.mem - 1].entries else {};
    HeldHistory(st, r, bound);
    EarlierIsOlder(st, k, r.mem, bound);
    HistoryOneEach(st.mems, bound);
    assert r.imm ==> Older(st.mems[r.mem - 1], st.mems[r.mem]);
    hide MemsOk, Union, Lookup;
    HitIsNewest(newer, older, {}, History(st), r.key, r.snapshot, Lookup(newer, r.key, r.snapshot));
  }

  lemma ReadImm(st: Store, r: Reader, bound: int)
    requires ReaderHolds(st, r) && MemsOk(st.mems, bound) && r.imm
    requires Answers(st.mems[r.mem].entries, r.key, r.snapshot, None)
    requires Lookup(st.mems[r.mem - 1].entries, r.key, r.snapshot).Some?
    ensures Lookup(History(st), r.key, r.snapshot) == Lookup(st.mems[r.mem - 1].entries, r.key, r.snapshot)
  {
    hide Sane, Entries;
    var newer, older := st.mems[r.mem - 1].entries, Entries(r.version, st.tables);
    HeldHistory(st, r, bound);
    EarlierIsOlder(st, r.mem - 1, r.mem - 1, bound);
    HistoryOneEach(st.mems, bound);
    hide MemsOk, Union, Lookup;
    HitIsNewest(newer, older, st.mems[r.mem].entries, History(st), r.key, r.snapshot, Lookup(newer, r.key, r.snapshot));
  }

  lemma ReadVersion(st: Store, r: Reader, bound: int)
    requires ReaderHolds(st, r) && MemsOk(st.mems, bound) && Answers(st.mems[r.mem].entries, r.key, r.snapshot, None)
    requires r.imm ==> Answers(st.mems[r.mem - 1].entries, r.key, r.snapshot, None)
    ensures Lookup(History(st), r.key, r.snapshot) == Lookup(Entries(r.version, st.tables), r.key, r.snapshot)
  {
    hide Sane, Entries;
    var es := Entries(r.version, st.tables);
    HeldHistory(st, r, bound);
    HistoryOneEach(st.mems, bound);
    hide MemsOk, Union;
    AnswerUnique(History(st), r.key, r.snapshot, Lookup(es, r.key, r.snapshot), Lookup(History(st), r.key, r.snapshot));
  }

  lemma ReadKeeps(st: Store, r: Reader, outcomes: map<nat, Outcome>, bound: int)
    requires ReaderOk(st, r) && MemsOk(st.mems, bound)
    ensures ReaderOk(st, ReadOne(st, r, outcomes))
  {
    hide Sane, Entries, MemsOk, Union, Fails, SearchOrder, Lookup;
    match r.pc
    case AtMem =>
      if Lookup(st.mems[r.mem].entries, r.key, r.snapshot).Some? { ReadMem(st, r, bound); }
    case AtImm =>
      if Lookup(st.mems[r.mem - 1].entries, r.key, r.snapshot).Some? { ReadImm(st, r, bound); }
    case AtVersion => ReadVersion(st, r, bound);
    case Done(_) =>
  }

  lemma ReadStep(s: Db, id: nat, outcomes: map<nat, Outcome>, base: nat, origin: set<Entry>)
    requires Inv(s, base, origin) && Enabled(s, ARead(id, outcomes))
    ensures Inv(Step(s, ARead(id, outcomes)), base, origin)
  {
    hide StoreOk, QueueOk, LeaderOk, BgOk, StallOk, AccountsOk, ReaderOk, ReadOne, Union, MemsOk;
    StoreMems(s.store, Bound(s.store.lastSequence, s.leader));
    ReadKeeps(s.store, s.readers[id], outcomes, Bound(s.store.lastSequence, s.leader));
  }

  lemma EndStep(s: Db, id: nat, update: bool, needs: bool, base: nat, origin: set<Entry>)
    requires Inv(s, base, origin) && Enabled(s, AEnd(id, update, needs))
    ensures Inv(EndRead(s, id, update, needs), base, origin)
  {
    hide StoreOk, QueueOk, LeaderOk, JobOk, StallOk, AccountsOk, ReaderOk, Union, MaybeSchedule;
    ScheduleKeeps(s.bg, s.store.imm, NeedsCompaction(s.store.current, needs));
    EndStall(s.queue, s.bg, EndRead(s, id, update, needs).bg);
  }

  lemma EndStall(q: Queue, bg: Background, bg': Background)
    requires StallOk(q, bg) && bg'.shuttingDown == bg.shuttingDown && (bg.scheduled ==> bg'.scheduled)
    ensures StallOk(q, bg')
  {
  }

  lemma ShutdownStep(s: Db, base: nat, origin: set<Entry>)
    requires Inv(s, base, origin)
    ensures Inv(s.(bg := s.bg.(shuttingDown := true)), base, origin)
  {
    hide StoreOk, QueueOk, LeaderOk, JobOk, ReadersOk, AccountsOk, Union;
  }

  // ---------------------------------------------------------------- all steps

  /** Every step that a state allows keeps the invariant. */
  lemma StepKeeps(s: Db, a: Action, base: nat, origin: set<Entry>)
    requires Inv(s, base, origin) && Enabled(s, a)
    ensures Inv(Step(s, a), base, origin)
  {
    hide Inv, Enqueue, Run, AppendLog, SyncLog, InsertNext, Conclude, Start, Build, LogFlush, CommitManifest,
      InstallVersion, BeginRead, EndRead;
    match a
    case AEnqueue(id, batch, sync, luck) => EnqueueStep(s, id, batch, sync, luck, base, origin);
    case ARun(id, luck) => RunStep(s, id, luck, base, origin);
    case AAppend(ok) => AppendStep(s, ok, base, origin);
    case ASync(ok) => SyncStep(s, ok, base, origin);
    case AInsert(ok) => InsertStep(s, ok, base, origin);
    case AConclude => ConcludeStep(s, base, origin);
    case AStart(move, needs) => StartStep(s, move, needs, base, origin);
    case ABuild(file, ok) => BuildStep(s, file, ok, base, origin);
    case ALogFlush(level, needs) => LogFlushStep(s, level, needs, base, origin);
    case ACommit(ok) => CommitStep(s, ok, base, origin);
    case AInstall(needs) => InstallStep(s, needs, base, origin);
    case ABegin(id, key, snapshot) => BeginStep(s, id, key, snapshot, base, origin);
    case ARead(id, outcomes) => ReadStep(s, id, outcomes, base, origin);
    case AEnd(id, update, needs) => EndStep(s, id, update, needs, base, origin);
    case AShutdown => ShutdownStep(s, base, origin);
  }
}
