/** What holds in every state that the machine `DbMachine` can reach. */
module DbTheorems {
  import opened DbFormat
  import opened VersionEdits
  import opened BuilderSpec
  import opened Batching
  import opened VersionReads
  import opened ManifestSpec
  import opened DbStore
  import opened DbQueue
  import opened DbMachine
  import opened DbInvariants
  import opened DbSteps
  import opened DbBackground

  // ---------------------------------------------------------------- runs

  /** A database that has just been opened on a version: an empty memtable with a fresh log, no writers,
      no readers.  The entries of the version stand in the list of memtables as one that was flushed. */
  ghost predicate Opened(s: Db) {
    var st := s.store;
    && Sane(st.names, st.current, st.tables)
    && (forall e :: e in Entries(st.current, st.tables) ==> e.sequence <= st.lastSequence)
    && |st.mems| == 2 && !st.imm && st.mems[0] == Mem(Entries(st.current, st.tables), 0)
    && st.mems[1].entries == {} && 0 < st.mems[1].log < st.nextFile && st.mems[1].log in st.logs
    && st.logNumber <= st.mems[1].log
    && (forall n :: n in st.names ==> 0 < n < st.nextFile && n != st.mems[1].log)
    && st.manifest == Recovered(st.current, st.logNumber)
    && s.queue == Queue(map[], [], [], []) && s.leader == None && s.readers == map[] && s.journal == []
    && s.inserts == []
    && s.bg.job == Idle && CallsOk(s.bg) && WorkOk(st, s.bg)
  }

  lemma OpenedOk(s: Db)
    requires Opened(s)
    ensures Inv(s, s.store.lastSequence, Entries(s.store.current, s.store.tables))
  {
    var st := s.store;
    EntriesOneEach(st.names, st.current, st.tables);
    hide Sane, Entries;
    assert st.mems == [st.mems[0]] + [st.mems[1]] && st.mems[..1] == [st.mems[0]];
    UnionOne(st.mems[0]);
    UnionAppend([st.mems[0]], st.mems[1]);
  }

  /** The actions can be taken one after the other. */
  ghost predicate Possible(s: Db, actions: seq<Action>)
    decreases |actions|
  {
    actions == [] || (Enabled(s, actions[0]) && Possible(Step(s, actions[0]), actions[1..]))
  }

  ghost function Execute(s: Db, actions: seq<Action>): Db
    requires Possible(s, actions)
    decreases |actions|
  {
    if actions == [] then s else Execute(Step(s, actions[0]), actions[1..])
  }

  /** The invariant holds after every run. */
  lemma {:induction false} RunKeeps(s: Db, actions: seq<Action>, base: nat, origin: set<Entry>)
    requires Inv(s, base, origin) && Possible(s, actions)
    ensures Inv(Execute(s, actions), base, origin)
    decreases |actions|
  {
    hide Inv, Step, Enabled;
    if actions != [] {
      StepKeeps(s, actions[0], base, origin);
      RunKeeps(Step(s, actions[0]), actions[1..], base, origin);
    }
  }

  /** ... in particular from a database that has just been opened. */
  lemma InvAfter(s: Db, actions: seq<Action>)
    requires Opened(s) && Possible(s, actions)
    ensures Inv(Execute(s, actions), s.store.lastSequence, Entries(s.store.current, s.store.tables))
  {
    OpenedOk(s);
    RunKeeps(s, actions, s.store.lastSequence, Entries(s.store.current, s.store.tables));
  }

  lemma {:induction false} RunConcat(s: Db, first: seq<Action>, rest: seq<Action>)
    requires Possible(s, first) && Possible(Execute(s, first), rest)
    ensures Possible(s, first + rest) && Execute(s, first + rest) == Execute(Execute(s, first), rest)
    decreases |first|
  {
    hide Step, Enabled;
    if first == [] {
      assert first + rest == rest;
    } else {
      RunConcat(Step(s, first[0]), first[1..], rest);
      assert (first + rest)[1..] == first[1..] + rest;
    }
  }

  // ---------------------------------------------------------------- durability

  /** An entry of a Write that was acknowledged: its leader has retired it with OK. */
  ghost predicate Acknowledged(s: Db, e: Entry) {
    exists k :: 0 <= k < |s.queue.retired| && s.queue.retired[k].attempted && s.queue.retired[k].status == OK &&
      e in s.queue.retired[k].record
  }

  lemma {:induction false} InsertedMember(gs: seq<Group>, k: nat, j: nat)
    requires InsertedOk(gs) && k < |gs| && j < gs[k].inserted
    ensures gs[k].record[j] in InsertedBy(gs)
  {
    if k < |gs| - 1 {
      InsertedMember(gs[..|gs| - 1], k, j);
    } else {
      assert gs[k].record[..gs[k].inserted][j] == gs[k].record[j];
    }
  }

  lemma AcknowledgedInserted(s: Db, base: nat, origin: set<Entry>, e: Entry)
    requires Inv(s, base, origin) && Acknowledged(s, e)
    ensures e in History(s.store)
  {
    hide StoreOk, LeaderOk, BgOk, StallOk, ReadersOk, MembersOk, InOrder, OneAlert, Stamp, Ops, HasBatches, Total,
      Union;
    var gs := s.queue.retired;
    var k :| 0 <= k < |gs| && gs[k].attempted && gs[k].status == OK && e in gs[k].record;
    assert RecordOk(s.queue.writers, gs[k], base + Total(gs[..k]) + 1);
    var j :| 0 <= j < |gs[k].record| && gs[k].record[j] == e;
    InsertedMember(gs, k, j);
    assert e in SetOf(s.inserts);
  }

  /** An entry is safe: in a table of the current version, or in a log that is still needed. */
  ghost predicate Safe(st: Store, e: Entry) {
    e in Entries(st.current, st.tables) || exists n :: n in st.logs && n >= st.logNumber && e in Logged(st.logs[n])
  }

  /** Durability: in every reachable state each entry of each acknowledged write is in a table of the
      current version or in a log numbered at or above log_number_. */
  lemma Durability(s: Db, actions: seq<Action>, e: Entry)
    requires Opened(s) && Possible(s, actions) && Acknowledged(Execute(s, actions), e)
    ensures Safe(Execute(s, actions).store, e)
  {
    OpenedOk(s);
    var base, origin, s' := s.store.lastSequence, Entries(s.store.current, s.store.tables), Execute(s, actions);
    RunKeeps(s, actions, base, origin);
    AcknowledgedInserted(s', base, origin, e);
    hide Execute, Opened, Possible, Acknowledged, QueueOk, LeaderOk, BgOk, ReadersOk, StallOk, AccountsOk;
    DbStore.Durable(s'.store, Bound(s'.store.lastSequence, s'.leader), e);
  }

  lemma {:induction false} OpsAt(ws: map<nat, Writer>, ids: seq<nat>, i: nat, j: nat)
    requires HasBatches(ws, ids) && i < |ids| && j < |ws[ids[i]].batch.value|
    ensures HasBatches(ws, ids[..i]) && |Ops(ws, ids[..i])| + j < |Ops(ws, ids)|
    ensures Ops(ws, ids)[|Ops(ws, ids[..i])| + j] == ws[ids[i]].batch.value[j]
  {
    if i > 0 {
      OpsAt(ws, ids[1..], i - 1, j);
      assert ids[..i][1..] == ids[1..][..i - 1];
    }
  }

  /** Operation j of this writer is entry e of the k-th group, whose i-th member it is: behind the
      operations of the members before it, and with the sequence number of that place. */
  ghost predicate Carries(q: Queue, base: nat, id: nat, j: nat, k: nat, i: nat, e: Entry) {
    && k < |q.retired| && i < |q.retired[k].members| && q.retired[k].members[i] == id
    && HasBatches(q.writers, q.retired[k].members[..i]) && id in q.writers && q.writers[id].batch.Some?
    && j < |q.writers[id].batch.value|
    && var p, op := |Ops(q.writers, q.retired[k].members[..i])| + j, q.writers[id].batch.value[j];
       p < |q.retired[k].record| && q.retired[k].record[p] == e &&
       e == Entry(op.key, base + Total(q.retired[..k]) + 1 + p, op.value)
  }

  /** A writer that is back has been retired. */
  lemma BackInFlat(q: Queue, id: nat)
    requires InOrder(q) && OneAlert(q) && id in q.writers && q.writers[id].pc.Returned?
    ensures id in Flat(q.retired)
  {
    hide Distinct, Flat;
    assert id in q.order;
    if id in q.queue {
      var j :| 0 <= j < |q.queue| && q.queue[j] == id;
    }
  }

  lemma WriteAcknowledged(s: Db, base: nat, origin: set<Entry>, id: nat, j: nat) returns (k: nat, i: nat, e: Entry)
    requires Inv(s, base, origin) && id in s.queue.writers
    requires var w := s.queue.writers[id];
             w.pc == Returned && w.status == OK && w.batch.Some? && j < |w.batch.value|
    ensures Carries(s.queue, base, id, j, k, i, e) && Acknowledged(s, e)
  {
    hide StoreOk, LeaderOk, BgOk, StallOk, ReadersOk, AccountsOk, InOrder, OneAlert, GroupsOk, Carries;
    var gs := s.queue.retired;
    BackInFlat(s.queue, id);
    FlatGroup(gs, id);
    k :| 0 <= k < |gs| && id in gs[k].members;
    i :| 0 <= i < |gs[k].members| && gs[k].members[i] == id;
    e := MemberCarries(s.queue, base, k, i, j);
  }

  lemma MemberCarries(q: Queue, base: nat, k: nat, i: nat, j: nat) returns (e: Entry)
    requires GroupsOk(q.writers, q.retired, base) && k < |q.retired| && i < |q.retired[k].members|
    requires var id := q.retired[k].members[i];
             && id in q.writers && q.writers[id].status == OK && q.writers[id].batch.Some?
             && j < |q.writers[id].batch.value|
    ensures Carries(q, base, q.retired[k].members[i], j, k, i, e)
    ensures q.retired[k].attempted && q.retired[k].status == OK && e in q.retired[k].record
  {
    hide Total, Ops;
    var g, first := q.retired[k], base + Total(q.retired[..k]) + 1;
    assert MembersOk(q.writers, g) && RecordOk(q.writers, g, first);
    assert MemberOk(q.writers[g.members[i]], i == 0, g.status);
    OpsAt(q.writers, g.members, i, j);
    e := g.record[|Ops(q.writers, g.members[..i])| + j];
  }

  /** ... and so is every operation of every Write that has returned OK, in every reachable state: the
      very entry that its group made of it. */
  lemma WriteDurable(s: Db, actions: seq<Action>, id: nat, j: nat)
    requires Opened(s) && Possible(s, actions) && id in Execute(s, actions).queue.writers
    requires var w := Execute(s, actions).queue.writers[id];
             w.pc == Returned && w.status == OK && w.batch.Some? && j < |w.batch.value|
    ensures var s' := Execute(s, actions);
            exists k: nat, i: nat, e :: Carries(s'.queue, s.store.lastSequence, id, j, k, i, e) && Safe(s'.store, e)
  {
    hide Execute, Possible, Opened, Acknowledged, Entries, Inv, Carries;
    var s', base, origin := Execute(s, actions), s.store.lastSequence, Entries(s.store.current, s.store.tables);
    InvAfter(s, actions);
    var k, i, e := WriteAcknowledged(s', base, origin, id, j);
    Durability(s, actions, e);
  }

  /** A crash in any state, also between the write to the manifest and the installation of its version,
      loses no entry that was ever inserted. */
  lemma CrashSafe(s: Db, base: nat, origin: set<Entry>)
    requires Inv(s, base, origin)
    ensures History(s.store) <= Recoverable(s.store)
  {
    hide QueueOk, LeaderOk, ReadersOk, StallOk, AccountsOk, Sane, MemsOk;
    var st, job, bound := s.store, s.bg.job, Bound(s.store.lastSequence, s.leader);
    if job.Written? && job.ok {
      var st' := st.(current := job.target, logNumber := job.log);
      if job.flush { CrashAfterFlush(st, bound, job.target); } else { HistoryRecoverable(st', bound); }
    } else {
      HistoryRecoverable(st, bound);
    }
  }

  lemma CrashAfterFlush(st: Store, bound: int, target: Levels)
    requires StoreOk(st, bound) && Replaces(st, target, true) && st.manifest == Recovered(target, st.LogfileNumber())
    ensures History(st) <= Recoverable(st)
  {
    hide Sane, MemsOk;
    forall e | e in History(st) ensures e in Recoverable(st) {
      var i :| 0 <= i < |st.mems| && e in st.mems[i].entries;
      if i < |st.mems| - 2 { assert st.mems[..st.Flushed()][i] == st.mems[i]; }
    }
  }

  // ---------------------------------------------------------------- snapshot reads

  /** Snapshot reads: whatever ran between its unlock and its relock, a Get that ends returns the newest
      entry at or below its snapshot in the history of inserted entries - NotFound for a deletion or
      nothing - unless a table could not be read. */
  lemma SnapshotRead(s: Db, actions: seq<Action>, id: nat)
    requires Opened(s) && Possible(s, actions)
    requires id in Execute(s, actions).readers && Execute(s, actions).readers[id].pc.Done?
    ensures var s' := Execute(s, actions);
            var r := s'.readers[id];
            r.pc.result == Error || r.pc.result == ResultOf(Lookup(History(s'.store), r.key, r.snapshot))
  {
    OpenedOk(s);
    RunKeeps(s, actions, s.store.lastSequence, Entries(s.store.current, s.store.tables));
    hide Execute, Opened, Possible, StoreOk, QueueOk, LeaderOk, BgOk, StallOk, AccountsOk, ReaderHolds, History, Lookup;
  }

  /** A read step fails only if some table that it visits cannot be read. */
  lemma ReadFails(st: Store, r: Reader, outcomes: map<nat, Outcome>)
    requires r.mem < |st.mems| && (r.imm ==> r.mem > 0) && !r.pc.Done?
    requires ReadOne(st, r, outcomes).pc == Done(Error)
    ensures exists f :: f in SearchOrder(r.version, r.key) && OutcomeOf(outcomes, f) != Fine
  {
    hide Lookup, SearchOrder, Entries;
    var order := SearchOrder(r.version, r.key);
    assert Fails(order, st.tables, r.key, r.snapshot, outcomes);
    var i :| 0 <= i < |order| && OutcomeOf(outcomes, order[i]) != Fine &&
        NoneBefore(order, i, st.tables, r.key, r.snapshot);
    assert order[i] in order;
  }

  /** A batch whose SetLastSequence has not happened is invisible as a whole. */
  lemma InFlightInvisible(s: Db, base: nat, origin: set<Entry>, id: nat, j: nat)
    requires Inv(s, base, origin) && s.leader.Some? && j < |s.leader.value.record| && id in s.readers
    ensures s.leader.value.record[j].sequence > s.readers[id].snapshot
  {
    hide StoreOk, QueueOk, BgOk, StallOk, AccountsOk, Sane, Entries, Union, Ops, HasBatches, ReaderFound;
    assert ReaderOk(s.store, s.readers[id]);
  }

  // ---------------------------------------------------------------- the leader

  /** At most one writer is in the window, and it is the front of the queue. */
  lemma LeaderUnique(s: Db, base: nat, origin: set<Entry>, id: nat)
    requires Inv(s, base, origin) && id in s.queue.writers && s.queue.writers[id].pc.Leading?
    ensures s.queue.queue != [] && s.queue.queue[0] == id && s.leader.Some?
  {
    hide StoreOk, BgOk, StallOk, AccountsOk, ReadersOk, Stamp, Ops, HasBatches, AllLogged, RecordOk, Total;
    if id in Flat(s.queue.retired) {
      FlatGroup(s.queue.retired, id);
    } else {
      assert id in s.queue.order;
      var i :| 0 <= i < |s.queue.queue| && s.queue.queue[i] == id;
    }
  }

  /** No wake-up is lost: if the queue is not empty its front is running or signalled, and every
      follower that was popped is done and either signalled or back. */
  lemma NoLostWakeup(s: Db, base: nat, origin: set<Entry>)
    requires Inv(s, base, origin)
    ensures s.queue.queue != [] ==> s.queue.queue[0] in s.queue.writers && Alert(s.queue.writers[s.queue.queue[0]])
    ensures forall k, i :: 0 <= k < |s.queue.retired| && 1 <= i < |s.queue.retired[k].members| ==>
              var id := s.queue.retired[k].members[i];
              id in s.queue.writers && s.queue.writers[id].done &&
              (s.queue.writers[id].pc == Parked(true) || s.queue.writers[id].pc == Returned)
  {
    hide StoreOk, BgOk, StallOk, AccountsOk, ReadersOk, LeaderOk, RecordOk, Total;
    forall k, i | 0 <= k < |s.queue.retired| && 1 <= i < |s.queue.retired[k].members|
      ensures var id := s.queue.retired[k].members[i];
              id in s.queue.writers && s.queue.writers[id].done &&
              (s.queue.writers[id].pc == Parked(true) || s.queue.writers[id].pc == Returned)
    {
      assert MembersOk(s.queue.writers, s.queue.retired[k]);
    }
  }

  lemma EnqueueQuiet(s: Db, id: nat, batch: Option<Batch>, sync: bool, o: Luck)
    requires s.queue.queue != [] && s.store.mems != []
    ensures Enqueue(s, id, batch, sync, o).store == s.store && Enqueue(s, id, batch, sync, o).leader == s.leader
  {
  }

  lemma RunQuiet(s: Db, id: nat, o: Luck)
    requires s.queue.queue != [] && s.queue.queue[0] in s.queue.writers && s.queue.writers[s.queue.queue[0]].pc.Leading?
    requires s.store.mems != [] && id in s.queue.writers
    ensures Run(s, id, o).store == s.store && Run(s, id, o).leader == s.leader
  {
    hide Proceed;
  }

  /** The background thread and the readers leave memtables and the leader alone. */
  lemma OthersQuiet(s: Db, a: Action)
    requires Enabled(s, a) && !a.AEnqueue? && !a.ARun? && !a.AAppend? && !a.ASync? && !a.AInsert? && !a.AConclude?
    ensures Step(s, a).store.mems == s.store.mems && Step(s, a).leader == s.leader
  {
    hide Next, MaybeSchedule, SignalAll, ReadOne;
  }

  lemma WindowQuiet(s: Db, a: Action)
    requires Enabled(s, a) && (a.AAppend? || a.ASync? || a.AInsert?) && s.store.mems != []
    ensures var s' := Step(s, a);
            && |s'.store.mems| == |s.store.mems| && s'.store.LogfileNumber() == s.store.LogfileNumber()
            && s'.leader.Some? && s'.leader.value.record == s.leader.value.record
            && s'.leader.value.count == s.leader.value.count
  {
  }

  /** mem_ and log_ are not swapped under an active leader. */
  lemma LeaderUndisturbed(s: Db, a: Action, base: nat, origin: set<Entry>)
    requires Inv(s, base, origin) && Enabled(s, a) && s.leader.Some? && Step(s, a).leader.Some?
    ensures var st, st' := s.store, Step(s, a).store;
            |st'.mems| == |st.mems| && st.mems != [] && st'.LogfileNumber() == st.LogfileNumber()
    ensures Step(s, a).leader.value.record == s.leader.value.record
    ensures Step(s, a).leader.value.count == s.leader.value.count
  {
    hide Inv, LineOk, DataOk, InOrder, OneAlert, Enqueue, Run, AppendLog, SyncLog, InsertNext, Start, Build, LogFlush,
      CommitManifest, InstallVersion, BeginRead, EndRead;
    InvParts(s, base, origin);
    LineParts(s, base, origin);
    match a
    case AEnqueue(id, batch, sync, luck) => EnqueueQuiet(s, id, batch, sync, luck);
    case ARun(id, luck) => RunQuiet(s, id, luck);
    case AConclude =>
    case AAppend(_) => WindowQuiet(s, a);
    case ASync(_) => WindowQuiet(s, a);
    case AInsert(_) => WindowQuiet(s, a);
    case _ => OthersQuiet(s, a);
  }

  // ---------------------------------------------------------------- group commit

  /** Each retired group: its members all have its status and are in no other group; its record is the
      batches of its members under consecutive sequence numbers that follow those of the groups before. */
  lemma GroupCommit(s: Db, base: nat, origin: set<Entry>, k: nat)
    requires Inv(s, base, origin) && k < |s.queue.retired|
    ensures s.store.lastSequence == base + Total(s.queue.retired)
    ensures MembersOk(s.queue.writers, s.queue.retired[k])
    ensures RecordOk(s.queue.writers, s.queue.retired[k], base + Total(s.queue.retired[..k]) + 1)
    ensures s.queue.order == Flat(s.queue.retired) + s.queue.queue && Distinct(s.queue.order)
  {
    hide StoreOk, BgOk, StallOk, ReadersOk, LeaderOk, MembersOk, RecordOk, OneAlert, Union;
  }

  /** When no leader is in the window, the journal has got the records of the groups that logged and the
      memtables the entries of the groups that inserted. */
  lemma AccountsClosed(s: Db, base: nat, origin: set<Entry>)
    requires Inv(s, base, origin) && s.leader == None
    ensures s.journal == LoggedBy(s.queue.retired) && InsertedOk(s.queue.retired)
    ensures s.inserts == InsertedBy(s.queue.retired)
    ensures s.store.lastSequence == base + Total(s.queue.retired)
  {
    hide StoreOk, BgOk, StallOk, ReadersOk, MembersOk, RecordOk, OneAlert, Union;
  }

  // ---------------------------------------------------------------- background work

  /** No stranded waiter: work on an immutable memtable is scheduled, at most one call is queued or
      running, and who waits for background work without having been woken waits for a call. */
  lemma NoStrandedWaiter(s: Db, base: nat, origin: set<Entry>)
    requires Inv(s, base, origin)
    ensures (s.store.imm || |s.store.current[0]| >= COMPACTION_TRIGGER) && !s.bg.failed && !s.bg.shuttingDown ==>
              s.bg.scheduled
    ensures s.bg.queuedCalls + (if s.bg.job.Idle? then 0 else 1) <= 1
    ensures s.bg.scheduled <==> s.bg.queuedCalls + (if s.bg.job.Idle? then 0 else 1) == 1
    ensures !s.bg.shuttingDown && !s.bg.scheduled ==>
              forall id :: id in s.queue.writers && s.queue.writers[id].pc.Stalled? ==> s.queue.writers[id].pc.woken
  {
    hide StoreOk, QueueOk, LeaderOk, ReadersOk, AccountsOk, JobOk;
  }

  /** The version from which a LogAndApply started is the current one when it installs, and a flush
      under way still finds its immutable memtable and the log it will name. */
  lemma InstallsOnCurrent(s: Db, base: nat, origin: set<Entry>)
    requires Inv(s, base, origin) && s.bg.job.Written?
    ensures s.bg.job.base == s.store.current
    ensures s.bg.job.flush ==> s.store.imm && s.store.Shaped() && s.bg.job.log == s.store.LogfileNumber()
  {
    hide StoreOk, QueueOk, LeaderOk, ReadersOk, AccountsOk, StallOk, Sane, Entries, MemsOk;
    StoreMems(s.store, Bound(s.store.lastSequence, s.leader));
  }

  /** File-number discipline: the edits that flushes and trivial moves hand to LogAndApply are
      admissible, so its assertions hold and the theorems about the manifest apply to every run. */
  lemma FlushAdmissible(s: Db, base: nat, origin: set<Entry>, level: nat, v: VersionState)
    requires Inv(s, base, origin) && s.bg.job.TableBuilt? && s.bg.job.ok && s.bg.job.file.Some?
    requires Placeable(s.store.current, level, s.bg.job.file.value) && s.store.Shaped()
    requires v.current == s.store.current && v.nextFile == s.store.nextFile && v.logNumber == s.store.logNumber
    ensures Admissible(s.store.names, v,
              FlushEdit(level, s.bg.job.file.value).(logNumber := Some(s.store.LogfileNumber()),
                                                     prevLogNumber := Some(0)))
  {
    hide QueueOk, LeaderOk, ReadersOk, AccountsOk, StallOk;
    var st, bound := s.store, Bound(s.store.lastSequence, s.leader);
    var f := s.bg.job.file.value;
    ImmIsNewer(st, bound);
    LogNumberBelow(st, bound);
    FlushLevels(st.names, st.current, st.tables, level, f, st.Imm().entries);
    assert forall e: Edit, l ::
             FreshAdds(st.current, e) == FreshAdds(st.current, e.(logNumber := l, prevLogNumber := Some(0)));
  }

  /** ... also when the memtable was empty and only the log number moves. */
  lemma EmptyAdmissible(s: Db, base: nat, origin: set<Entry>, v: VersionState)
    requires Inv(s, base, origin)
    requires v.current == s.store.current && v.nextFile == s.store.nextFile && v.logNumber == s.store.logNumber
    ensures s.store.Shaped()
    ensures Admissible(s.store.names, v, EMPTY.(logNumber := Some(s.store.LogfileNumber()), prevLogNumber := Some(0)))
  {
    hide QueueOk, LeaderOk, ReadersOk, AccountsOk, StallOk, BgOk;
    LogNumberBelow(s.store, Bound(s.store.lastSequence, s.leader));
    assert forall l :: 0 <= l < NUM_LEVELS ==> AddedAt([], l) == {};
  }

  lemma LogNumberBelow(st: Store, bound: int)
    requires StoreOk(st, bound)
    ensures st.logNumber <= st.LogfileNumber() < st.nextFile
  {
    var i, n := st.Flushed(), |st.mems| - 1;
    assert i < n ==> Older(st.mems[i], st.mems[n]);
  }

  lemma MoveAdmissible(s: Db, base: nat, origin: set<Entry>, level: nat, f: FileMeta, v: VersionState)
    requires Inv(s, base, origin) && Movable(s.store.current, level, f)
    requires v.current == s.store.current && v.nextFile == s.store.nextFile && v.logNumber == s.store.logNumber
    ensures Admissible(s.store.names, v, MoveEdit(level, f))
  {
    hide QueueOk, LeaderOk, ReadersOk, AccountsOk, StallOk, BgOk;
    MoveLevels(s.store.names, s.store.current, s.store.tables, level, f);
    assert f in Elems(s.store.current[level]);
  }

  /** Tables and logs that are needed have different numbers. */
  lemma NumbersDistinct(s: Db, base: nat, origin: set<Entry>, l: nat, f: FileMeta, i: nat)
    requires Inv(s, base, origin) && HasFile(s.store.current, l, f) && i < |s.store.mems|
    ensures f.number != s.store.mems[i].log && f.number < s.store.nextFile && s.store.mems[i].log < s.store.nextFile
  {
    hide QueueOk, LeaderOk, ReadersOk, AccountsOk, StallOk, BgOk;
    LogsBelow(s.store, Bound(s.store.lastSequence, s.leader));
    assert f in Elems(s.store.current[l]);
  }

  // ---------------------------------------------------------------- exactly once

  ghost predicate Rise(es: seq<Entry>, low: int, high: int) {
    && (forall i :: 0 <= i < |es| ==> low < es[i].sequence <= high)
    && forall i, j :: 0 <= i < j < |es| ==> es[i].sequence < es[j].sequence
  }

  lemma RiseConcat(a: seq<Entry>, b: seq<Entry>, low: int, middle: int, high: int)
    requires Rise(a, low, middle) && Rise(b, middle, high) && low <= middle <= high
    ensures Rise(a + b, low, high)
  {
  }

  lemma GroupsInit(ws: map<nat, Writer>, gs: seq<Group>, base: nat)
    requires gs != [] && GroupsOk(ws, gs, base)
    ensures GroupsOk(ws, gs[..|gs| - 1], base)
    ensures RecordOk(ws, gs[|gs| - 1], base + Total(gs[..|gs| - 1]) + 1)
  {
    hide MembersOk, RecordOk, Total;
    var init := gs[..|gs| - 1];
    forall k | 0 <= k < |init| ensures MembersOk(ws, init[k]) && RecordOk(ws, init[k], base + Total(init[..k]) + 1) {
      assert init[..k] == gs[..k] && init[k] == gs[k];
    }
  }

  lemma RecordAscends(ws: map<nat, Writer>, g: Group, low: nat)
    requires RecordOk(ws, g, low + 1)
    ensures g.inserted <= |g.record| && Rise(g.record[..g.inserted], low, low + |g.record|)
  {
    hide Ops, HasBatches;
  }

  lemma {:induction false} GroupsAscend(ws: map<nat, Writer>, gs: seq<Group>, base: nat)
    requires GroupsOk(ws, gs, base) && InsertedOk(gs)
    ensures Rise(InsertedBy(gs), base, base + Total(gs))
  {
    hide GroupsOk, RecordOk, Rise;
    if gs != [] {
      var n := |gs| - 1;
      var init, g := gs[..n], gs[n];
      GroupsInit(ws, gs, base);
      GroupsAscend(ws, init, base);
      RecordAscends(ws, g, base + Total(init));
      RiseConcat(InsertedBy(init), g.record[..g.inserted], base, base + Total(init), base + Total(gs));
    } else {
      RiseNone(base);
    }
  }

  lemma RiseNone(low: int)
    ensures Rise([], low, low)
  {
  }

  /** No entry is inserted twice: the inserted entries have ascending sequence numbers, group by group. */
  lemma InsertedOnce(s: Db, base: nat, origin: set<Entry>)
    requires Inv(s, base, origin)
    ensures forall i, j :: 0 <= i < j < |s.inserts| ==> s.inserts[i].sequence < s.inserts[j].sequence
  {
    hide StoreOk, BgOk, StallOk, ReadersOk, GroupsOk, InOrder, OneAlert, Union, InsertedBy, LoggedBy, Ops, HasBatches,
      AllLogged;
    var gs, last := s.queue.retired, s.store.lastSequence;
    GroupsAscend(s.queue.writers, gs, base);
    if s.leader.Some? {
      var w := s.leader.value;
      assert Rise(w.record[..w.inserted], last, last + |w.record|);
      RiseConcat(InsertedBy(gs), w.record[..w.inserted], base, last, last + |w.record|);
    }
  }

  /** An acknowledged entry is visible to every Get that begins from now on. */
  lemma AcknowledgedVisible(s: Db, base: nat, origin: set<Entry>, e: Entry)
    requires Inv(s, base, origin) && Acknowledged(s, e)
    ensures e.sequence <= s.store.lastSequence
  {
    hide StoreOk, LeaderOk, BgOk, StallOk, ReadersOk, AccountsOk;
    var gs := s.queue.retired;
    var k :| 0 <= k < |gs| && gs[k].attempted && gs[k].status == OK && e in gs[k].record;
    var j :| 0 <= j < |gs[k].record| && gs[k].record[j] == e;
    Contiguous(s.queue, base, s.store.lastSequence, k, j);
  }

  // ---------------------------------------------------------------- a run

  const EASY: Luck := Luck(true, true, true, false, 1)

  function OneWrite(id: nat, op: Op): seq<Action> {
    [AEnqueue(id, Some([op]), false, EASY), AAppend(true), AInsert(true), AInsert(true), AConclude]
  }

  /** On an idle database with room a write of one operation runs through and is acknowledged. */
  lemma OneWriteRuns(s: Db, id: nat, op: Op)
    requires Opened(s) && |s.store.current[0]| < SLOWDOWN_TRIGGER && !s.bg.failed
    ensures Possible(s, OneWrite(id, op))
    ensures Acknowledged(Execute(s, OneWrite(id, op)), Entry(op.key, s.store.lastSequence + 1, op.value))
  {
    hide Sane, Entries, Logged, Acknowledged, Enqueue, AppendLog, InsertNext, Conclude;
    var e := Entry(op.key, s.store.lastSequence + 1, op.value);
    FirstLeads(s, id, op);
    var s1 := Step(s, AEnqueue(id, Some([op]), false, EASY));
    LeaderFinishes(s1, id, e);
    var s2 := Step(s1, AAppend(true));
    var s3 := Step(s2, AInsert(true));
    var s4 := Step(s3, AInsert(true));
    var s5 := Step(s4, AConclude);
    LastOfRun(s, s1, s2, s3, s4, s5, OneWrite(id, op));
    IsAcknowledged(s5, e);
  }

  lemma LeaderFinishes(s: Db, id: nat, e: Entry)
    requires s.store.Shaped() && s.store.LogfileNumber() in s.store.logs
    requires s.queue.queue == [id] && s.queue.retired == [] && id in s.queue.writers && !s.queue.writers[id].sync
    requires s.leader == Some(Leader(1, [e], 1, ToAppend, OK, false, false, 0))
    ensures Enabled(s, AAppend(true))
    ensures var s2 := Step(s, AAppend(true));
            Enabled(s2, AInsert(true)) &&
            var s3 := Step(s2, AInsert(true));
            Enabled(s3, AInsert(true)) &&
            var s4 := Step(s3, AInsert(true));
            Enabled(s4, AConclude) &&
            var s5 := Step(s4, AConclude);
            |s5.queue.retired| == 1 && s5.queue.retired[0].record == [e] && s5.queue.retired[0].status == OK &&
            s5.queue.retired[0].attempted
  {
  }

  lemma IsAcknowledged(s: Db, e: Entry)
    requires |s.queue.retired| == 1 && s.queue.retired[0].record == [e]
    requires s.queue.retired[0].status == OK && s.queue.retired[0].attempted
    ensures Acknowledged(s, e)
  {
    assert e in s.queue.retired[0].record;
  }

  lemma FirstLeads(s: Db, id: nat, op: Op)
    requires Opened(s) && |s.store.current[0]| < SLOWDOWN_TRIGGER && !s.bg.failed
    ensures var s1 := Enqueue(s, id, Some([op]), false, EASY);
            && s1.store == s.store && s1.bg == s.bg && s1.queue.queue == [id] && s1.queue.retired == []
            && id in s1.queue.writers && !s1.queue.writers[id].sync && s1.queue.writers[id].pc == Leading
            && s1.leader == Some(Leader(1, [Entry(op.key, s.store.lastSequence + 1, op.value)], 1, ToAppend, OK,
                                        false, false, 0))
  {
    hide Sane, Entries, Logged;
    var q := Pushed(s.queue, id, Writer(Some([op]), false, false, OK, Parked(true)));
    assert q.queue == [id] && q.queue[..1] == [id] && [id][1..] == [];
    assert Ops(q.writers, [id]) == [op];
    assert Stamp([op], s.store.lastSequence + 1) == [Entry(op.key, s.store.lastSequence + 1, op.value)];
  }

  lemma LastOfRun(s: Db, s1: Db, s2: Db, s3: Db, s4: Db, s5: Db, a: seq<Action>)
    requires |a| == 5
    requires Enabled(s, a[0]) && s1 == Step(s, a[0]) && Enabled(s1, a[1]) && s2 == Step(s1, a[1])
    requires Enabled(s2, a[2]) && s3 == Step(s2, a[2]) && Enabled(s3, a[3]) && s4 == Step(s3, a[3])
    requires Enabled(s4, a[4]) && s5 == Step(s4, a[4])
    ensures Possible(s, a) && Execute(s, a) == s5
  {
    hide Enabled, Step;
    assert a[1..][0] == a[1] && a[1..][1..] == a[2..] && a[2..][0] == a[2] && a[2..][1..] == a[3..];
    assert a[3..][0] == a[3] && a[3..][1..] == a[4..] && a[4..][0] == a[4] && a[4..][1..] == [];
    assert Possible(s5, []) && Execute(s5, []) == s5;
    assert Possible(s4, a[4..]) && Execute(s4, a[4..]) == s5;
    assert Possible(s3, a[3..]) && Execute(s3, a[3..]) == s5;
    assert Possible(s2, a[2..]) && Execute(s2, a[2..]) == s5;
    assert Possible(s1, a[1..]) && Execute(s1, a[1..]) == s5;
  }
}
