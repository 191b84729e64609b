/** The theorems about the protocol for whole runs: every state in which some sequence of steps of any
    threads leaves a freshly opened database. */
module DbRuns {
  import opened DbFormat
  import opened VersionEdits
  import opened BuilderSpec
  import opened VersionReads
  import opened DbStore
  import opened DbQueue
  import opened DbMachine
  import opened DbInvariants
  import opened DbTheorems
  import opened DbGroups
  import opened DbLogs

  /** Leader uniqueness: whoever is in the unlocked window is the front of the queue. */
  lemma OneLeader(s: Db, actions: seq<Action>, id: nat, other: nat)
    requires Opened(s) && Possible(s, actions)
    requires var ws := Execute(s, actions).queue.writers;
             id in ws && ws[id].pc.Leading? && other in ws && ws[other].pc.Leading?
    ensures id == other && [id] <= Execute(s, actions).queue.queue
  {
    hide Execute, Possible, Opened, Entries, Inv;
    var s', base, origin := Execute(s, actions), s.store.lastSequence, Entries(s.store.current, s.store.tables);
    InvAfter(s, actions);
    LeaderUnique(s', base, origin, id);
    LeaderUnique(s', base, origin, other);
  }

  /** mem_ and log_ are not swapped under an active leader, whatever step follows the run. */
  lemma LeaderKept(s: Db, actions: seq<Action>, a: Action)
    requires Opened(s) && Possible(s, actions) && Enabled(Execute(s, actions), a)
    requires Execute(s, actions).leader.Some? && Step(Execute(s, actions), a).leader.Some?
    ensures var s' := Execute(s, actions);
            var st, st' := s'.store, Step(s', a).store;
            && |st'.mems| == |st.mems| && st.mems != [] && st'.LogfileNumber() == st.LogfileNumber()
            && Step(s', a).leader.value.record == s'.leader.value.record
  {
    hide Execute, Possible, Opened, Entries, Inv, Enabled, Step;
    InvAfter(s, actions);
    LeaderUndisturbed(Execute(s, actions), a, s.store.lastSequence, Entries(s.store.current, s.store.tables));
  }

  /** No lost wake-up: the front of the queue runs, has been signalled, or waits for background work that
      has been signalled to it or is still scheduled, unless the database is closing. */
  lemma FrontAlert(s: Db, actions: seq<Action>)
    requires Opened(s) && Possible(s, actions) && Execute(s, actions).queue.queue != []
    ensures var s' := Execute(s, actions);
            var q := s'.queue;
            && q.queue[0] in q.writers && !q.writers[q.queue[0]].done
            && match q.writers[q.queue[0]].pc
               case Parked(signalled) => signalled
               case Stalled(_, _, woken) => woken || s'.bg.scheduled || s'.bg.shuttingDown
               case Returned => false
               case _ => true
  {
    hide Execute, Possible, Opened, Entries, Inv;
    InvAfter(s, actions);
    NoLostWakeup(Execute(s, actions), s.store.lastSequence, Entries(s.store.current, s.store.tables));
    WaitersServed(s, actions);
  }

  /** ... and every follower that a leader popped has the leader's status, is done, and is signalled or back. */
  lemma FollowerDone(s: Db, actions: seq<Action>, k: nat, i: nat)
    requires Opened(s) && Possible(s, actions)
    requires var q := Execute(s, actions).queue;
             k < |q.retired| && 1 <= i < |q.retired[k].members|
    ensures var q := Execute(s, actions).queue;
            var id := q.retired[k].members[i];
            id in q.writers && q.writers[id].done && q.writers[id].status == q.retired[k].status &&
            (q.writers[id].pc == Parked(true) || q.writers[id].pc == Returned)
  {
    hide Execute, Possible, Opened, Entries, Inv;
    var s', base, origin := Execute(s, actions), s.store.lastSequence, Entries(s.store.current, s.store.tables);
    InvAfter(s, actions);
    NoLostWakeup(s', base, origin);
    GroupCommit(s', base, origin, k);
  }

  /** Group commit: a group whose leader got past MakeRoomForWrite consists of the next writers in enqueue
      order, its record is their batches in that order, and its entries have the sequence numbers right
      behind those of the groups before.  If it succeeded it is logged and inserted as a whole. */
  lemma GroupInOrder(s: Db, actions: seq<Action>, k: nat)
    requires Opened(s) && Possible(s, actions) && k < |Execute(s, actions).queue.retired|
    requires Execute(s, actions).queue.retired[k].attempted
    ensures var q := Execute(s, actions).queue;
            var g, from := q.retired[k], |Flat(q.retired[..k])|;
            && from + |g.members| <= |q.order| && g.members == q.order[from..from + |g.members|]
            && HasBatches(q.writers, g.members)
            && g.record == Stamp(Ops(q.writers, g.members), s.store.lastSequence + Total(q.retired[..k]) + 1)
            && (g.status == OK ==> g.logged && g.inserted == |g.record|)
  {
    hide Execute, Possible, Opened, Entries, Inv, Ops, Stamp, HasBatches, Total;
    var s', base, origin := Execute(s, actions), s.store.lastSequence, Entries(s.store.current, s.store.tables);
    InvAfter(s, actions);
    GroupCommit(s', base, origin, k);
    GroupAt(s'.queue.retired, k);
  }

  lemma {:induction false} GroupAt(gs: seq<Group>, k: nat)
    requires k < |gs|
    ensures Flat(gs[..k]) + gs[k].members <= Flat(gs)
  {
    if k == |gs| - 1 {
    } else {
      var init := gs[..|gs| - 1];
      GroupAt(init, k);
      assert init[..k] == gs[..k];
    }
  }

  /** Exactly once: when no leader is in the window the logs, piece by piece, have got the records of the
      groups that logged, the memtables the entries of the groups that inserted, and no entry twice; last_sequence_
      has grown by the entries of all groups. */
  lemma ExactlyOnce(s: Db, actions: seq<Action>)
    requires Opened(s) && Possible(s, actions) && Execute(s, actions).leader == None
    ensures var s' := Execute(s, actions);
            && s'.journal == LoggedBy(s'.queue.retired) && Sliced(s'.store, s'.journal, s.store.logs)
            && InsertedOk(s'.queue.retired) && s'.inserts == InsertedBy(s'.queue.retired)
            && (forall i, j :: 0 <= i < j < |s'.inserts| ==> s'.inserts[i].sequence < s'.inserts[j].sequence)
            && s'.store.lastSequence == s.store.lastSequence + Total(s'.queue.retired)
  {
    hide Execute, Possible, Opened, Entries, Inv, Sliced;
    var s', base, origin := Execute(s, actions), s.store.lastSequence, Entries(s.store.current, s.store.tables);
    InvAfter(s, actions);
    AccountsClosed(s', base, origin);
    LogsAreSlices(s, actions);
    InsertedOnce(s', base, origin);
  }

  /** A batch in flight is invisible as a whole, also to the readers that began before it. */
  lemma InFlightHidden(s: Db, actions: seq<Action>, id: nat, j: nat)
    requires Opened(s) && Possible(s, actions)
    requires var s' := Execute(s, actions);
             s'.leader.Some? && j < |s'.leader.value.record| && id in s'.readers
    ensures var s' := Execute(s, actions);
            s'.readers[id].snapshot < s'.leader.value.record[j].sequence
  {
    hide Execute, Possible, Opened, Entries, Inv;
    InvAfter(s, actions);
    InFlightInvisible(Execute(s, actions), s.store.lastSequence, Entries(s.store.current, s.store.tables), id, j);
  }

  // ---------------------------------------------------------------- reads

  /** Every access of this reader to its version finds the tables that it visits readable. */
  ghost predicate ReadsFine(s: Db, actions: seq<Action>, id: nat)
    requires Possible(s, actions)
    decreases |actions|
  {
    actions == [] || (ReadFine(s, actions[0], id) && ReadsFine(Step(s, actions[0]), actions[1..], id))
  }

  ghost predicate ReadFine(s: Db, a: Action, id: nat) {
    a.ARead? && a.id == id && id in s.readers && s.readers[id].pc.AtVersion? ==>
      var r := s.readers[id];
      !Fails(SearchOrder(r.version, r.key), s.store.tables, r.key, r.snapshot, a.outcomes)
  }

  ghost predicate NotFailed(s: Db, id: nat) {
    id in s.readers ==> s.readers[id].pc != Done(Error)
  }

  /** Only reading, beginning and ending change the readers. */
  lemma ReadersStay(s: Db, a: Action)
    requires Enabled(s, a) && !a.ABegin? && !a.ARead? && !a.AEnd?
    ensures Step(s, a).readers == s.readers
  {
    hide MaybeSchedule, MakeRoom, Stamp, Ops, GroupSize, Next, SignalAll, Retired, Moved;
  }

  lemma NotFailedStep(s: Db, a: Action, id: nat)
    requires Enabled(s, a) && NotFailed(s, id) && ReadFine(s, a, id)
    ensures NotFailed(Step(s, a), id)
  {
    hide Enqueue, Run, AppendLog, SyncLog, InsertNext, Conclude, Start, Build, LogFlush, CommitManifest,
      InstallVersion, Fails, Lookup, Entries;
    if !a.ABegin? && !a.ARead? && !a.AEnd? { ReadersStay(s, a); }
  }

  lemma {:induction false} NotFailedRun(s: Db, actions: seq<Action>, id: nat)
    requires Possible(s, actions) && NotFailed(s, id) && ReadsFine(s, actions, id)
    ensures NotFailed(Execute(s, actions), id)
    decreases |actions|
  {
    hide Step, Enabled, NotFailed, ReadFine;
    if actions != [] {
      NotFailedStep(s, actions[0], id);
      NotFailedRun(Step(s, actions[0]), actions[1..], id);
    }
  }

  lemma HistoryDistinct(s: Db, base: nat, origin: set<Entry>)
    requires Inv(s, base, origin)
    ensures OneEach(History(s.store))
  {
    hide QueueOk, LeaderOk, BgOk, StallOk, ReadersOk, AccountsOk, MemsOk;
    HistoryOneEach(s.store.mems, Bound(s.store.lastSequence, s.leader));
  }

  /** Snapshot reads without I/O errors: the result is exactly what the newest entry at or below the
      snapshot says, in the history of all inserted entries. */
  lemma SnapshotExact(s: Db, actions: seq<Action>, id: nat)
    requires Opened(s) && Possible(s, actions) && ReadsFine(s, actions, id)
    requires id in Execute(s, actions).readers && Execute(s, actions).readers[id].pc.Done?
    ensures var s' := Execute(s, actions);
            var r := s'.readers[id];
            GivesNewest(r.pc.result, History(s'.store), r.key, r.snapshot)
  {
    SnapshotRead(s, actions, id);
    InvAfter(s, actions);
    hide Execute, Possible, ReadsFine, History, Lookup, Opened, Inv, Entries, GivesNewest;
    var s' := Execute(s, actions);
    NotFailedRun(s, actions, id);
    HistoryDistinct(s', s.store.lastSequence, Entries(s.store.current, s.store.tables));
    ResultGives(History(s'.store), s'.readers[id].key, s'.readers[id].snapshot);
  }

  ghost predicate NotEnded(actions: seq<Action>, id: nat) {
    forall i :: 0 <= i < |actions| && actions[i].AEnd? ==> actions[i].id != id
  }

  lemma ReaderStays(s: Db, a: Action, id: nat)
    requires Enabled(s, a) && id in s.readers && (a.AEnd? ==> a.id != id)
    ensures var s' := Step(s, a);
            id in s'.readers && s'.readers[id].key == s.readers[id].key &&
            s'.readers[id].snapshot == s.readers[id].snapshot
  {
    hide Enqueue, Run, AppendLog, SyncLog, InsertNext, Conclude, Start, Build, LogFlush, CommitManifest,
      InstallVersion, Fails, Lookup, Entries;
    if !a.ABegin? && !a.ARead? && !a.AEnd? { ReadersStay(s, a); }
  }

  lemma {:induction false} ReaderLasts(s: Db, actions: seq<Action>, id: nat)
    requires Possible(s, actions) && id in s.readers && NotEnded(actions, id)
    ensures var s' := Execute(s, actions);
            id in s'.readers && s'.readers[id].key == s.readers[id].key &&
            s'.readers[id].snapshot == s.readers[id].snapshot
    decreases |actions|
  {
    hide Step, Enabled;
    if actions != [] {
      ReaderStays(s, actions[0], id);
      ReaderLasts(Step(s, actions[0]), actions[1..], id);
    }
  }

  lemma OneStep(s: Db, a: Action)
    requires Enabled(s, a)
    ensures Possible(s, [a]) && Execute(s, [a]) == Step(s, a)
  {
    hide Enabled, Step;
    assert [a][1..] == [];
    assert Possible(Step(s, a), []) && Execute(Step(s, a), []) == Step(s, a);
  }

  /** No stranded waiter: who waits for background work unwoken waits for a call that is scheduled, and
      an immutable memtable, or a level 0 at its trigger, always has its call; at most one call is queued or running. */
  lemma WaitersServed(s: Db, actions: seq<Action>)
    requires Opened(s) && Possible(s, actions)
    ensures var s' := Execute(s, actions);
            && ((s'.store.imm || |s'.store.current[0]| >= COMPACTION_TRIGGER) ==>
                  s'.bg.scheduled || s'.bg.failed || s'.bg.shuttingDown)
            && s'.bg.queuedCalls + (if s'.bg.job.Idle? then 0 else 1) == (if s'.bg.scheduled then 1 else 0)
            && (!s'.bg.shuttingDown && !s'.bg.scheduled ==>
                  forall id :: id in s'.queue.writers && s'.queue.writers[id].pc.Stalled? ==>
                    s'.queue.writers[id].pc.woken)
  {
    hide Execute, Possible, Opened, Entries, Inv;
    InvAfter(s, actions);
    NoStrandedWaiter(Execute(s, actions), s.store.lastSequence, Entries(s.store.current, s.store.tables));
  }

  /** A flush or move under way installs on the version from which it started, and the log that a flush
      names is the one in use: nothing has been switched since. */
  lemma InstallUnchanged(s: Db, actions: seq<Action>)
    requires Opened(s) && Possible(s, actions) && Execute(s, actions).bg.job.Written?
    ensures var st, job := Execute(s, actions).store, Execute(s, actions).bg.job;
            job.base == st.current && (job.flush ==> st.imm && st.Shaped() && job.log == st.LogfileNumber())
  {
    hide Execute, Possible, Opened, Entries, Inv;
    InvAfter(s, actions);
    InstallsOnCurrent(Execute(s, actions), s.store.lastSequence, Entries(s.store.current, s.store.tables));
  }

  /** The tables of the current version and the logs of memtables have different numbers, all given out. */
  lemma NumbersApart(s: Db, actions: seq<Action>, l: nat, f: FileMeta, i: nat)
    requires Opened(s) && Possible(s, actions)
    requires HasFile(Execute(s, actions).store.current, l, f) && i < |Execute(s, actions).store.mems|
    ensures var st := Execute(s, actions).store;
            f.number != st.mems[i].log && f.number < st.nextFile && st.mems[i].log < st.nextFile
  {
    hide Execute, Possible, Opened, Entries, Inv, HasFile;
    InvAfter(s, actions);
    NumbersDistinct(Execute(s, actions), s.store.lastSequence, Entries(s.store.current, s.store.tables), l, f, i);
  }
}
