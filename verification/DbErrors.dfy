/** Background errors: what records one, that it stays, and that every later write fails. */
module DbErrors {
  import opened DbFormat
  import opened BuilderSpec
  import opened VersionReads
  import opened DbStore
  import opened DbQueue
  import opened DbMachine
  import opened DbInvariants
  import opened DbSteps
  import opened DbBackground
  import opened DbTheorems
  import opened DbGroups
  import opened DbLogs
  import opened DbManifest
  import opened DbWork
  import opened DbWrites
  import opened DbTurns

  // ---------------------------------------------------------------- an error stays

  lemma WriterFailed(s: Db, a: Action)
    requires Enabled(s, a) && (a.AEnqueue? || a.ARun?)
    ensures Step(s, a).bg.failed == s.bg.failed
  {
    hide Enqueue, Run;
    WriterSchedules(s, a);
  }

  /** bg_error_ is never cleared. */
  lemma FailedStays(s: Db, a: Action)
    requires Enabled(s, a) && s.bg.failed
    ensures Step(s, a).bg.failed
  {
    hide Enqueue, Run, Next, SignalAll, Retired, ReadOne;
    if a.AEnqueue? || a.ARun? { WriterFailed(s, a); }
  }

  lemma {:induction false} FailedRun(s: Db, actions: seq<Action>)
    requires Possible(s, actions) && s.bg.failed
    ensures Execute(s, actions).bg.failed
    decreases |actions|
  {
    hide Step, Enabled;
    if actions != [] {
      FailedStays(s, actions[0]);
      FailedRun(Step(s, actions[0]), actions[1..]);
    }
  }

  // ---------------------------------------------------------------- what records an error

  /** The leader's sync has failed, and it has not yet taken the mutex back. */
  ghost predicate SyncFailed(s: Db, k: nat) {
    s.leader.Some? && s.leader.value.stage == Ended && s.leader.value.syncError && s.leader.value.status == Failed &&
    |s.queue.retired| == k
  }

  ghost predicate SyncRecorded(s: Db, k: nat) {
    s.bg.failed && k < |s.queue.retired| && s.queue.retired[k].status == Failed
  }

  lemma SyncErrorEnds(s: Db, a: Action)
    requires Enabled(s, a) && OfLeader(a) && SyncFailed(s, |s.queue.retired|)
    ensures SyncRecorded(Step(s, a), |s.queue.retired|)
  {
    hide SignalAll;
    SignalSame(s.queue);
  }

  lemma SyncErrorStep(s: Db, a: Action, base: nat, origin: set<Entry>, k: nat)
    requires Inv(s, base, origin) && Enabled(s, a) && (SyncFailed(s, k) || SyncRecorded(s, k))
    ensures SyncFailed(Step(s, a), k) || SyncRecorded(Step(s, a), k)
  {
    hide Inv, Step, Enabled;
    if SyncRecorded(s, k) {
      FailedStays(s, a);
      RetiredStay(s, a);
      PrefixAt(s.queue.retired, Step(s, a).queue.retired, k);
    } else if OfLeader(a) {
      SyncErrorEnds(s, a);
    } else {
      LeaderKnown(s, base, origin);
      OthersWait(s, a);
    }
  }

  lemma {:induction false} SyncErrorRun(s: Db, actions: seq<Action>, base: nat, origin: set<Entry>, k: nat)
    requires Inv(s, base, origin) && Possible(s, actions) && (SyncFailed(s, k) || SyncRecorded(s, k))
    ensures SyncFailed(Execute(s, actions), k) || SyncRecorded(Execute(s, actions), k)
    decreases |actions|
  {
    hide Inv, Step, Enabled, SyncFailed, SyncRecorded;
    if actions != [] {
      SyncErrorStep(s, actions[0], base, origin, k);
      StepKeeps(s, actions[0], base, origin);
      SyncErrorRun(Step(s, actions[0]), actions[1..], base, origin, k);
    }
  }

  /** A failed sync of the log is the status of its group, and once the group is retired bg_error_ is set. */
  lemma SyncErrorRecorded(s: Db, first: seq<Action>, rest: seq<Action>)
    requires Opened(s) && Possible(s, first) && Enabled(Execute(s, first), ASync(false))
    requires Possible(Step(Execute(s, first), ASync(false)), rest)
    ensures var k := |Execute(s, first).queue.retired|;
            var s' := Execute(Step(Execute(s, first), ASync(false)), rest);
            k < |s'.queue.retired| ==> s'.queue.retired[k].status == Failed && s'.bg.failed
  {
    var s0, base, origin := Execute(s, first), s.store.lastSequence, Entries(s.store.current, s.store.tables);
    InvAfter(s, first);
    assert SyncFailed(Step(s0, ASync(false)), |s0.queue.retired|);
    hide Execute, Possible, Opened, Entries, Inv, Step, Enabled;
    StepKeeps(s0, ASync(false), base, origin);
    SyncErrorRun(Step(s0, ASync(false)), rest, base, origin, |s0.queue.retired|);
  }

  /** The file operation of the background call has failed, or the error is recorded. */
  ghost predicate WorkFailed(s: Db) {
    || s.bg.failed || (s.bg.job.TableBuilt? && !s.bg.job.ok) || (s.bg.job.Written? && !s.bg.job.ok)
  }

  lemma WorkFailedStep(s: Db, a: Action)
    requires Enabled(s, a) && WorkFailed(s)
    ensures WorkFailed(Step(s, a))
  {
    hide Enqueue, Run, Next, SignalAll, Retired, ReadOne;
    if a.AEnqueue? || a.ARun? {
      WriterFailed(s, a);
      WriterJob(s, a);
    }
  }

  lemma {:induction false} WorkFailedRun(s: Db, actions: seq<Action>)
    requires Possible(s, actions) && WorkFailed(s)
    ensures WorkFailed(Execute(s, actions))
    decreases |actions|
  {
    hide Step, Enabled, WorkFailed;
    if actions != [] {
      WorkFailedStep(s, actions[0]);
      WorkFailedRun(Step(s, actions[0]), actions[1..]);
    }
  }

  /** When a call ends in which building the table or writing the manifest failed, bg_error_ is set. */
  lemma WorkErrorRecorded(s: Db, bad: Action, rest: seq<Action>)
    requires Enabled(s, bad) && ((bad.ABuild? && !bad.ok) || (bad.ACommit? && !bad.ok))
    requires Possible(Step(s, bad), rest)
    ensures var s' := Execute(Step(s, bad), rest); s'.bg.job.Idle? ==> s'.bg.failed
  {
    assert WorkFailed(Step(s, bad));
    hide Step, Enabled;
    WorkFailedRun(Step(s, bad), rest);
  }

  // ---------------------------------------------------------------- no write after an error

  lemma ProceedFails(s: Db, force: bool, allowDelay: bool, o: Luck)
    requires s.queue.queue != [] && s.queue.queue[0] in s.queue.writers && s.store.mems != [] && s.bg.failed
    ensures var s' := Proceed(s, force, allowDelay, o);
            && s'.leader == s.leader
            && s'.queue.retired == s.queue.retired + [Bare(s.queue.queue[0], Failed)]
  {
    hide MakeRoom, MaybeSchedule;
    MakeRoomContract(s.store, s.bg, force, allowDelay, o);
  }

  /** The writer that gets the mutex after an error does not lead: it is back, with the error. */
  lemma WriterFails(s: Db, a: Action)
    requires Enabled(s, a) && (a.AEnqueue? || a.ARun?) && s.bg.failed && s.leader.None?
    ensures var s' := Step(s, a);
            && s'.leader.None?
            && (s'.queue.retired == s.queue.retired ||
                exists id :: s'.queue.retired == s.queue.retired + [Bare(id, Failed)])
  {
    hide Proceed, Moved, Bare;
    match a
    case AEnqueue(id, batch, sync, o) =>
      if s.queue.queue == [] {
        var w := Writer(batch, sync, false, OK, Parked(true));
        PushedFirst(s.queue, id, w);
        ProceedFails(s.(queue := Pushed(s.queue, id, w)), batch.None?, !batch.None?, o);
      }
    case ARun(id, o) =>
      MovedSame(s.queue, id);
      if s.queue.queue != [] && s.queue.queue[0] == id {
        var w := s.queue.writers[id];
        match w.pc
        case Parked(_) => ProceedFails(s, w.batch.None?, !w.batch.None?, o);
        case Napping(force) => ProceedFails(s, force, false, o);
        case Stalled(force, allowDelay, _) => ProceedFails(s, force, allowDelay, o);
        case _ =>
      }
  }

  /** No attempt was made for this group, and it failed. */
  predicate Refused(g: Group) {
    !g.attempted && g.status == Failed && g.record == []
  }

  ghost predicate RefusedAt(q: Queue, k: nat) {
    k < |q.retired| && Refused(q.retired[k])
  }

  /** How many groups there will be when the leader in the window, if there is one, has returned. */
  function Due(s: Db): nat {
    |s.queue.retired| + if s.leader.Some? then 1 else 0
  }

  /** The group of the leader in the window is this one, whether it has been retired or not. */
  ghost predicate LeadersGroup(s: Db, k: nat, ids: seq<nat>) {
    if k < |s.queue.retired| then s.queue.retired[k].members <= ids
    else s.leader.Some? && s.leader.value.count <= |ids| && ids <= s.queue.queue && |s.queue.retired| == k
  }

  lemma FailsStep(s: Db, a: Action, base: nat, origin: set<Entry>)
    requires Inv(s, base, origin) && Enabled(s, a) && s.bg.failed
    ensures var s' := Step(s, a);
            && s'.bg.failed && s.queue.retired <= s'.queue.retired && Due(s) <= Due(s')
            && forall k :: Due(s) <= k < Due(s') ==> RefusedAt(s'.queue, k)
  {
    hide Step, Enabled, Inv, LeaderOk;
    FailedStays(s, a);
    RetiredStay(s, a);
    LeaderKnown(s, base, origin);
    if a.AConclude? {
      ConcludeEnds(s);
    } else if OfLeader(a) {
      LeaderStays(s, a);
    } else if s.leader.Some? {
      OthersWait(s, a);
    } else if a.AEnqueue? || a.ARun? {
      WriterFails(s, a);
    } else {
      OthersIdle(s, a);
    }
  }

  lemma ConcludeEnds(s: Db)
    requires Enabled(s, AConclude)
    ensures var s' := Step(s, AConclude);
            && s.leader.Some? && s'.leader.None? && |s'.queue.retired| == |s.queue.retired| + 1
            && s'.queue.retired[|s.queue.retired|].members == s.queue.queue[..s.leader.value.count]
  {
    hide SignalAll;
    SignalSame(s.queue);
  }

  lemma LeaderStays(s: Db, a: Action)
    requires Enabled(s, a) && OfLeader(a) && !a.AConclude?
    ensures var s' := Step(s, a);
            && s.leader.Some? && s'.leader.Some? && s'.queue == s.queue
            && s'.leader.value.count == s.leader.value.count
  {
  }

  lemma LeadersGroupStep(s: Db, a: Action, base: nat, origin: set<Entry>, k: nat, ids: seq<nat>)
    requires Inv(s, base, origin) && Enabled(s, a) && LeadersGroup(s, k, ids)
    ensures LeadersGroup(Step(s, a), k, ids)
  {
    hide Step, Enabled, Inv, LeaderOk;
    RetiredStay(s, a);
    LeaderKnown(s, base, origin);
    if k < |s.queue.retired| {
      assert Step(s, a).queue.retired[k] == s.queue.retired[k];
    } else if a.AConclude? {
      ConcludeEnds(s);
    } else if OfLeader(a) {
      LeaderStays(s, a);
    } else {
      OthersWait(s, a);
    }
  }

  lemma {:induction false} LeadersGroupRun(s: Db, actions: seq<Action>, base: nat, origin: set<Entry>, k: nat,
                                           ids: seq<nat>)
    requires Inv(s, base, origin) && Possible(s, actions) && LeadersGroup(s, k, ids)
    ensures LeadersGroup(Execute(s, actions), k, ids)
    decreases |actions|
  {
    hide Inv, Step, Enabled, LeadersGroup;
    if actions != [] {
      LeadersGroupStep(s, actions[0], base, origin, k, ids);
      StepKeeps(s, actions[0], base, origin);
      LeadersGroupRun(Step(s, actions[0]), actions[1..], base, origin, k, ids);
    }
  }

  lemma RefusedStays(q: Queue, q': Queue, k: nat)
    requires RefusedAt(q, k) && q.retired <= q'.retired
    ensures RefusedAt(q', k)
  {
  }

  lemma {:induction false} FailsRun(s: Db, actions: seq<Action>, base: nat, origin: set<Entry>)
    requires Inv(s, base, origin) && Possible(s, actions) && s.bg.failed
    ensures var s' := Execute(s, actions);
            && s.queue.retired <= s'.queue.retired && Due(s) <= Due(s')
            && forall k :: Due(s) <= k < Due(s') ==> RefusedAt(s'.queue, k)
    decreases |actions|
  {
    hide Inv, Step, Enabled, RefusedAt, Due;
    if actions != [] {
      var s1, s' := Step(s, actions[0]), Execute(s, actions);
      FailsStep(s, actions[0], base, origin);
      StepKeeps(s, actions[0], base, origin);
      FailsRun(s1, actions[1..], base, origin);
      forall k | Due(s) <= k < Due(s1) ensures RefusedAt(s'.queue, k) {
        RefusedStays(s1.queue, s'.queue, k);
      }
    }
  }

  /** After an error, whatever recorded it, no group is attempted any more but the one in the window, and
      all others fail; in particular every Write that is called after the error fails. */
  lemma NoWriteAfterError(s: Db, first: seq<Action>, rest: seq<Action>, id: nat)
    requires Opened(s) && Possible(s, first) && Execute(s, first).bg.failed && Possible(Execute(s, first), rest)
    ensures var s0, s' := Execute(s, first), Execute(Execute(s, first), rest);
            && s'.bg.failed
            && (forall k :: |s0.queue.retired| + (if s0.leader.Some? then 1 else 0) <= k < |s'.queue.retired| ==>
                  Refused(s'.queue.retired[k]))
            && (id !in s0.queue.writers && id in s'.queue.writers && s'.queue.writers[id].pc.Returned? ==>
                  s'.queue.writers[id].status == Failed)
  {
    hide Execute, Possible, Opened, Entries, Inv, Refused;
    var s0, base, origin := Execute(s, first), s.store.lastSequence, Entries(s.store.current, s.store.tables);
    var s' := Execute(s0, rest);
    InvAfter(s, first);
    FailedRun(s0, rest);
    FailsRun(s0, rest, base, origin);
    RunKeeps(s0, rest, base, origin);
    forall k | Due(s0) <= k < |s'.queue.retired| ensures Refused(s'.queue.retired[k]) {
      assert RefusedAt(s'.queue, k);
    }
    if id !in s0.queue.writers && id in s'.queue.writers && s'.queue.writers[id].pc.Returned? {
      LateFails(s0, rest, base, origin, id);
    }
  }

  lemma LateFails(s: Db, rest: seq<Action>, base: nat, origin: set<Entry>, id: nat)
    requires Inv(s, base, origin) && Possible(s, rest) && s.bg.failed && id !in s.queue.writers
    requires var s' := Execute(s, rest); id in s'.queue.writers && s'.queue.writers[id].pc.Returned?
    ensures Execute(s, rest).queue.writers[id].status == Failed
  {
    hide Execute, Possible, Inv;
    var s' := Execute(s, rest);
    RunKeeps(s, rest, base, origin);
    FailsRun(s, rest, base, origin);
    var k, i := GroupOfReturned(s', base, origin, id);
    if k < |s.queue.retired| {
      PrefixAt(s.queue.retired, s'.queue.retired, k);
      MembersKnown(s, base, origin, k, i);
    } else if k < Due(s) {
      LeaderHasGroup(s, base, origin);
      LeadersGroupRun(s, rest, base, origin, k, s.queue.queue[..s.leader.value.count]);
      LeadersMember(s', k, s.queue.queue[..s.leader.value.count], i);
    } else {
      assert RefusedAt(s'.queue, k);
    }
  }

  lemma PrefixAt<T>(a: seq<T>, b: seq<T>, k: nat)
    requires a <= b && k < |a|
    ensures b[k] == a[k]
  {
  }

  lemma LeadersMember(s: Db, k: nat, ids: seq<nat>, i: nat)
    requires LeadersGroup(s, k, ids) && k < |s.queue.retired| && i < |s.queue.retired[k].members|
    ensures s.queue.retired[k].members[i] in ids
  {
  }

  lemma MembersKnown(s: Db, base: nat, origin: set<Entry>, k: nat, i: nat)
    requires Inv(s, base, origin) && k < |s.queue.retired| && i < |s.queue.retired[k].members|
    ensures s.queue.retired[k].members[i] in s.queue.writers
  {
    hide StoreOk, LeaderOk, BgOk, StallOk, ReadersOk, AccountsOk, GroupsOk, OneAlert, InOrder;
    RetiredLeft(s.queue, k, i);
  }

  lemma LeaderHasGroup(s: Db, base: nat, origin: set<Entry>)
    requires Inv(s, base, origin) && s.leader.Some?
    ensures 0 < s.leader.value.count <= |s.queue.queue|
    ensures LeadersGroup(s, |s.queue.retired|, s.queue.queue[..s.leader.value.count])
    ensures forall id :: id in s.queue.queue[..s.leader.value.count] ==> id in s.queue.writers
  {
    hide StoreOk, BgOk, StallOk, ReadersOk, AccountsOk, GroupsOk, OneAlert, InOrder;
    QueueKnown(s.queue);
  }
}
