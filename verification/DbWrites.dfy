/** What a Write does with its group: the steps that its leader takes in its window. */
module DbWrites {
  import opened DbFormat
  import opened BuilderSpec
  import opened VersionReads
  import opened DbStore
  import opened DbQueue
  import opened DbMachine
  import opened DbInvariants
  import opened DbSteps
  import opened DbBackground
  import opened DbTheorems
  import opened DbGroups
  import opened DbLogs

  // ---------------------------------------------------------------- what writers keep

  /** No writer is forgotten, and none changes what it was called with. */
  ghost predicate SameCalls(ws: map<nat, Writer>, ws': map<nat, Writer>) {
    forall id :: id in ws ==> id in ws' && ws'[id].batch == ws[id].batch && ws'[id].sync == ws[id].sync
  }

  lemma ProceedCalls(s: Db, force: bool, allowDelay: bool, o: Luck)
    requires s.queue.queue != [] && s.queue.queue[0] in s.queue.writers && s.store.mems != []
    ensures SameCalls(s.queue.writers, Proceed(s, force, allowDelay, o).queue.writers)
  {
    hide MakeRoom, MaybeSchedule, Stamp, Ops, GroupSize;
    MakeRoomContract(s.store, s.bg, force, allowDelay, o);
  }

  lemma WriterCalls(s: Db, a: Action)
    requires Enabled(s, a) && (a.AEnqueue? || a.ARun?)
    ensures SameCalls(s.queue.writers, Step(s, a).queue.writers)
  {
    hide Proceed;
    match a
    case AEnqueue(id, batch, sync, o) =>
      if s.queue.queue == [] {
        var w := Writer(batch, sync, false, OK, Parked(true));
        PushedFirst(s.queue, id, w);
        ProceedCalls(s.(queue := Pushed(s.queue, id, w)), batch.None?, !batch.None?, o);
      }
    case ARun(id, o) =>
      if s.queue.queue != [] && s.queue.queue[0] == id {
        var w := s.queue.writers[id];
        match w.pc
        case Parked(_) => ProceedCalls(s, w.batch.None?, !w.batch.None?, o);
        case Napping(force) => ProceedCalls(s, force, false, o);
        case Stalled(force, allowDelay, _) => ProceedCalls(s, force, allowDelay, o);
        case _ =>
      }
  }

  lemma CallsStay(s: Db, a: Action)
    requires Enabled(s, a)
    ensures SameCalls(s.queue.writers, Step(s, a).queue.writers)
  {
    hide Enqueue, Run, Next, MaybeSchedule, ReadOne, Appended, WithEntry, Built, WithVersion, Retired, SignalAll,
      SameCalls;
    SameAsIs(s.queue.writers);
    SignalCalls(s.queue);
    match a
    case AEnqueue(_, _, _, _) => WriterCalls(s, a);
    case ARun(_, _) => WriterCalls(s, a);
    case AConclude =>
      var w := s.leader.value;
      var q := if w.syncError then SignalAll(s.queue) else s.queue;
      SignalSame(s.queue);
      RetiredCalls(s.queue, q, GroupOf(s.queue, w));
    case ALogFlush(_, _) => SignalTwice(s.queue);
    case AInstall(_) => SignalTwice(s.queue);
    case _ =>
  }

  lemma SameAsIs(ws: map<nat, Writer>)
    ensures SameCalls(ws, ws)
  {
  }

  lemma SignalCalls(q: Queue)
    ensures SameCalls(q.writers, SignalAll(q).writers)
  {
  }

  lemma SignalTwice(q: Queue)
    ensures SameCalls(q.writers, SignalAll(SignalAll(q)).writers)
  {
  }

  lemma RetiredCalls(q: Queue, q1: Queue, g: Group)
    requires SameCalls(q.writers, q1.writers) && q1.queue == q.queue && 0 < |g.members| <= |q.queue|
    ensures SameCalls(q.writers, Retired(q1, g).writers)
  {
    hide PlaceOf;
  }

  // ---------------------------------------------------------------- the leader's window

  predicate OfLeader(a: Action) {
    a.AAppend? || a.ASync? || a.AInsert? || a.AConclude?
  }

  /** What the leader of the k-th group does: its steps until the group is retired. */
  ghost function WindowOf(s: Db, actions: seq<Action>, k: nat): seq<Action>
    requires Possible(s, actions)
    decreases |actions|
  {
    if actions == [] then []
    else
      (if OfLeader(actions[0]) && |s.queue.retired| == k then [actions[0]] else []) +
      WindowOf(Step(s, actions[0]), actions[1..], k)
  }

  /** Where the insertions begin. */
  function FirstInsert(sync: bool): nat {
    if sync then 2 else 1
  }

  /** The steps of a leader in the window so far. */
  ghost predicate InWindow(v: seq<Action>, w: Leader, sync: bool) {
    match w.stage
    case ToAppend => v == []
    case ToSync => sync && v == [AAppend(true)]
    case ToInsert => Inserting(v, sync, w.inserted)
    case Ended =>
      if !w.logged then v == [AAppend(false)] && w.status == Failed && w.inserted == 0
      else if w.syncError then sync && v == [AAppend(true), ASync(false)] && w.status == Failed && w.inserted == 0
      else
        && v != [] && v[|v| - 1].AInsert? && Inserting(v[..|v| - 1], sync, w.inserted)
        && w.inserted <= |w.record|
        && w.status == (if w.inserted == |w.record| then OK else Failed)
        && (w.inserted < |w.record| ==> v[|v| - 1] == AInsert(false))
  }

  ghost predicate Inserting(v: seq<Action>, sync: bool, n: nat) {
    && |v| == FirstInsert(sync) + n && v[0] == AAppend(true) && (sync ==> v[1] == ASync(true))
    && forall i :: FirstInsert(sync) <= i < |v| ==> v[i] == AInsert(true)
  }

  /** Each of the n entries was inserted. */
  predicate AllInserted(v: seq<Action>, at: nat, n: nat) {
    |v| == at + n + 2 && forall i :: at <= i < at + n ==> v[i] == AInsert(true)
  }

  /** The whole window of a group: the record is appended; if that succeeds and the leader asked for it,
      the log is synced; if that succeeds, the entries are inserted one by one, until the insertion finds no
      more; any failure ends the window, and the status is OK exactly if there was none. */
  ghost predicate Followed(v: seq<Action>, g: Group, sync: bool) {
    && |v| >= 2 && v[|v| - 1] == AConclude && v[0] == AAppend(g.logged)
    && (!g.logged ==> |v| == 2 && g.status == Failed)
    && (g.logged && sync ==> |v| >= 3 && v[1].ASync?)
    && (g.logged && sync && !v[1].ok ==> |v| == 3 && g.status == Failed && g.inserted == 0)
    && (forall i :: FirstInsert(sync) <= i < |v| - 1 ==> v[i].AInsert?)
    && (forall i :: FirstInsert(sync) <= i < |v| - 2 ==> v[i].ok)
    && (g.status == OK <==> g.logged && (sync ==> v[1].ok) && AllInserted(v, FirstInsert(sync), |g.record|))
  }

  ghost predicate Progress(s: Db, v: seq<Action>) {
    if s.leader.None? then v == []
    else s.queue.queue != [] && s.queue.queue[0] in s.queue.writers &&
         InWindow(v, s.leader.value, s.queue.writers[s.queue.queue[0]].sync)
  }

  /** A step of the leader that does not end its window. */
  lemma LeaderProgress(s: Db, a: Action, v: seq<Action>)
    requires Enabled(s, a) && OfLeader(a) && !a.AConclude? && LeaderOk(s.queue, s.leader, s.store) && Progress(s, v)
    ensures Progress(Step(s, a), v + [a]) && Step(s, a).queue == s.queue
  {
    hide Stamp, Ops, HasBatches, AllLogged;
  }

  /** ... and the one that does. */
  lemma WindowDone(s: Db, v: seq<Action>)
    requires Enabled(s, AConclude) && LeaderOk(s.queue, s.leader, s.store) && Progress(s, v)
    ensures var s', front := Step(s, AConclude), s.queue.queue[0];
            && s'.leader.None? && |s'.queue.retired| == |s.queue.retired| + 1
            && var g := s'.queue.retired[|s.queue.retired|];
               g.attempted && g.members != [] && g.members[0] == front && front in s.queue.writers &&
               Followed(v + [AConclude], g, s.queue.writers[front].sync)
  {
    hide Stamp, Ops, HasBatches, AllLogged, SignalAll;
    SignalSame(s.queue);
  }

  lemma ProceedLeads(s: Db, force: bool, allowDelay: bool, o: Luck)
    requires s.queue.queue != [] && s.queue.queue[0] in s.queue.writers && s.store.mems != [] && s.leader.None?
    ensures var s' := Proceed(s, force, allowDelay, o);
            && (s'.leader.Some? ==>
                  s'.leader.value.stage == ToAppend && s'.queue.retired == s.queue.retired &&
                  s'.queue.queue == s.queue.queue && s.queue.queue[0] in s'.queue.writers)
            && (s'.queue.retired == s.queue.retired ||
                (s'.leader.None? && |s'.queue.retired| == |s.queue.retired| + 1 &&
                 !s'.queue.retired[|s.queue.retired|].attempted))
  {
    hide MakeRoom, MaybeSchedule, Stamp, Ops, GroupSize;
  }

  /** A writer that gets the mutex starts a window or retires itself. */
  lemma WriterLeads(s: Db, a: Action)
    requires Enabled(s, a) && (a.AEnqueue? || a.ARun?) && s.leader.None?
    ensures var s' := Step(s, a);
            && Progress(s', [])
            && (s'.queue.retired == s.queue.retired ||
                (s'.leader.None? && |s'.queue.retired| == |s.queue.retired| + 1 &&
                 !s'.queue.retired[|s.queue.retired|].attempted))
  {
    hide Proceed, Moved;
    match a
    case AEnqueue(id, batch, sync, o) =>
      if s.queue.queue == [] {
        var w := Writer(batch, sync, false, OK, Parked(true));
        PushedFirst(s.queue, id, w);
        ProceedLeads(s.(queue := Pushed(s.queue, id, w)), batch.None?, !batch.None?, o);
      }
    case ARun(id, o) =>
      MovedSame(s.queue, id);
      if s.queue.queue != [] && s.queue.queue[0] == id {
        var w := s.queue.writers[id];
        match w.pc
        case Parked(_) => ProceedLeads(s, w.batch.None?, !w.batch.None?, o);
        case Napping(force) => ProceedLeads(s, force, false, o);
        case Stalled(force, allowDelay, _) => ProceedLeads(s, force, allowDelay, o);
        case _ =>
      }
  }

  lemma MovedSame(q: Queue, id: nat)
    requires id in q.writers
    ensures forall pc :: Moved(q, id, pc).retired == q.retired && Moved(q, id, pc).queue == q.queue
  {
  }

  /** While a leader is in the window the others leave it, the front and the groups alone. */
  lemma OthersWait(s: Db, a: Action)
    requires Enabled(s, a) && !OfLeader(a) && s.leader.Some? && LeaderOk(s.queue, s.leader, s.store)
    ensures var s' := Step(s, a);
            && s'.leader == s.leader && s'.queue.retired == s.queue.retired
            && s.queue.queue <= s'.queue.queue
  {
    hide Proceed, Next, MaybeSchedule, ReadOne, Stamp, Ops, HasBatches, AllLogged;
  }

  /** Without a leader only a writer can change that, or retire a group. */
  lemma OthersIdle(s: Db, a: Action)
    requires Enabled(s, a) && !OfLeader(a) && !a.AEnqueue? && !a.ARun?
    ensures Step(s, a).leader == s.leader && Step(s, a).queue.retired == s.queue.retired
    ensures Step(s, a).queue.queue == s.queue.queue
  {
    hide Next, MaybeSchedule, ReadOne;
  }

  /** One step: the window goes on, or ends as it has to. */
  lemma ProgressStep(s: Db, a: Action, base: nat, origin: set<Entry>, v: seq<Action>)
    requires Inv(s, base, origin) && Enabled(s, a) && Progress(s, v)
    ensures var s', k := Step(s, a), |s.queue.retired|;
            var v' := v + if OfLeader(a) then [a] else [];
            && k <= |s'.queue.retired| <= k + 1
            && (|s'.queue.retired| == k ==> Progress(s', v'))
            && (|s'.queue.retired| > k ==>
                  Progress(s', []) && (s'.queue.retired[k].attempted ==> WindowOver(s', k, v')))
  {
    hide StoreOk, QueueOk, LeaderOk, BgOk, StallOk, ReadersOk, AccountsOk, Step, Enabled, Followed, InWindow;
    assert v + [] == v;
    CallsStay(s, a);
    if a.AConclude? {
      WindowDone(s, v);
    } else if OfLeader(a) {
      LeaderProgress(s, a, v);
    } else if s.leader.Some? {
      OthersWait(s, a);
    } else if a.AEnqueue? || a.ARun? {
      WriterLeads(s, a);
    } else {
      OthersIdle(s, a);
    }
  }

  /** Group k has been retired after this window. */
  ghost predicate WindowOver(s: Db, k: nat, v: seq<Action>) {
    && k < |s.queue.retired| && s.queue.retired[k].members != []
    && var g := s.queue.retired[k];
       g.members[0] in s.queue.writers && Followed(v, g, s.queue.writers[g.members[0]].sync)
  }

  lemma OverStays(s: Db, a: Action, k: nat, v: seq<Action>)
    requires Enabled(s, a) && WindowOver(s, k, v)
    ensures WindowOver(Step(s, a), k, v)
  {
    hide Step, Enabled, Followed;
    RetiredStay(s, a);
    CallsStay(s, a);
    assert Step(s, a).queue.retired[k] == s.queue.retired[k];
  }

  lemma {:induction false} OverRun(s: Db, actions: seq<Action>, k: nat, v: seq<Action>)
    requires Possible(s, actions) && WindowOver(s, k, v)
    ensures WindowOver(Execute(s, actions), k, v) && WindowOf(s, actions, k) == []
    decreases |actions|
  {
    hide Step, Enabled, WindowOver;
    if actions != [] {
      OverStays(s, actions[0], k, v);
      assert |s.queue.retired| > k by { OverAt(s, k, v); }
      OverRun(Step(s, actions[0]), actions[1..], k, v);
    }
  }

  lemma OverAt(s: Db, k: nat, v: seq<Action>)
    requires WindowOver(s, k, v)
    ensures |s.queue.retired| > k
  {
  }

  lemma {:induction false} WindowRun(s: Db, actions: seq<Action>, base: nat, origin: set<Entry>, k: nat, v: seq<Action>)
    requires Inv(s, base, origin) && Possible(s, actions) && |s.queue.retired| <= k
    requires if |s.queue.retired| == k then Progress(s, v) else v == [] && exists u :: Progress(s, u)
    requires k < |Execute(s, actions).queue.retired| && Execute(s, actions).queue.retired[k].attempted
    ensures WindowOver(Execute(s, actions), k, v + WindowOf(s, actions, k))
    decreases |actions|
  {
    hide Inv, Step, Enabled, WindowOver, Progress;
    if actions != [] {
      var a, s1 := actions[0], Step(s, actions[0]);
      var u: seq<Action> :| Progress(s, u) && (|s.queue.retired| == k ==> u == v);
      ProgressStep(s, a, base, origin, u);
      StepKeeps(s, a, base, origin);
      var v1 := v + if OfLeader(a) && |s.queue.retired| == k then [a] else [];
      assert v1 + WindowOf(s1, actions[1..], k) == v + WindowOf(s, actions, k);
      if |s1.queue.retired| <= k {
        WindowRun(s1, actions[1..], base, origin, k, v1);
      } else {
        RunRetired(s1, actions[1..]);
        assert Execute(s1, actions[1..]).queue.retired[k] == s1.queue.retired[k];
        assert v1 == u + if OfLeader(a) then [a] else [];
        OverRun(s1, actions[1..], k, v1);
        assert v1 + [] == v1;
      }
    }
  }

  /** For every group that was attempted, in every run: its leader appended the record; synced the log if
      and only if it was called with sync and the record was appended; inserted the entries only if all
      that had succeeded; and OK is the status only of a group for which all of it succeeded. */
  lemma WindowFollowed(s: Db, actions: seq<Action>, k: nat)
    requires Opened(s) && Possible(s, actions) && k < |Execute(s, actions).queue.retired|
    requires Execute(s, actions).queue.retired[k].attempted
    ensures var q := Execute(s, actions).queue;
            q.retired[k].members != [] && q.retired[k].members[0] in q.writers &&
            Followed(WindowOf(s, actions, k), q.retired[k], q.writers[q.retired[k].members[0]].sync)
  {
    OpenedOk(s);
    assert Progress(s, []);
    hide Execute, Possible, Opened, Inv, Entries, WindowOf, Followed;
    WindowRun(s, actions, s.store.lastSequence, Entries(s.store.current, s.store.tables), k, []);
    assert [] + WindowOf(s, actions, k) == WindowOf(s, actions, k);
  }
}
