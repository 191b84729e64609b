/** A writer's way through MakeRoomForWrite: what its first turn brings, that it sleeps at most once, that a
    call without a batch forces a switch, and that whoever finds room may lead any group. */
module DbTurns {
  import opened DbFormat
  import opened BuilderSpec
  import opened VersionReads
  import opened DbStore
  import opened DbQueue
  import opened DbMachine
  import opened DbInvariants
  import opened DbSteps
  import opened DbBackground
  import opened DbTheorems
  import opened DbGroups
  import opened DbLogs
  import opened DbWrites

  // ---------------------------------------------------------------- a step of the queue, seen by one writer

  /** The writer is the front of the queue or has left it. */
  ghost predicate AtFront(q: Queue, id: nat) {
    id in q.writers && forall i :: 1 <= i < |q.queue| ==> q.queue[i] != id
  }

  /** What MakeRoomForWrite has made of the front: it waits, leads, or is back. */
  predicate Turned(w: Writer, room: Room, force: bool, allowDelay: bool) {
    match room
    case Nap => w.pc == Napping(force)
    case Stall(f) => w.pc == Stalled(f, allowDelay, false)
    case Break(status) =>
      if status == OK && w.batch.Some? then w.pc == Leading else w.pc == Returned && w.status == status
  }

  lemma ProceedTurns(s: Db, force: bool, allowDelay: bool, o: Luck)
    requires s.queue.queue != [] && s.queue.queue[0] in s.queue.writers && s.store.mems != []
    ensures var s', front := Proceed(s, force, allowDelay, o), s.queue.queue[0];
            var (st, bg, room) := MakeRoom(s.store, s.bg, force, allowDelay, o);
            && s'.store == st && s'.bg == bg && front in s'.queue.writers
            && s'.queue.writers[front].batch == s.queue.writers[front].batch
            && Turned(s'.queue.writers[front], room, force, allowDelay)
            && (s'.queue.queue == s.queue.queue || s'.queue.queue == s.queue.queue[1..])
            && forall id :: id in s.queue.writers && AtFront(s.queue, id) && id != front ==>
                 id in s'.queue.writers && s'.queue.writers[id] == s.queue.writers[id]
  {
    hide MakeRoom, MaybeSchedule, Stamp, Ops, GroupSize;
  }

  predicate SameOrWoken(w: Writer, w': Writer) {
    w' == w || (w.pc.Stalled? && w' == w.(pc := w.pc.(woken := true)))
  }

  lemma SignalOne(q: Queue, id: nat)
    requires id in q.writers
    ensures id in SignalAll(q).writers && SameOrWoken(q.writers[id], SignalAll(q).writers[id])
  {
  }

  /** Readers, the background thread and the leader in its window can at most wake a writer. */
  lemma OthersWake(s: Db, a: Action, id: nat)
    requires Enabled(s, a) && !a.AEnqueue? && !a.ARun? && !a.AConclude? && id in s.queue.writers
    ensures var q := Step(s, a).queue;
            q.queue == s.queue.queue && id in q.writers && SameOrWoken(s.queue.writers[id], q.writers[id])
  {
    hide Next, MaybeSchedule, ReadOne, SignalAll, WithVersion;
    SignalSame(s.queue);
    SignalOne(s.queue, id);
    if a.ALogFlush? || a.AInstall? {
      SignalSame(SignalAll(s.queue));
      SignalOne(SignalAll(s.queue), id);
    }
  }

  lemma RetiredOne(q: Queue, g: Group, id: nat)
    requires AtFront(q, id) && 0 < |g.members| <= |q.queue|
    ensures var w, q' := q.writers[id], Retired(q, g);
            && AtFront(q', id) && q'.queue == q.queue[|g.members|..]
            && q'.writers[id] == if q.queue[0] == id then w.(status := g.status, pc := Returned) else w
  {
    var k := PlaceOf(q.queue, id);
    assert k < |q.queue| ==> k == 0;
  }

  // ---------------------------------------------------------------- one nap

  /** The sleep of this writer, if it had one, is over for good. */
  ghost predicate Rested(q: Queue, id: nat) {
    AtFront(q, id) && match q.writers[id].pc
                      case Parked(_) => q.writers[id].done
                      case Napping(_) => false
                      case Stalled(_, allowDelay, _) => !allowDelay
                      case _ => true
  }

  lemma ProceedRested(s: Db, force: bool, allowDelay: bool, o: Luck, id: nat)
    requires s.queue.queue != [] && s.queue.queue[0] in s.queue.writers && s.store.mems != []
    requires AtFront(s.queue, id) && if id == s.queue.queue[0] then !allowDelay else Rested(s.queue, id)
    ensures Rested(Proceed(s, force, allowDelay, o).queue, id)
  {
    hide Proceed, MakeRoom, MaybeSchedule, Switching, SwitchedTo;
    ProceedTurns(s, force, allowDelay, o);
    MakeRoomContract(s.store, s.bg, force, allowDelay, o);
  }

  lemma WriterRested(s: Db, a: Action, id: nat)
    requires Enabled(s, a) && (a.AEnqueue? || a.ARun?) && Rested(s.queue, id)
    ensures Rested(Step(s, a).queue, id)
  {
    hide Proceed;
    match a
    case AEnqueue(id', batch, sync, o) =>
      if s.queue.queue == [] {
        var w := Writer(batch, sync, false, OK, Parked(true));
        PushedFirst(s.queue, id', w);
        ProceedRested(s.(queue := Pushed(s.queue, id', w)), batch.None?, !batch.None?, o, id);
      }
    case ARun(id', o) =>
      if s.queue.queue != [] && s.queue.queue[0] == id' {
        var w := s.queue.writers[id'];
        match w.pc
        case Parked(_) => if !w.done { ProceedRested(s, w.batch.None?, !w.batch.None?, o, id); }
        case Napping(force) => ProceedRested(s, force, false, o, id);
        case Stalled(force, allowDelay, _) => ProceedRested(s, force, allowDelay, o, id);
        case _ =>
      }
  }

  lemma RestedStep(s: Db, a: Action, id: nat)
    requires Enabled(s, a) && Rested(s.queue, id)
    ensures Rested(Step(s, a).queue, id)
  {
    hide Enqueue, Run, Next, MaybeSchedule, ReadOne, Retired, SignalAll, AppendLog, SyncLog, InsertNext, Start, Build,
      LogFlush, CommitManifest, InstallVersion, BeginRead, EndRead;
    if a.AEnqueue? || a.ARun? {
      WriterRested(s, a, id);
    } else if a.AConclude? {
      SignalSame(s.queue);
      SignalOne(s.queue, id);
      var w := s.leader.value;
      RetiredOne(if w.syncError then SignalAll(s.queue) else s.queue, GroupOf(s.queue, w), id);
    } else {
      OthersWake(s, a, id);
    }
  }

  lemma {:induction false} RestedRun(s: Db, actions: seq<Action>, id: nat)
    requires Possible(s, actions) && Rested(s.queue, id)
    ensures Rested(Execute(s, actions).queue, id)
    decreases |actions|
  {
    hide Step, Enabled, Rested;
    if actions != [] {
      RestedStep(s, actions[0], id);
      RestedRun(Step(s, actions[0]), actions[1..], id);
    }
  }

  /** Whoever is in the queue and not waiting is its front. */
  lemma RunsAtFront(s: Db, base: nat, origin: set<Entry>, id: nat)
    requires Inv(s, base, origin) && id in s.queue.writers
    requires s.queue.writers[id].pc.Napping? || s.queue.writers[id].pc.Stalled?
    ensures s.queue.queue != [] && s.queue.queue[0] == id && AtFront(s.queue, id) && !s.queue.writers[id].done
  {
    hide StoreOk, BgOk, StallOk, AccountsOk, ReadersOk, LeaderOk, RecordOk, Total;
    if id in Flat(s.queue.retired) {
      FlatGroup(s.queue.retired, id);
    } else {
      assert id in s.queue.order;
      var i :| 0 <= i < |s.queue.queue| && s.queue.queue[i] == id;
    }
    QueueDistinct(s.queue);
  }

  /** A Write sleeps at most once: when its sleep ends, it never sleeps again, whatever runs until then
      and after. */
  lemma NapsOnce(s: Db, first: seq<Action>, id: nat, luck: Luck, rest: seq<Action>)
    requires Opened(s) && Possible(s, first) && Enabled(Execute(s, first), ARun(id, luck))
    requires Execute(s, first).queue.writers[id].pc.Napping?
    requires Possible(Step(Execute(s, first), ARun(id, luck)), rest)
    ensures var s' := Execute(Step(Execute(s, first), ARun(id, luck)), rest);
            id in s'.queue.writers && !s'.queue.writers[id].pc.Napping?
  {
    var s0 := Execute(s, first);
    InvAfter(s, first);
    RunsAtFront(s0, s.store.lastSequence, Entries(s.store.current, s.store.tables), id);
    NapOver(s0, id, luck);
    hide Execute, Possible, Opened, Entries, Inv, Step, Enabled;
    RestedRun(Step(s0, ARun(id, luck)), rest, id);
  }

  lemma NapOver(s: Db, id: nat, luck: Luck)
    requires Enabled(s, ARun(id, luck)) && s.queue.writers[id].pc.Napping?
    requires s.queue.queue != [] && s.queue.queue[0] == id && AtFront(s.queue, id)
    ensures Rested(Step(s, ARun(id, luck)).queue, id)
  {
    hide Proceed;
    ProceedRested(s, s.queue.writers[id].pc.force, false, luck, id);
  }

  // ---------------------------------------------------------------- a call without a batch

  /** A writer without a batch that has not yet switched memtables: it waits, with the demand to switch, or
      has failed. */
  predicate Demands(w: Writer) {
    w.batch.None? && match w.pc
                     case Parked(_) => !w.done
                     case Stalled(force, allowDelay, _) => force && !allowDelay
                     case Returned => w.status == Failed
                     case _ => false
  }

  predicate Switches(s: Db, id: nat, n: nat) {
    id in s.queue.writers && (|s.store.mems| > n || (|s.store.mems| == n && Demands(s.queue.writers[id])))
  }

  lemma ProceedSwitches(s: Db, force: bool, allowDelay: bool, o: Luck)
    requires s.queue.queue != [] && s.queue.queue[0] in s.queue.writers && s.store.mems != []
    requires s.queue.writers[s.queue.queue[0]].batch.None? && force && !allowDelay
    ensures Switches(Proceed(s, force, allowDelay, o), s.queue.queue[0], |s.store.mems|)
  {
    hide Proceed, MakeRoom, MaybeSchedule;
    ProceedTurns(s, force, allowDelay, o);
    MakeRoomContract(s.store, s.bg, force, allowDelay, o);
  }

  /** The turn of another writer changes nothing for this one but that it may be woken. */
  lemma ProceedOther(s: Db, force: bool, allowDelay: bool, o: Luck, id: nat)
    requires s.queue.queue != [] && s.queue.queue[0] in s.queue.writers && s.store.mems != []
    requires id in s.queue.writers && id != s.queue.queue[0]
    requires id in s.queue.queue ==> s.queue.writers[id].pc.Parked?
    ensures var s' := Proceed(s, force, allowDelay, o);
            && |s'.store.mems| >= |s.store.mems| && id in s'.queue.writers
            && (s'.queue.writers[id] == s.queue.writers[id] ||
                (s.queue.writers[id].pc.Parked? &&
                 s'.queue.writers[id] == s.queue.writers[id].(pc := Parked(true))))
  {
    hide MakeRoom, MaybeSchedule, Stamp, Ops, GroupSize;
    ProceedTurns(s, force, allowDelay, o);
    MakeRoomContract(s.store, s.bg, force, allowDelay, o);
  }

  lemma WriterSwitches(s: Db, a: Action, id: nat)
    requires Enabled(s, a) && (a.AEnqueue? || a.ARun?) && Switches(s, id, |s.store.mems|)
    requires id in s.queue.queue && id != s.queue.queue[0] ==> s.queue.writers[id].pc.Parked?
    ensures Switches(Step(s, a), id, |s.store.mems|)
  {
    hide Proceed;
    match a
    case AEnqueue(id', batch, sync, o) =>
      if s.queue.queue == [] {
        var w := Writer(batch, sync, false, OK, Parked(true));
        PushedFirst(s.queue, id', w);
        ProceedOther(s.(queue := Pushed(s.queue, id', w)), batch.None?, !batch.None?, o, id);
      }
    case ARun(id', o) =>
      if id' == id {
        OwnTurn(s, id, o);
      } else if s.queue.queue != [] && s.queue.queue[0] == id' {
        var w := s.queue.writers[id'];
        match w.pc
        case Parked(_) => ProceedOther(s, w.batch.None?, !w.batch.None?, o, id);
        case Napping(force) => ProceedOther(s, force, false, o, id);
        case Stalled(force, allowDelay, _) => ProceedOther(s, force, allowDelay, o, id);
        case _ =>
      }
  }

  lemma OwnTurn(s: Db, id: nat, o: Luck)
    requires Enabled(s, ARun(id, o)) && Switches(s, id, |s.store.mems|)
    ensures Switches(Run(s, id, o), id, |s.store.mems|)
  {
    hide Proceed;
    if s.queue.queue != [] && s.queue.queue[0] == id { ProceedSwitches(s, true, false, o); }
  }

  lemma FrontOnly(s: Db, base: nat, origin: set<Entry>, id: nat)
    requires Inv(s, base, origin) && id in s.queue.writers
    ensures id in s.queue.queue && id != s.queue.queue[0] ==> s.queue.writers[id].pc.Parked?
  {
    hide StoreOk, BgOk, StallOk, AccountsOk, ReadersOk, LeaderOk, GroupsOk;
  }

  /** The leader's group has batches, so it does not take a writer without one along. */
  lemma ConcludeDemands(s: Db, id: nat)
    requires Enabled(s, AConclude) && LeaderOk(s.queue, s.leader, s.store) && Switches(s, id, |s.store.mems|)
    requires id in s.queue.queue && id != s.queue.queue[0] ==> s.queue.writers[id].pc.Parked?
    ensures Switches(Step(s, AConclude), id, |s.store.mems|)
  {
    hide Stamp, Ops, AllLogged, SignalAll;
    var w := s.leader.value;
    var q := if w.syncError then SignalAll(s.queue) else s.queue;
    SignalSame(s.queue);
    SignalOne(s.queue, id);
    forall k | 0 <= k < w.count ensures s.queue.queue[k] != id {
      assert s.queue.queue[..w.count][k] == s.queue.queue[k];
    }
  }

  lemma SwitchesStep(s: Db, a: Action, base: nat, origin: set<Entry>, id: nat)
    requires Inv(s, base, origin) && Enabled(s, a) && Switches(s, id, |s.store.mems|)
    ensures Switches(Step(s, a), id, |s.store.mems|)
  {
    hide Inv, Step, Enabled;
    FrontOnly(s, base, origin, id);
    MoreMems(s, a);
    if a.AEnqueue? || a.ARun? {
      WriterSwitches(s, a, id);
    } else if a.AConclude? {
      LeaderKnown(s, base, origin);
      ConcludeDemands(s, id);
    } else {
      OthersWake(s, a, id);
    }
  }

  lemma LeaderKnown(s: Db, base: nat, origin: set<Entry>)
    requires Inv(s, base, origin)
    ensures LeaderOk(s.queue, s.leader, s.store)
  {
    hide StoreOk, QueueOk, LeaderOk, BgOk, StallOk, ReadersOk, AccountsOk;
  }

  lemma MoreMems(s: Db, a: Action)
    requires Enabled(s, a)
    ensures |Step(s, a).store.mems| >= |s.store.mems|
  {
    hide Next, SignalAll, Retired, ReadOne, MaybeSchedule, Enqueue, Run;
    if a.AEnqueue? || a.ARun? { WriterStore(s, a); }
  }

  lemma WritersStay(s: Db, a: Action, id: nat)
    requires Enabled(s, a) && id in s.queue.writers
    ensures id in Step(s, a).queue.writers
  {
    hide Step, Enabled;
    CallsStay(s, a);
  }

  lemma {:induction false} SwitchesRun(s: Db, actions: seq<Action>, base: nat, origin: set<Entry>, id: nat, n: nat)
    requires Inv(s, base, origin) && Possible(s, actions) && Switches(s, id, n)
    ensures Switches(Execute(s, actions), id, n)
    decreases |actions|
  {
    hide Inv, Step, Enabled, Demands;
    if actions != [] {
      if |s.store.mems| == n { SwitchesStep(s, actions[0], base, origin, id); }
      MoreMems(s, actions[0]);
      WritersStay(s, actions[0], id);
      StepKeeps(s, actions[0], base, origin);
      SwitchesRun(Step(s, actions[0]), actions[1..], base, origin, id, n);
    }
  }

  /** A Write without a batch demands a switch: if it returns OK, there is a new memtable since its call. */
  lemma NoBatchSwitches(s: Db, first: seq<Action>, id: nat, sync: bool, luck: Luck, rest: seq<Action>)
    requires Opened(s) && Possible(s, first) && Enabled(Execute(s, first), AEnqueue(id, None, sync, luck))
    requires Possible(Step(Execute(s, first), AEnqueue(id, None, sync, luck)), rest)
    ensures var s0 := Execute(s, first);
            var s' := Execute(Step(s0, AEnqueue(id, None, sync, luck)), rest);
            id in s'.queue.writers && s'.queue.writers[id].pc.Returned? && s'.queue.writers[id].status == OK ==>
              |s'.store.mems| > |s0.store.mems|
  {
    var s0, base, origin := Execute(s, first), s.store.lastSequence, Entries(s.store.current, s.store.tables);
    InvAfter(s, first);
    CallDemands(s0, id, sync, luck);
    ReturnedSwitched(Execute(Step(s0, AEnqueue(id, None, sync, luck)), rest), id, |s0.store.mems|);
    hide Switches, Execute, Possible, Opened, Entries, Inv, Step, Enabled;
    StepKeeps(s0, AEnqueue(id, None, sync, luck), base, origin);
    SwitchesRun(Step(s0, AEnqueue(id, None, sync, luck)), rest, base, origin, id, |s0.store.mems|);
  }

  lemma ReturnedSwitched(s: Db, id: nat, n: nat)
    ensures Switches(s, id, n) && s.queue.writers[id].pc.Returned? && s.queue.writers[id].status == OK ==>
              |s.store.mems| > n
  {
  }

  lemma CallDemands(s: Db, id: nat, sync: bool, luck: Luck)
    requires Enabled(s, AEnqueue(id, None, sync, luck))
    ensures Switches(Step(s, AEnqueue(id, None, sync, luck)), id, |s.store.mems|)
  {
    hide Proceed;
    if s.queue.queue == [] {
      var w := Writer(None, sync, false, OK, Parked(true));
      PushedFirst(s.queue, id, w);
      ProceedSwitches(s.(queue := Pushed(s.queue, id, w)), true, false, luck);
    }
  }

  // ---------------------------------------------------------------- the turn of a writer

  /** The step gives the writer its first turn: it is the front and has not yet been in MakeRoomForWrite. */
  predicate FirstTurn(s: Db, a: Action, id: nat) {
    match a
    case AEnqueue(i, _, _, _) => i == id && s.queue.queue == []
    case ARun(i, _) =>
      i == id && s.queue.queue != [] && s.queue.queue[0] == id && id in s.queue.writers &&
      s.queue.writers[id].pc.Parked? && !s.queue.writers[id].done
    case _ => false
  }

  /** What the first turn brings: a batch sleeps if level 0 has eight files and otherwise is written at once
      where there is room; a call without a batch never sleeps and switches although there is room. */
  lemma FirstTurnExact(s: Db, a: Action, id: nat)
    requires Enabled(s, a) && FirstTurn(s, a, id)
    ensures var s', o := Step(s, a), a.luck;
            var batch := if a.AEnqueue? then a.batch else s.queue.writers[id].batch;
            var files := |s.store.current[0]|;
            && id in s'.queue.writers
            && var pc := s'.queue.writers[id].pc;
            && (pc.Napping? <==> batch.Some? && !s.bg.failed && files >= SLOWDOWN_TRIGGER)
            && (pc.Napping? ==> s'.store == s.store && s'.bg == s.bg && s'.leader == s.leader)
            && (batch.Some? && !s.bg.failed && files < SLOWDOWN_TRIGGER && o.room ==>
                  pc.Leading? && s'.leader.Some? && s'.store == s.store)
            && (batch.None? && !s.bg.failed && !s.store.imm && files < STOP_TRIGGER && o.newFile ==>
                  SwitchedTo(s.store, s'.store))
  {
    hide Proceed, MaybeSchedule, MakeRoom;
    match a
    case AEnqueue(_, batch, sync, o) =>
      var w := Writer(batch, sync, false, OK, Parked(true));
      PushedFirst(s.queue, id, w);
      ProceedFirst(s.(queue := Pushed(s.queue, id, w)), batch.None?, !batch.None?, o);
    case ARun(_, o) =>
      ProceedFirst(s, s.queue.writers[id].batch.None?, !s.queue.writers[id].batch.None?, o);
  }

  lemma ProceedFirst(s: Db, force: bool, allowDelay: bool, o: Luck)
    requires s.queue.queue != [] && s.queue.queue[0] in s.queue.writers && s.store.mems != []
    ensures var s', front := Proceed(s, force, allowDelay, o), s.queue.queue[0];
            var (st, bg, room) := MakeRoom(s.store, s.bg, force, allowDelay, o);
            && s'.store == st && s'.bg == bg && front in s'.queue.writers
            && Turned(s'.queue.writers[front], room, force, allowDelay)
            && s'.queue.writers[front].batch == s.queue.writers[front].batch
            && (if room == Break(OK) && s.queue.writers[front].batch.Some? then s'.leader.Some?
                else s'.leader == s.leader)
    ensures var (st, bg, room) := MakeRoom(s.store, s.bg, force, allowDelay, o);
            var slow := allowDelay && |s.store.current[0]| >= SLOWDOWN_TRIGGER;
            && (room == Nap <==> !s.bg.failed && slow)
            && (room == Nap ==> st == s.store && bg == s.bg)
            && (!s.bg.failed && !slow && !force && o.room ==> room == Break(OK) && st == s.store)
            && (Switching(s.store, s.bg, force, allowDelay, o) && o.newFile ==> SwitchedTo(s.store, st))
  {
    hide MakeRoom, MaybeSchedule, Stamp, Ops, GroupSize;
    MakeRoomContract(s.store, s.bg, force, allowDelay, o);
    ProceedTurns(s, force, allowDelay, o);
  }

  /** A writer whose turn it is, and who finds room, leads any group that BuildBatchGroup may choose. */
  lemma AnyGroup(s: Db, first: seq<Action>, n: nat, luck: Luck)
    requires Opened(s) && Possible(s, first)
    requires var s0 := Execute(s, first);
             && s0.leader.None? && 0 < n <= |s0.queue.queue|
             && HasBatches(s0.queue.writers, s0.queue.queue[..n])
             && !s0.bg.failed && |s0.store.current[0]| < SLOWDOWN_TRIGGER && luck.room && luck.group == n
             && s0.queue.queue[0] in s0.queue.writers && s0.queue.writers[s0.queue.queue[0]].pc.Parked?
    ensures var s0 := Execute(s, first);
            var front := s0.queue.queue[0];
            Enabled(s0, ARun(front, luck)) &&
            var s1 := Step(s0, ARun(front, luck));
            && s1.leader.Some? && s1.leader.value.count == n && s1.store == s0.store
            && s1.queue.queue == s0.queue.queue && s1.queue.writers[front].pc == Leading
            && s1.leader.value.record == Stamp(Ops(s0.queue.writers, s0.queue.queue[..n]), s0.store.lastSequence + 1)
  {
    hide Execute, Possible, Opened, Entries, Inv;
    InvAfter(s, first);
    LeadsAny(Execute(s, first), s.store.lastSequence, Entries(s.store.current, s.store.tables), n, luck);
  }

  lemma LeadsAny(s: Db, base: nat, origin: set<Entry>, n: nat, luck: Luck)
    requires Inv(s, base, origin) && s.leader.None? && 0 < n <= |s.queue.queue|
    requires HasBatches(s.queue.writers, s.queue.queue[..n])
    requires !s.bg.failed && |s.store.current[0]| < SLOWDOWN_TRIGGER && luck.room && luck.group == n
    requires s.queue.queue[0] in s.queue.writers && s.queue.writers[s.queue.queue[0]].pc.Parked?
    ensures var front := s.queue.queue[0];
            Enabled(s, ARun(front, luck)) &&
            var s1 := Step(s, ARun(front, luck));
            && s1.leader.Some? && s1.leader.value.count == n && s1.store == s.store
            && s1.queue.queue == s.queue.queue && s1.queue.writers[front].pc == Leading
            && s1.leader.value.record == Stamp(Ops(s.queue.writers, s.queue.queue[..n]), s.store.lastSequence + 1)
  {
    hide MemsOk, LogsOk, NumbersOk, VersionOk, LeaderOk, BgOk, StallOk, AccountsOk, ReadersOk, GroupsOk, Stamp, Ops,
      MakeRoom;
    var front := s.queue.queue[0];
    assert s.queue.queue[..n][0] == front;
    MakeRoomContract(s.store, s.bg, false, true, luck);
  }

  /** A follower that its leader has popped returns as soon as it runs. */
  lemma PoppedReturns(s: Db, id: nat, luck: Luck)
    requires Enabled(s, ARun(id, luck)) && s.queue.writers[id].done && s.queue.writers[id].pc.Parked?
    ensures var s' := Step(s, ARun(id, luck));
            s' == s.(queue := s.queue.(writers := s'.queue.writers)) &&
            s'.queue.writers == s.queue.writers[id := s.queue.writers[id].(pc := Returned)]
  {
  }
}
