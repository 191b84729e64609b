/** Every step of the machine `DbMachine` keeps its invariants. */
module DbSteps {
  import opened DbFormat
  import opened VersionReads
  import opened DbStore
  import opened DbQueue
  import opened DbMachine
  import opened DbInvariants

  // ---------------------------------------------------------------- the leader's window

  lemma GrowsSame(st: Store, st': Store)
    requires st.mems != [] && st'.mems == st.mems && st.lastSequence <= st'.lastSequence
    ensures Grows(st, st')
  {
  }

  lemma AppendLeader(q: Queue, w: Leader, st: Store, stage: Stage)
    requires LeaderOk(q, Some(w), st) && st.mems != [] && st.LogfileNumber() in st.logs && w.stage == ToAppend
    requires stage == ToSync || stage == ToInsert
    ensures LeaderOk(q, Some(w.(logged := true, stage := stage)), Appended(st, w.record))
  {
    LoggedAppend(st.logs[st.LogfileNumber()], w.record);
  }

  lemma AtAppend(q: Queue, w: Leader, st: Store)
    requires LeaderOk(q, Some(w), st) && w.stage == ToAppend
    ensures w.inserted == 0 && !w.logged && w.status == OK
    ensures LeaderOk(q, Some(w.(status := Failed, stage := Ended)), st)
  {
    hide Stamp, Ops, HasBatches, AllLogged;
  }

  lemma AppendStep(s: Db, ok: bool, base: nat, origin: set<Entry>)
    requires Inv(s, base, origin) && Enabled(s, AAppend(ok))
    ensures Inv(AppendLog(s, ok), base, origin)
  {
    hide StoreOk, QueueOk, LeaderOk, JobOk, ReadersOk, StallOk, Grows, LoggedBy, InsertedBy, MemsOk, Union;
    var s', w := AppendLog(s, ok), s.leader.value;
    AtAppend(s.queue, w, s.store);
    if ok {
      var bound := Bound(s.store.lastSequence, s.leader);
      AppendKeeps(s.store, bound, w.record);
      AppendLeader(s.queue, w, s.store, s'.leader.value.stage);
      JobKeeps(s.store, s'.store, s.bg.job);
      GrowsSame(s.store, s'.store);
      StoreMems(s'.store, bound);
      ReadersKeep(s.store, s'.store, s.readers, bound);
    }
  }

  lemma StoreMems(st: Store, bound: int)
    requires StoreOk(st, bound)
    ensures st.Shaped() && MemsOk(st.mems, bound)
  {
  }

  lemma SyncStep(s: Db, ok: bool, base: nat, origin: set<Entry>)
    requires Inv(s, base, origin) && Enabled(s, ASync(ok))
    ensures Inv(SyncLog(s, ok), base, origin)
  {
    hide StoreOk, QueueOk, BgOk, ReadersOk, StallOk, Stamp, Ops, HasBatches, AllLogged, LoggedBy, InsertedBy;
  }

  lemma AtInsert(q: Queue, w: Leader, st: Store, bound: int)
    requires LeaderOk(q, Some(w), st) && w.stage == ToInsert && StoreOk(st, bound)
    ensures w.logged && w.inserted <= |w.record|
    ensures LeaderOk(q, Some(w.(status := Failed, stage := Ended)), st)
    ensures w.inserted == |w.record| ==> LeaderOk(q, Some(w.(stage := Ended)), st)
    ensures w.inserted < |w.record| ==>
              var e := w.record[w.inserted];
              && e.sequence == st.lastSequence + w.inserted + 1 && e in Logged(st.logs[st.LogfileNumber()])
              && LeaderOk(q, Some(w.(inserted := w.inserted + 1)), WithEntry(st, e))
  {
    hide Ops, HasBatches, Logged;
  }

  lemma InsertGrows(st: Store, e: Entry)
    requires st.mems != [] && e.sequence > st.lastSequence
    ensures Grows(st, WithEntry(st, e))
  {
  }

  lemma InsertAccounts(gs: seq<Group>, w: Leader, journal: seq<Record>, inserts: seq<Entry>, history: set<Entry>,
                       origin: set<Entry>)
    requires AccountsOk(gs, Some(w), journal, inserts, history, origin) && w.inserted < |w.record|
    ensures var e := w.record[w.inserted];
            AccountsOk(gs, Some(w.(inserted := w.inserted + 1)), journal, inserts + [e], history + {e}, origin)
  {
    assert w.record[..w.inserted + 1] == w.record[..w.inserted] + [w.record[w.inserted]];
  }

  lemma InsertStep(s: Db, ok: bool, base: nat, origin: set<Entry>)
    requires Inv(s, base, origin) && Enabled(s, AInsert(ok))
    ensures Inv(InsertNext(s, ok), base, origin)
  {
    hide StoreOk, QueueOk, LeaderOk, JobOk, ReadersOk, StallOk, Grows, AccountsOk, MemsOk, Union, Logged;
    var s', w := InsertNext(s, ok), s.leader.value;
    var bound := Bound(s.store.lastSequence, s.leader);
    AtInsert(s.queue, w, s.store, bound);
    if w.inserted >= |w.record| || !ok {
      EndAccounts(s.queue.retired, w, s'.leader.value, s.journal, s.inserts, History(s.store), origin);
    } else {
      var e := w.record[w.inserted];
      InsertKeeps(s.store, bound, e);
      JobKeeps(s.store, s'.store, s.bg.job);
      InsertGrows(s.store, e);
      StoreMems(s'.store, e.sequence);
      ReadersKeep(s.store, s'.store, s.readers, e.sequence);
      InsertAccounts(s.queue.retired, w, s.journal, s.inserts, History(s.store), origin);
    }
  }

  lemma EndAccounts(gs: seq<Group>, w: Leader, w': Leader, journal: seq<Record>, inserts: seq<Entry>,
                    history: set<Entry>, origin: set<Entry>)
    requires AccountsOk(gs, Some(w), journal, inserts, history, origin)
    requires w'.logged == w.logged && w'.record == w.record && w'.inserted == w.inserted
    ensures AccountsOk(gs, Some(w'), journal, inserts, history, origin)
  {
  }

  // ---------------------------------------------------------------- the leader returns

  /** Waking the stalled writers keeps the queue in order. */
  lemma SignalKeeps(q: Queue, base: nat, last: nat)
    requires QueueOk(q, base, last)
    ensures QueueOk(SignalAll(q), base, last)
  {
    hide Flat, Total, RecordOk;
    var ws := SignalAll(q).writers;
    forall k | 0 <= k < |q.retired|
      ensures MembersOk(ws, q.retired[k]) && RecordOk(ws, q.retired[k], base + Total(q.retired[..k]) + 1)
    {
      GroupKeeps(q.writers, ws, q.retired[k], base + Total(q.retired[..k]) + 1);
    }
    assert GroupsOk(ws, q.retired, base);
  }

  lemma SignalLeader(q: Queue, leader: Option<Leader>, st: Store)
    requires LeaderOk(q, leader, st)
    ensures LeaderOk(SignalAll(q), leader, st)
  {
    if leader.Some? {
      OpsSame(q.writers, SignalAll(q).writers, q.queue[..leader.value.count]);
    }
    hide Ops, Stamp, AllLogged;
  }

  lemma SignalStall(q: Queue, bg: Background)
    ensures StallOk(SignalAll(q), bg)
  {
  }

  lemma StoreBound(st: Store, bound: int, last: nat, bound': int)
    requires StoreOk(st, bound) && bound <= bound'
    ensures StoreOk(st.(lastSequence := last), bound')
  {
    hide Sane, Entries, Union, Logged;
    assert MemsOk(st.mems, bound') by {
      forall i | 0 <= i < |st.mems| ensures AllBelow(st.mems[i], bound') { assert AllBelow(st.mems[i], bound); }
    }
  }

  function GroupOf(q: Queue, w: Leader): Group
    requires w.count <= |q.queue|
  {
    Group(q.queue[..w.count], w.record, w.status, true, w.logged, w.inserted)
  }

  lemma AtEnd(q: Queue, w: Leader, st: Store)
    requires LeaderOk(q, Some(w), st) && w.stage == Ended
    ensures 0 < w.count <= |q.queue| && RecordOk(q.writers, GroupOf(q, w), st.lastSequence + 1)
    ensures w.inserted <= |w.record|
  {
  }

  /** Nobody is made to stall, or to lead, by a retirement. */
  lemma RetireStall(q: Queue, g: Group, bg: Background)
    requires InOrder(q) && 0 < |g.members| <= |q.queue| && StallOk(q, bg)
    ensures StallOk(Retired(q, g), bg)
  {
    hide InOrder;
  }

  lemma RetireLeader(q: Queue, g: Group, st: Store)
    requires InOrder(q) && 0 < |g.members| <= |q.queue|
    requires forall i :: 1 <= i < |q.queue| ==> q.queue[i] in q.writers && Waiting(q.writers[q.queue[i]])
    ensures LeaderOk(Retired(q, g), None, st)
  {
    RetiredPops(q, g);
    hide InOrder, PlaceOf;
    var q' := Retired(q, g);
    if q'.queue != [] {
      assert q'.queue[0] == q.queue[|g.members|];
    }
  }

  lemma RetireAccounts(gs: seq<Group>, w: Leader, g: Group, journal: seq<Record>, inserts: seq<Entry>,
                       history: set<Entry>, origin: set<Entry>)
    requires AccountsOk(gs, Some(w), journal, inserts, history, origin) && w.inserted <= |w.record|
    requires g.record == w.record && g.logged == w.logged && g.inserted == w.inserted
    ensures AccountsOk(gs + [g], None, journal, inserts, history, origin)
  {
    assert (gs + [g])[..|gs|] == gs;
  }

  lemma ConcludeStep(s: Db, base: nat, origin: set<Entry>)
    requires Inv(s, base, origin) && Enabled(s, AConclude)
    ensures Inv(Conclude(s), base, origin)
  {
    hide StoreOk, LeaderOk, JobOk, ReadersOk, StallOk, Grows, AccountsOk, MemsOk, Union, Logged, GroupsOk, InOrder,
      OneAlert, Total, SignalAll, Retired, RecordOk;
    var s', w := Conclude(s), s.leader.value;
    var last := s.store.lastSequence;
    var q := if w.syncError then SignalAll(s.queue) else s.queue;
    SignalKeeps(s.queue, base, last);
    SignalLeader(s.queue, s.leader, s.store);
    SignalStall(s.queue, s'.bg);
    SignalSame(s.queue);
    AtEnd(q, w, s.store);
    RetireKeeps(q, GroupOf(q, w), base, last);
    FollowersWait(q);
    RetireLeader(q, GroupOf(q, w), s'.store);
    StallSame(s.queue, s.bg, s'.bg);
    RetireStall(q, GroupOf(q, w), s'.bg);
    StoreBound(s.store, Bound(last, s.leader), last + |w.record|, last + |w.record|);
    JobKeeps(s.store, s'.store, s.bg.job);
    GrowsSame(s.store, s'.store);
    StoreMems(s'.store, last + |w.record|);
    ReadersKeep(s.store, s'.store, s.readers, last + |w.record|);
    RetireAccounts(s.queue.retired, w, GroupOf(q, w), s.journal, s.inserts, History(s.store), origin);
    RetiredIs(q, GroupOf(q, w));
  }

  lemma SignalSame(q: Queue)
    ensures var q' := SignalAll(q); q'.queue == q.queue && q'.order == q.order && q'.retired == q.retired
  {
  }

  lemma RetiredIs(q: Queue, g: Group)
    requires 0 < |g.members| <= |q.queue|
    ensures Retired(q, g).retired == q.retired + [g]
  {
  }

  lemma FollowersWait(q: Queue)
    requires InOrder(q) && OneAlert(q)
    ensures forall i :: 1 <= i < |q.queue| ==> q.queue[i] in q.writers && Waiting(q.writers[q.queue[i]])
  {
  }

  lemma StallSame(q: Queue, bg: Background, bg': Background)
    requires StallOk(q, bg) && bg'.scheduled == bg.scheduled && bg'.shuttingDown == bg.shuttingDown
    ensures StallOk(q, bg')
  {
  }

  // ---------------------------------------------------------------- MakeRoomForWrite

  /** The parts of the invariant that MakeRoomForWrite may touch. */
  ghost predicate DataOk(st: Store, bg: Background, readers: map<nat, Reader>, bound: int) {
    StoreOk(st, bound) && BgOk(st, bg) && ReadersOk(st, readers)
  }

  lemma SwitchGrows(st: Store)
    requires st.mems != []
    ensures Grows(st, Switched(st))
  {
  }

  lemma ScheduleKeeps(bg: Background, imm: bool, needs: bool)
    requires CallsOk(bg)
    ensures CallsOk(MaybeSchedule(bg, imm, needs))
    ensures (imm || needs) && !bg.failed && !bg.shuttingDown ==> MaybeSchedule(bg, imm, needs).scheduled
    ensures var bg' := MaybeSchedule(bg, imm, needs);
            bg'.job == bg.job && bg'.failed == bg.failed && bg'.shuttingDown == bg.shuttingDown &&
            (bg.scheduled ==> bg'.scheduled)
  {
  }

  lemma RoomKeeps(st: Store, bg: Background, readers: map<nat, Reader>, bound: int, force: bool, allowDelay: bool,
                  o: Luck)
    requires DataOk(st, bg, readers, bound)
    ensures var (st', bg', room) := MakeRoom(st, bg, force, allowDelay, o);
            && DataOk(st', bg', readers, bound) && History(st') == History(st) && st'.lastSequence == st.lastSequence
            && (bg.scheduled ==> bg'.scheduled) && bg'.shuttingDown == bg.shuttingDown
            && (room.Stall? ==> bg'.scheduled || bg'.shuttingDown)
            && st'.mems != []
  {
    hide MemsOk, LogsOk, NumbersOk, VersionOk, JobOk, ReadersOk, Grows, Union, MakeRoom;
    MakeRoomContract(st, bg, force, allowDelay, o);
    var (st', bg', room) := MakeRoom(st, bg, force, allowDelay, o);
    if (st', bg') != (st, bg) {
      SwitchKeeps(st, bound);
      SwitchGrows(st);
      ReadersKeep(st, st', readers, bound);
      JobSwitch(st, bg.job);
      ScheduleKeeps(bg, true, NeedsCompaction(st'.current, o.needs));
    }
  }

  /** A writer may come to lead, nap or stall only at the front, and only one can. */
  lemma MoveLeader(q: Queue, id: nat, pc: Pc, st: Store)
    requires InOrder(q) && OneAlert(q) && q.queue != [] && id == q.queue[0] && !pc.Leading?
    ensures LeaderOk(Moved(q, id, pc), None, st)
  {
  }

  lemma LeadLeader(q: Queue, id: nat, wish: nat, st: Store)
    requires InOrder(q) && OneAlert(q) && q.queue != [] && id == q.queue[0] && q.writers[id].batch.Some?
    requires st.mems != []
    ensures HasBatches(q.writers, q.queue[..1])
    ensures var n := GroupSize(q, wish);
            var record := Stamp(Ops(q.writers, q.queue[..n]), st.lastSequence + 1);
            LeaderOk(Moved(q, id, Leading), Some(Leader(n, record, |st.mems| - 1, ToAppend, OK, false, false, 0)), st)
  {
    var n := GroupSize(q, wish);
    OpsSame(q.writers, Moved(q, id, Leading).writers, q.queue[..n]);
    hide Ops, InOrder, GroupSize, Stamp;
  }

  lemma MoveStall(q: Queue, id: nat, pc: Pc, bg: Background, bg': Background)
    requires StallOk(q, bg) && id in q.writers && bg'.shuttingDown == bg.shuttingDown
    requires (bg.scheduled ==> bg'.scheduled)
    requires pc.Stalled? && !pc.woken ==> bg'.scheduled || bg'.shuttingDown
    ensures StallOk(Moved(q, id, pc), bg') && StallOk(q, bg')
  {
  }

  lemma BareAccounts(gs: seq<Group>, id: nat, status: Status, journal: seq<Record>, inserts: seq<Entry>,
                     history: set<Entry>, origin: set<Entry>)
    requires AccountsOk(gs, None, journal, inserts, history, origin)
    ensures AccountsOk(gs + [Bare(id, status)], None, journal, inserts, history, origin)
  {
    assert (gs + [Bare(id, status)])[..|gs|] == gs;
  }

  lemma LeadAccounts(gs: seq<Group>, w: Leader, journal: seq<Record>, inserts: seq<Entry>, history: set<Entry>,
                     origin: set<Entry>)
    requires AccountsOk(gs, None, journal, inserts, history, origin) && !w.logged && w.inserted == 0
    ensures AccountsOk(gs, Some(w), journal, inserts, history, origin)
  {
  }

  /** The queue side of the invariant. */
  ghost predicate LineOk(s: Db, base: nat, origin: set<Entry>) {
    && QueueOk(s.queue, base, s.store.lastSequence) && LeaderOk(s.queue, s.leader, s.store) && StallOk(s.queue, s.bg)
    && AccountsOk(s.queue.retired, s.leader, s.journal, s.inserts, History(s.store), origin)
  }

  lemma InvParts(s: Db, base: nat, origin: set<Entry>)
    ensures Inv(s, base, origin) <==>
              DataOk(s.store, s.bg, s.readers, Bound(s.store.lastSequence, s.leader)) && LineOk(s, base, origin)
  {
    hide StoreOk, QueueOk, LeaderOk, JobOk, CallsOk, WorkOk, ReadersOk, StallOk, AccountsOk, Union;
  }

  lemma MoveLine(s: Db, st: Store, bg: Background, pc: Pc, base: nat, origin: set<Entry>)
    requires LineOk(s, base, origin) && s.queue.queue != [] && s.leader == None && st.mems != []
    requires History(st) == History(s.store) && st.lastSequence == s.store.lastSequence
    requires bg.shuttingDown == s.bg.shuttingDown && (s.bg.scheduled ==> bg.scheduled)
    requires pc.Napping? || (pc.Stalled? && (bg.scheduled || bg.shuttingDown))
    ensures LineOk(s.(store := st, bg := bg, queue := Moved(s.queue, s.queue.queue[0], pc)), base, origin)
  {
    hide InOrder, GroupsOk, Total, StallOk, AccountsOk, Union, Ops, Stamp, HasBatches;
    var id := s.queue.queue[0];
    MoveKeeps(s.queue, id, pc, base, st.lastSequence);
    MoveLeader(s.queue, id, pc, st);
    MoveStall(s.queue, id, pc, s.bg, bg);
  }

  lemma BareLine(s: Db, st: Store, bg: Background, status: Status, base: nat, origin: set<Entry>)
    requires LineOk(s, base, origin) && s.queue.queue != [] && s.leader == None && st.mems != []
    requires status == OK ==> NoBatch(s.queue.writers, s.queue.queue[0])
    requires History(st) == History(s.store) && st.lastSequence == s.store.lastSequence
    requires bg.shuttingDown == s.bg.shuttingDown && (s.bg.scheduled ==> bg.scheduled)
    ensures LineOk(s.(store := st, bg := bg, queue := Retired(s.queue, Bare(s.queue.queue[0], status))), base, origin)
  {
    hide InOrder, GroupsOk, Total, StallOk, AccountsOk, Union, Ops, Stamp, HasBatches, OneAlert;
    var g := Bare(s.queue.queue[0], status);
    FrontKnown(s.queue);
    RetireKeeps(s.queue, g, base, st.lastSequence);
    FollowersWait(s.queue);
    RetireLeader(s.queue, g, st);
    MoveStall(s.queue, s.queue.queue[0], Returned, s.bg, bg);
    RetireStall(s.queue, g, bg);
    BareAccounts(s.queue.retired, s.queue.queue[0], status, s.journal, s.inserts, History(st), origin);
  }

  lemma FrontKnown(q: Queue)
    requires InOrder(q) && OneAlert(q) && q.queue != []
    ensures q.queue[0] in q.writers && q.queue[..1] == [q.queue[0]]
  {
  }

  lemma LeadLine(s: Db, st: Store, bg: Background, o: Luck, base: nat, origin: set<Entry>)
    requires LineOk(s, base, origin) && s.queue.queue != [] && s.leader == None && st.mems != []
    requires s.queue.queue[0] in s.queue.writers && s.queue.writers[s.queue.queue[0]].batch.Some?
    requires History(st) == History(s.store) && st.lastSequence == s.store.lastSequence
    requires bg.shuttingDown == s.bg.shuttingDown && (s.bg.scheduled ==> bg.scheduled)
    ensures LineOk(Lead(s.(store := st, bg := bg), s.queue.queue[0], o), base, origin)
  {
    hide InOrder, GroupsOk, Total, StallOk, AccountsOk, Union, Ops, Stamp, GroupSize;
    var id := s.queue.queue[0];
    MoveKeeps(s.queue, id, Leading, base, st.lastSequence);
    LeadLeader(s.queue, id, o.group, st);
    MoveStall(s.queue, id, Leading, s.bg, bg);
    LeadAccounts(s.queue.retired, Lead(s.(store := st, bg := bg), id, o).leader.value, s.journal, s.inserts,
                 History(st), origin);
  }

  lemma ProceedKeeps(s: Db, force: bool, allowDelay: bool, o: Luck, base: nat, origin: set<Entry>)
    requires Inv(s, base, origin) && s.queue.queue != [] && s.leader == None
    requires s.store.mems != [] && s.queue.queue[0] in s.queue.writers
    ensures Inv(Proceed(s, force, allowDelay, o), base, origin)
  {
    hide Inv, DataOk, LineOk, MakeRoom, Retired, Moved, Lead, Union;
    var s' := Proceed(s, force, allowDelay, o);
    InvParts(s, base, origin);
    InvParts(s', base, origin);
    RoomKeeps(s.store, s.bg, s.readers, Bound(s.store.lastSequence, None), force, allowDelay, o);
    var (st, bg, room) := MakeRoom(s.store, s.bg, force, allowDelay, o);
    match room
    case Nap => MoveLine(s, st, bg, Napping(force), base, origin);
    case Stall(f) => MoveLine(s, st, bg, Stalled(f, allowDelay, false), base, origin);
    case Break(status) =>
      if status == OK && s.queue.writers[s.queue.queue[0]].batch.Some? {
        LeadLine(s, st, bg, o, base, origin);
        LeadBound(s.(store := st, bg := bg), s.queue.queue[0], o);
      } else {
        BareLine(s, st, bg, status, base, origin);
      }
  }

  lemma LeadBound(s: Db, id: nat, o: Luck)
    requires s.queue.queue != [] && s.queue.queue[0] == id && id in s.queue.writers && s.queue.writers[id].batch.Some?
    requires s.store.mems != [] && s.leader == None
    ensures var s' := Lead(s, id, o);
            s'.store == s.store && s'.bg == s.bg && s'.readers == s.readers &&
            Bound(s'.store.lastSequence, s'.leader) == Bound(s.store.lastSequence, None)
  {
  }

  lemma PushLine(s: Db, id: nat, w: Writer, base: nat, origin: set<Entry>)
    requires LineOk(s, base, origin) && id !in s.queue.writers && !w.pc.Leading? && !w.pc.Stalled?
    requires if s.queue.queue == [] then Alert(w) else Waiting(w)
    ensures LineOk(s.(queue := Pushed(s.queue, id, w)), base, origin)
  {
    PushKeeps(s.queue, id, w, base, s.store.lastSequence);
    PushLeader(s.queue, id, w, s.leader, s.store);
    hide QueueOk, LeaderOk, AccountsOk, Union;
  }

  lemma PushLeader(q: Queue, id: nat, w: Writer, leader: Option<Leader>, st: Store)
    requires InOrder(q) && LeaderOk(q, leader, st) && id !in q.writers && !w.pc.Leading?
    ensures LeaderOk(Pushed(q, id, w), leader, st)
  {
    QueueKnown(q);
    var q' := Pushed(q, id, w);
    if leader.Some? {
      var n := leader.value.count;
      assert q'.queue[..n] == q.queue[..n];
      assert SameBatches(q.writers, q'.writers, q.queue[..n]) by {
        forall i | 0 <= i < n ensures q.queue[..n][i] != id { assert q.queue[i] in q.writers; }
      }
      OpsSame(q.writers, q'.writers, q.queue[..n]);
    }
    hide InOrder, Ops, Stamp, AllLogged, HasBatches;
  }

  lemma LineParts(s: Db, base: nat, origin: set<Entry>)
    requires LineOk(s, base, origin)
    ensures InOrder(s.queue) && OneAlert(s.queue)
    ensures s.queue.queue != [] ==> s.queue.queue[0] in s.queue.writers
    ensures s.leader.Some? <==> s.queue.queue != [] && s.queue.writers[s.queue.queue[0]].pc.Leading?
  {
    hide InOrder, GroupsOk, Total, Ops, Stamp, AllLogged, HasBatches;
  }

  lemma EnqueueStep(s: Db, id: nat, batch: Option<Batch>, sync: bool, o: Luck, base: nat, origin: set<Entry>)
    requires Inv(s, base, origin) && Enabled(s, AEnqueue(id, batch, sync, o))
    ensures Inv(Enqueue(s, id, batch, sync, o), base, origin)
  {
    hide Inv, DataOk, LineOk, Proceed, Pushed, Union;
    var w := Writer(batch, sync, false, OK, Parked(s.queue.queue == []));
    var s1 := s.(queue := Pushed(s.queue, id, w));
    InvParts(s, base, origin);
    LineParts(s, base, origin);
    PushLine(s, id, w, base, origin);
    InvParts(s1, base, origin);
    LineParts(s1, base, origin);
    if s.queue.queue == [] {
      PushedFirst(s.queue, id, w);
      ProceedKeeps(s1, batch.None?, !batch.None?, o, base, origin);
    }
  }

  lemma PushedFirst(q: Queue, id: nat, w: Writer)
    requires q.queue == []
    ensures Pushed(q, id, w).queue == [id] && id in Pushed(q, id, w).writers && Pushed(q, id, w).writers[id] == w
  {
  }

  lemma ParkLine(s: Db, id: nat, base: nat, origin: set<Entry>)
    requires LineOk(s, base, origin) && id in s.queue.queue && id in s.queue.writers && id != s.queue.queue[0]
    ensures LineOk(s.(queue := Moved(s.queue, id, Parked(false))), base, origin)
  {
    hide InOrder, GroupsOk, Total, Ops, Stamp, AllLogged, HasBatches, AccountsOk, Union;
    var i :| 0 <= i < |s.queue.queue| && s.queue.queue[i] == id;
    assert Waiting(s.queue.writers[id]);
    MoveKeeps(s.queue, id, Parked(false), base, s.store.lastSequence);
    MovedLeader(s.queue, id, Parked(false), s.leader, s.store);
    MoveStall(s.queue, id, Parked(false), s.bg, s.bg);
  }

  /** Moves of others than the front do not concern the leader. */
  lemma MovedLeader(q: Queue, id: nat, pc: Pc, leader: Option<Leader>, st: Store)
    requires LeaderOk(q, leader, st) && id in q.writers && (q.queue == [] || id != q.queue[0])
    ensures LeaderOk(Moved(q, id, pc), leader, st)
  {
    if leader.Some? { OpsSame(q.writers, Moved(q, id, pc).writers, q.queue[..leader.value.count]); }
    hide Ops, Stamp, AllLogged;
  }

  lemma ReturnLine(s: Db, id: nat, base: nat, origin: set<Entry>)
    requires LineOk(s, base, origin) && id in s.queue.writers && s.queue.writers[id].done
    ensures LineOk(s.(queue := Moved(s.queue, id, Returned)), base, origin)
  {
    hide InOrder, GroupsOk, Total, Ops, Stamp, AllLogged, HasBatches, AccountsOk, Union;
    ReturnKeeps(s.queue, id, base, s.store.lastSequence);
    MovedLeader(s.queue, id, Returned, s.leader, s.store);
    MoveStall(s.queue, id, Returned, s.bg, s.bg);
  }

  /** A retired writer is done or back from Write. */
  lemma RetiredSettled(q: Queue, id: nat, base: nat)
    requires GroupsOk(q.writers, q.retired, base) && id in Flat(q.retired)
    ensures id in q.writers && (q.writers[id].done || q.writers[id].pc == Returned)
  {
    FlatGroup(q.retired, id);
    var k :| 0 <= k < |q.retired| && id in q.retired[k].members;
    assert MembersOk(q.writers, q.retired[k]);
  }

  /** Who is in cv.Wait() and not done is in the queue. */
  lemma ParkedQueued(q: Queue, id: nat, base: nat)
    requires InOrder(q) && GroupsOk(q.writers, q.retired, base) && id in q.writers
    requires !q.writers[id].done && q.writers[id].pc.Parked?
    ensures id in q.queue
  {
    assert id in q.order;
    if id in Flat(q.retired) { RetiredSettled(q, id, base); }
  }

  lemma {:induction false} FlatGroup(gs: seq<Group>, id: nat)
    requires id in Flat(gs)
    ensures exists k :: 0 <= k < |gs| && id in gs[k].members
  {
    var init := gs[..|gs| - 1];
    if id in Flat(init) {
      FlatGroup(init, id);
      var k :| 0 <= k < |init| && id in init[k].members;
      assert id in gs[k].members;
    } else {
      assert id in gs[|gs| - 1].members;
    }
  }

  lemma RunStep(s: Db, id: nat, o: Luck, base: nat, origin: set<Entry>)
    requires Inv(s, base, origin) && Enabled(s, ARun(id, o))
    ensures Inv(Run(s, id, o), base, origin)
  {
    hide Inv, DataOk, LineOk, Proceed, Union;
    var w, s' := s.queue.writers[id], Run(s, id, o);
    InvParts(s, base, origin);
    LineParts(s, base, origin);
    InvParts(s', base, origin);
    var front := s.queue.queue != [] && s.queue.queue[0] == id;
    match w.pc
    case Parked(_) =>
      if w.done {
        ReturnLine(s, id, base, origin);
      } else if front {
        ProceedKeeps(s, w.batch.None?, !w.batch.None?, o, base, origin);
      } else {
        LineQueue(s, base, origin);
        ParkedQueued(s.queue, id, base);
        ParkLine(s, id, base, origin);
      }
    case Napping(force) => if front { ProceedKeeps(s, force, false, o, base, origin); }
    case Stalled(force, allowDelay, _) => if front { ProceedKeeps(s, force, allowDelay, o, base, origin); }
    case _ =>
  }

  lemma LineQueue(s: Db, base: nat, origin: set<Entry>)
    requires LineOk(s, base, origin)
    ensures InOrder(s.queue) && GroupsOk(s.queue.writers, s.queue.retired, base)
  {
  }
}
