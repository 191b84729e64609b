/** What a call of Get returns, in terms of its arguments and of what had been inserted when it began,
    and that it comes to an end. */
module DbReads {
  import opened DbFormat
  import opened BuilderSpec
  import opened VersionReads
  import opened DbStore
  import opened DbQueue
  import opened DbMachine
  import opened DbInvariants
  import opened DbSteps
  import opened DbBackground
  import opened DbTheorems
  import opened DbRuns

  // ---------------------------------------------------------------- what is inserted later is newer

  lemma ProceedInserts(s: Db, force: bool, allowDelay: bool, o: Luck)
    requires s.queue.queue != [] && s.queue.queue[0] in s.queue.writers && s.store.mems != []
    ensures var s' := Proceed(s, force, allowDelay, o);
            s'.inserts == s.inserts && s'.store.lastSequence == s.store.lastSequence
  {
    hide MakeRoom, MaybeSchedule, Retired, Stamp, Ops, GroupSize, Moved;
    MakeRoomContract(s.store, s.bg, force, allowDelay, o);
  }

  lemma WriterInserts(s: Db, a: Action)
    requires Enabled(s, a) && (a.AEnqueue? || a.ARun?)
    ensures Step(s, a).inserts == s.inserts && Step(s, a).store.lastSequence == s.store.lastSequence
  {
    hide Proceed, Moved, Pushed;
    match a
    case AEnqueue(id, batch, sync, o) =>
      if s.queue.queue == [] {
        var w := Writer(batch, sync, false, OK, Parked(true));
        PushedFirst(s.queue, id, w);
        ProceedInserts(s.(queue := Pushed(s.queue, id, w)), batch.None?, !batch.None?, o);
      }
    case ARun(id, o) =>
      if s.queue.queue != [] && s.queue.queue[0] == id {
        var w := s.queue.writers[id];
        match w.pc
        case Parked(_) => ProceedInserts(s, w.batch.None?, !w.batch.None?, o);
        case Napping(force) => ProceedInserts(s, force, false, o);
        case Stalled(force, allowDelay, _) => ProceedInserts(s, force, allowDelay, o);
        case _ =>
      }
  }

  lemma OtherInserts(s: Db, a: Action)
    requires Enabled(s, a) && !a.AEnqueue? && !a.ARun? && !a.AInsert?
    ensures Step(s, a).inserts == s.inserts && s.store.lastSequence <= Step(s, a).store.lastSequence
  {
    hide Next, SignalAll, Retired, ReadOne, MaybeSchedule;
  }

  /** The entries of es2 are those of es1 and newer ones. */
  ghost predicate Newer(es1: set<Entry>, es2: set<Entry>, last: nat) {
    es1 <= es2 && forall e :: e in es2 && e !in es1 ==> e.sequence > last
  }

  lemma HistoryStep(s: Db, a: Action, base: nat, origin: set<Entry>)
    requires Inv(s, base, origin) && Enabled(s, a)
    ensures Newer(History(s.store), History(Step(s, a).store), s.store.lastSequence)
    ensures s.store.lastSequence <= Step(s, a).store.lastSequence
  {
    StepKeeps(s, a, base, origin);
    HistoryIs(s, base, origin);
    HistoryIs(Step(s, a), base, origin);
    hide Inv, Step, Union, Newer;
    if a.AEnqueue? || a.ARun? {
      WriterInserts(s, a);
    } else if a.AInsert? {
      LeaderWell(s, base, origin);
      InsertHistory(s, a.ok);
    } else {
      OtherInserts(s, a);
    }
    MoreInserts(s.inserts, Step(s, a).inserts, origin, s.store.lastSequence);
  }

  lemma HistoryIs(s: Db, base: nat, origin: set<Entry>)
    requires Inv(s, base, origin)
    ensures History(s.store) == origin + SetOf(s.inserts)
  {
    hide StoreOk, QueueOk, LeaderOk, BgOk, StallOk, ReadersOk, InsertedBy, LoggedBy;
  }

  lemma LeaderWell(s: Db, base: nat, origin: set<Entry>)
    requires Inv(s, base, origin)
    ensures LeaderOk(s.queue, s.leader, s.store)
  {
    hide StoreOk, QueueOk, LeaderOk, BgOk, StallOk, ReadersOk, AccountsOk;
  }

  lemma MoreInserts(a: seq<Entry>, b: seq<Entry>, origin: set<Entry>, last: nat)
    requires a == b || exists e: Entry :: b == a + [e] && e.sequence > last
    ensures Newer(origin + SetOf(a), origin + SetOf(b), last)
  {
  }

  lemma InsertHistory(s: Db, ok: bool)
    requires s.store.Shaped() && LeaderOk(s.queue, s.leader, s.store) && Enabled(s, AInsert(ok))
    ensures var s' := Step(s, AInsert(ok));
            && s'.store.lastSequence == s.store.lastSequence
            && (s'.inserts == s.inserts ||
                exists e: Entry :: s'.inserts == s.inserts + [e] && e.sequence > s.store.lastSequence)
  {
    hide Ops, HasBatches, AllLogged;
  }

  lemma {:induction false} HistoryRun(s: Db, actions: seq<Action>, base: nat, origin: set<Entry>)
    requires Inv(s, base, origin) && Possible(s, actions)
    ensures Newer(History(s.store), History(Execute(s, actions).store), s.store.lastSequence)
    decreases |actions|
  {
    hide Inv, Step, Enabled, History;
    if actions != [] {
      HistoryStep(s, actions[0], base, origin);
      StepKeeps(s, actions[0], base, origin);
      HistoryRun(Step(s, actions[0]), actions[1..], base, origin);
    }
  }

  // ---------------------------------------------------------------- what a Get returns

  lemma BeganAt(s: Db, id: nat, key: int, snapshot: Option<nat>)
    requires Enabled(s, ABegin(id, key, snapshot))
    ensures var s' := Step(s, ABegin(id, key, snapshot));
            && id in s'.readers && s'.readers[id].key == key && s'.readers[id].pc == AtMem
            && s'.readers[id].snapshot == (if snapshot.Some? then snapshot.value else s.store.lastSequence)
  {
  }

  /** A Get of this key, with or without a snapshot, that begins after any run: whatever runs until it
      ends, it returns what the newest entry of the key at or below that snapshot says, among the entries
      that had been inserted when it began; without a snapshot the bound is the last sequence number of
      that moment.  The tables that it visits have to be readable. */
  lemma GetAnswers(s: Db, first: seq<Action>, id: nat, key: int, snapshot: Option<nat>, rest: seq<Action>)
    requires Opened(s) && Possible(s, first) && Enabled(Execute(s, first), ABegin(id, key, snapshot))
    requires var s1 := Step(Execute(s, first), ABegin(id, key, snapshot));
             Possible(s1, rest) && NotEnded(rest, id) && ReadsFine(s1, rest, id)
    ensures var s0 := Execute(s, first);
            var s2 := Execute(Step(s0, ABegin(id, key, snapshot)), rest);
            var at := if snapshot.Some? then snapshot.value else s0.store.lastSequence;
            id in s2.readers &&
            (s2.readers[id].pc.Done? ==> GivesNewest(s2.readers[id].pc.result, History(s0.store), key, at))
  {
    var begin := ABegin(id, key, snapshot);
    var s0 := Execute(s, first);
    var s1 := Step(s0, begin);
    var s2 := Execute(s1, rest);
    var base, origin := s.store.lastSequence, Entries(s.store.current, s.store.tables);
    BeganAt(s0, id, key, snapshot);
    AtMostLast(s0, id, key, snapshot);
    OneStep(s0, begin);
    hide Step, Enabled, Opened, Entries, Inv, Lookup, History, GivesNewest;
    RunConcat(s0, [begin], rest);
    RunConcat(s, first, [begin] + rest);
    InvAfter(s, first);
    HistoryRun(s0, [begin] + rest, base, origin);
    ReaderLasts(s1, rest, id);
    NotFailedRun(s1, rest, id);
    if s2.readers[id].pc.Done? {
      SnapshotRead(s, first + ([begin] + rest), id);
      InvAfter(s, first + ([begin] + rest));
      HistoryDistinct(s0, base, origin);
      HistoryDistinct(s2, base, origin);
      LookupFrozen(History(s0.store), History(s2.store), key, s2.readers[id].snapshot);
      ResultGives(History(s0.store), key, s2.readers[id].snapshot);
    }
  }

  lemma AtMostLast(s: Db, id: nat, key: int, snapshot: Option<nat>)
    requires Enabled(s, ABegin(id, key, snapshot))
    ensures snapshot.Some? ==> snapshot.value <= s.store.lastSequence
  {
  }

  /** Reading what was written: a Get of the newest state that begins after a write was acknowledged
      returns what that write's entry says or a newer one of the key, whatever runs until it ends, unless
      a table that it visits cannot be read. */
  lemma AcknowledgedRead(s: Db, first: seq<Action>, id: nat, rest: seq<Action>, e: Entry)
    requires Opened(s) && Possible(s, first) && Acknowledged(Execute(s, first), e)
    requires Enabled(Execute(s, first), ABegin(id, e.key, None))
    requires var s1 := Step(Execute(s, first), ABegin(id, e.key, None));
             Possible(s1, rest) && NotEnded(rest, id) && ReadsFine(s1, rest, id)
    ensures var s0 := Execute(s, first);
            var s2 := Execute(Step(s0, ABegin(id, e.key, None)), rest);
            && id in s2.readers
            && (s2.readers[id].pc.Done? ==>
                  exists d :: d in History(s0.store) && d.key == e.key && d.sequence >= e.sequence &&
                    s2.readers[id].pc.result == if d.value.Some? then Value(d.value.value) else NotFound)
  {
    GetAnswers(s, first, id, e.key, None, rest);
    hide Step, Enabled, Opened, Entries, Inv, Acknowledged, Lookup, History, Execute, Possible, GivesNewest;
    var s0, base, origin := Execute(s, first), s.store.lastSequence, Entries(s.store.current, s.store.tables);
    InvAfter(s, first);
    AcknowledgedVisible(s0, base, origin, e);
    AcknowledgedInserted(s0, base, origin, e);
    var s2 := Execute(Step(s0, ABegin(id, e.key, None)), rest);
    if s2.readers[id].pc.Done? {
      var d := GivesNewer(s2.readers[id].pc.result, History(s0.store), e, s0.store.lastSequence);
    }
  }

  lemma GivesNewer(r: GetResult, es: set<Entry>, e: Entry, snapshot: nat) returns (d: Entry)
    requires GivesNewest(r, es, e.key, snapshot) && e in es && e.sequence <= snapshot
    ensures d in es && d.key == e.key && d.sequence >= e.sequence
    ensures r == if d.value.Some? then Value(d.value.value) else NotFound
  {
    assert Visible(e, e.key, snapshot);
    d := Lookup(es, e.key, snapshot).value;
  }

  // ---------------------------------------------------------------- a Get ends

  /** The accesses that this reader makes. */
  function Reads(actions: seq<Action>, id: nat): nat {
    if actions == [] then 0
    else (if actions[0].ARead? && actions[0].id == id then 1 else 0) + Reads(actions[1..], id)
  }

  function Places(pc: ReadPc): nat {
    match pc
    case AtMem => 3
    case AtImm => 2
    case AtVersion => 1
    case Done(_) => 0
  }

  lemma PlacesStep(s: Db, a: Action, base: nat, origin: set<Entry>, id: nat)
    requires Inv(s, base, origin) && Enabled(s, a) && id in s.readers && (a.AEnd? ==> a.id != id)
    ensures id in Step(s, a).readers
    ensures Places(Step(s, a).readers[id].pc) <= Places(s.readers[id].pc)
    ensures a.ARead? && a.id == id && !s.readers[id].pc.Done? ==>
              Places(Step(s, a).readers[id].pc) < Places(s.readers[id].pc)
  {
    hide StoreOk, QueueOk, LeaderOk, BgOk, StallOk, AccountsOk, ReaderHolds, Enqueue, Run, AppendLog, SyncLog,
      InsertNext, Conclude, Start, Build, LogFlush, CommitManifest, InstallVersion, Fails, Lookup, Entries, History,
      Answers;
    if !a.ABegin? && !a.ARead? && !a.AEnd? { ReadersStay(s, a); }
    assert ReaderOk(s.store, s.readers[id]);
  }

  lemma {:induction false} PlacesRun(s: Db, actions: seq<Action>, base: nat, origin: set<Entry>, id: nat)
    requires Inv(s, base, origin) && Possible(s, actions) && id in s.readers && NotEnded(actions, id)
    ensures id in Execute(s, actions).readers
    ensures Execute(s, actions).readers[id].pc.Done? ||
            Places(Execute(s, actions).readers[id].pc) + Reads(actions, id) <= Places(s.readers[id].pc)
    decreases |actions|
  {
    hide Inv, Step, Enabled;
    if actions != [] {
      PlacesStep(s, actions[0], base, origin, id);
      StepKeeps(s, actions[0], base, origin);
      PlacesRun(Step(s, actions[0]), actions[1..], base, origin, id);
    }
  }

  /** A Get has ended after three accesses at most - its memtables and its version - whatever runs
      between them; until then its next access is always possible. */
  lemma GetEnds(s: Db, first: seq<Action>, id: nat, key: int, snapshot: Option<nat>, rest: seq<Action>,
                outcomes: map<nat, Outcome>)
    requires Opened(s) && Possible(s, first) && Enabled(Execute(s, first), ABegin(id, key, snapshot))
    requires var s1 := Step(Execute(s, first), ABegin(id, key, snapshot)); Possible(s1, rest) && NotEnded(rest, id)
    ensures var s2 := Execute(Step(Execute(s, first), ABegin(id, key, snapshot)), rest);
            && id in s2.readers && Enabled(s2, ARead(id, outcomes))
            && (Reads(rest, id) >= 3 ==> s2.readers[id].pc.Done?)
  {
    var begin := ABegin(id, key, snapshot);
    var s0 := Execute(s, first);
    var base, origin := s.store.lastSequence, Entries(s.store.current, s.store.tables);
    BeganAt(s0, id, key, snapshot);
    hide Step, Enabled, Opened, Entries, Inv;
    InvAfter(s, first);
    StepKeeps(s0, begin, base, origin);
    PlacesRun(Step(s0, begin), rest, base, origin, id);
    RunKeeps(Step(s0, begin), rest, base, origin);
    ReadPossible(Execute(Step(s0, begin), rest), base, origin, id, outcomes);
  }

  lemma ReadPossible(s: Db, base: nat, origin: set<Entry>, id: nat, outcomes: map<nat, Outcome>)
    requires Inv(s, base, origin) && id in s.readers
    ensures Enabled(s, ARead(id, outcomes))
  {
    hide QueueOk, LeaderOk, BgOk, StallOk, AccountsOk, ReaderFound, Sane, Entries, MemsOk, Union;
    assert ReaderOk(s.store, s.readers[id]);
  }
}
