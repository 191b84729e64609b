/** What the log files hold, in every state that the machine `DbMachine` can reach: each log is a slice
    of the journal, so a record that was logged stands in one place. */
module DbLogs {
  import opened DbFormat
  import opened BuilderSpec
  import opened VersionReads
  import opened DbStore
  import opened DbQueue
  import opened DbMachine
  import opened DbInvariants
  import opened DbSteps
  import opened DbBackground
  import opened DbTheorems

  // ---------------------------------------------------------------- slices of the journal

  function RecordsIn(logs: map<nat, seq<Record>>, n: nat): seq<Record> {
    if n in logs then logs[n] else []
  }

  /** The piece of the journal between the start of log i and the start of the next. */
  function Slice(journal: seq<Record>, starts: seq<nat>, i: nat): seq<Record>
    requires Ascends(starts, |journal|) && i < |starts|
  {
    journal[starts[i]..End(|journal|, starts, i)]
  }

  function End(length: nat, starts: seq<nat>, i: nat): nat
    requires i < |starts|
  {
    if i + 1 < |starts| then starts[i + 1] else length
  }

  ghost predicate Ascends(starts: seq<nat>, length: nat) {
    && (forall i :: 0 <= i < |starts| ==> starts[i] <= length)
    && (forall i, j :: 0 <= i <= j < |starts| ==> starts[i] <= starts[j])
  }

  /** The log of memtable i holds what was in it when the database was before, then its slice of the
      journal; or it is no longer needed. */
  ghost predicate SliceOk(st: Store, journal: seq<Record>, before: map<nat, seq<Record>>, starts: seq<nat>, i: nat)
    requires Ascends(starts, |journal|) && |starts| == |st.mems| && i < |st.mems|
  {
    if st.mems[i].log in st.logs then
      st.logs[st.mems[i].log] == (if i == 1 then RecordsIn(before, st.mems[1].log) else []) + Slice(journal, starts, i)
    else st.mems[i].log < st.logNumber
  }

  /** Logs that belong to no memtable are as they were. */
  ghost predicate StrangerOk(st: Store, before: map<nat, seq<Record>>, n: nat) {
    n in st.logs ==> (exists i :: 1 <= i < |st.mems| && st.mems[i].log == n) || (n in before && st.logs[n] == before[n])
  }

  /** `starts` says for each memtable where in the journal its log begins. */
  ghost predicate SlicedAt(st: Store, journal: seq<Record>, before: map<nat, seq<Record>>, starts: seq<nat>) {
    && |starts| == |st.mems| >= 2 && starts[1] == 0 && Ascends(starts, |journal|)
    && (forall i :: 1 <= i < |st.mems| ==> SliceOk(st, journal, before, starts, i))
    && (forall n: nat :: StrangerOk(st, before, n))
  }

  ghost predicate Sliced(st: Store, journal: seq<Record>, before: map<nat, seq<Record>>) {
    exists starts :: SlicedAt(st, journal, before, starts)
  }

  // ---------------------------------------------------------------- what steps do to logs

  ghost predicate SameMemLogs(st: Store, st': Store) {
    |st'.mems| == |st.mems| && forall i :: 0 <= i < |st.mems| ==> st'.mems[i].log == st.mems[i].log
  }

  /** Logs can only be dropped, and only those that are no longer needed. */
  ghost predicate Drops(st: Store, st': Store) {
    && SameMemLogs(st, st') && st.logNumber <= st'.logNumber
    && (forall n :: n in st'.logs ==> n in st.logs && st'.logs[n] == st.logs[n])
    && (forall n :: n in st.logs && n !in st'.logs ==> n < st'.logNumber)
  }

  lemma DropsKeep(st: Store, st': Store, journal: seq<Record>, before: map<nat, seq<Record>>)
    requires Sliced(st, journal, before) && Drops(st, st')
    ensures Sliced(st', journal, before)
  {
    var starts: seq<nat> :| SlicedAt(st, journal, before, starts);
    forall n: nat ensures StrangerOk(st', before, n) {
      assert StrangerOk(st, before, n);
    }
    forall i | 1 <= i < |st'.mems| ensures SliceOk(st', journal, before, starts, i) {
      assert SliceOk(st, journal, before, starts, i);
    }
    assert SlicedAt(st', journal, before, starts);
  }

  lemma SwitchSliced(st: Store, journal: seq<Record>, before: map<nat, seq<Record>>, bound: int)
    requires Sliced(st, journal, before) && StoreOk(st, bound)
    ensures Sliced(Switched(st), journal, before)
  {
    LogsBelow(st, bound);
    hide StoreOk;
    var starts: seq<nat> :| SlicedAt(st, journal, before, starts);
    var st' := Switched(st);
    var starts': seq<nat> := starts + [|journal|];
    assert st'.mems[|st.mems|].log == st.nextFile;
    forall n: nat ensures StrangerOk(st', before, n) {
      assert StrangerOk(st, before, n);
      if i :| 1 <= i < |st.mems| && st.mems[i].log == n { assert st'.mems[i].log == n; }
    }
    forall i | 1 <= i < |st'.mems| ensures SliceOk(st', journal, before, starts', i) {
      if i < |st.mems| {
        assert SliceOk(st, journal, before, starts, i);
        assert Slice(journal, starts', i) == Slice(journal, starts, i);
      } else {
        assert Slice(journal, starts', i) == [];
      }
    }
    assert SlicedAt(st', journal, before, starts');
  }

  lemma AppendSliced(st: Store, journal: seq<Record>, r: Record, before: map<nat, seq<Record>>, bound: int)
    requires Sliced(st, journal, before) && StoreOk(st, bound)
    ensures Sliced(Appended(st, r), journal + [r], before)
  {
    LogsDiffer(st, bound);
    hide StoreOk;
    var starts: seq<nat> :| SlicedAt(st, journal, before, starts);
    var st', journal', last := Appended(st, r), journal + [r], |st.mems| - 1;
    forall n: nat ensures StrangerOk(st', before, n) {
      assert StrangerOk(st, before, n);
      assert n == st.LogfileNumber() ==> st'.mems[last].log == n;
    }
    forall i | 1 <= i < |st'.mems| ensures SliceOk(st', journal', before, starts, i) {
      assert SliceOk(st, journal, before, starts, i);
      if i < last {
        assert Slice(journal', starts, i) == Slice(journal, starts, i);
      } else {
        assert Slice(journal', starts, i) == Slice(journal, starts, i) + [r];
      }
    }
    assert SlicedAt(st', journal', before, starts);
  }

  lemma LogsDiffer(st: Store, bound: int)
    requires StoreOk(st, bound)
    ensures st.mems != [] && st.LogfileNumber() in st.logs
    ensures forall i :: 0 <= i < |st.mems| - 1 ==> st.mems[i].log != st.LogfileNumber()
  {
    hide Sane, Entries, Logged, Union;
    forall i | 0 <= i < |st.mems| - 1 ensures st.mems[i].log != st.LogfileNumber() {
      assert Older(st.mems[i], st.mems[|st.mems| - 1]);
    }
  }

  lemma ProceedStore(s: Db, force: bool, allowDelay: bool, o: Luck)
    requires s.queue.queue != [] && s.queue.queue[0] in s.queue.writers && s.store.mems != []
    ensures var s' := Proceed(s, force, allowDelay, o);
            s'.journal == s.journal && (s'.store == s.store || s'.store == Switched(s.store))
  {
    hide MaybeSchedule, MakeRoom, Retired, Stamp, Ops, GroupSize, Moved;
    MakeRoomContract(s.store, s.bg, force, allowDelay, o);
  }

  /** A writer that gets the mutex does nothing to logs but start a new one. */
  lemma WriterStore(s: Db, a: Action)
    requires Enabled(s, a) && (a.AEnqueue? || a.ARun?)
    ensures var s' := Step(s, a);
            s'.journal == s.journal && (s'.store == s.store || s'.store == Switched(s.store))
  {
    hide Proceed, Moved, Pushed;
    match a
    case AEnqueue(id, batch, sync, o) =>
      if s.queue.queue == [] {
        var s' := s.(queue := Pushed(s.queue, id, Writer(batch, sync, false, OK, Parked(true))));
        PushedFirst(s.queue, id, Writer(batch, sync, false, OK, Parked(true)));
        ProceedStore(s', batch.None?, !batch.None?, o);
      }
    case ARun(id, o) =>
      if s.queue.queue != [] && s.queue.queue[0] == id {
        var w := s.queue.writers[id];
        match w.pc
        case Parked(_) => ProceedStore(s, w.batch.None?, !w.batch.None?, o);
        case Napping(force) => ProceedStore(s, force, false, o);
        case Stalled(force, allowDelay, _) => ProceedStore(s, force, allowDelay, o);
        case _ =>
      }
  }

  lemma WindowDrops(s: Db, a: Action)
    requires Enabled(s, a) && (a.ASync? || a.AInsert? || a.AConclude?)
    ensures Step(s, a).journal == s.journal && Drops(s.store, Step(s, a).store)
  {
    hide Retired, Moved, SignalAll, MaybeSchedule;
  }

  /** Installing the flush of a memtable drops the logs before the current one. */
  lemma InstallDrops(s: Db, needs: bool, base: nat, origin: set<Entry>)
    requires Inv(s, base, origin) && Enabled(s, AInstall(needs))
    ensures InstallVersion(s, needs).journal == s.journal && Drops(s.store, InstallVersion(s, needs).store)
  {
    hide QueueOk, LeaderOk, ReadersOk, StallOk, AccountsOk, Replaces, SignalAll, MaybeSchedule;
    LogNumberBelow(s.store, Bound(s.store.lastSequence, s.leader));
  }

  lemma OtherDrops(s: Db, a: Action)
    requires Enabled(s, a)
    requires (a.AStart? || a.ABuild? || a.ALogFlush? || a.ACommit? || a.ABegin? || a.ARead? || a.AEnd? || a.AShutdown?)
    ensures Step(s, a).journal == s.journal && Drops(s.store, Step(s, a).store)
  {
    hide Next, MaybeSchedule, SignalAll, ReadOne, Movable, Placeable, Describes;
  }

  lemma SlicedStep(s: Db, a: Action, base: nat, origin: set<Entry>, before: map<nat, seq<Record>>)
    requires Inv(s, base, origin) && Enabled(s, a) && Sliced(s.store, s.journal, before)
    ensures Sliced(Step(s, a).store, Step(s, a).journal, before)
  {
    hide Sliced, Drops, StoreOk, QueueOk, LeaderOk, BgOk, ReadersOk, StallOk, AccountsOk;
    var bound := Bound(s.store.lastSequence, s.leader);
    if a.AEnqueue? || a.ARun? {
      WriterStore(s, a);
      SwitchSliced(s.store, s.journal, before, bound);
    } else if a.AAppend? {
      if a.ok { AppendSliced(s.store, s.journal, s.leader.value.record, before, bound); }
    } else {
      if a.ASync? || a.AInsert? || a.AConclude? {
        WindowDrops(s, a);
      } else if a.AInstall? {
        InstallDrops(s, a.needs, base, origin);
      } else {
        OtherDrops(s, a);
      }
      DropsKeep(s.store, Step(s, a).store, s.journal, before);
    }
  }

  lemma {:induction false} RunSliced(s: Db, actions: seq<Action>, base: nat, origin: set<Entry>, before: map<nat,
                                     seq<Record>>)
    requires Inv(s, base, origin) && Possible(s, actions) && Sliced(s.store, s.journal, before)
    ensures Sliced(Execute(s, actions).store, Execute(s, actions).journal, before)
    decreases |actions|
  {
    hide Inv, Step, Enabled, Sliced;
    if actions != [] {
      StepKeeps(s, actions[0], base, origin);
      SlicedStep(s, actions[0], base, origin, before);
      RunSliced(Step(s, actions[0]), actions[1..], base, origin, before);
    }
  }

  lemma OpenedSliced(s: Db)
    requires Opened(s)
    ensures Sliced(s.store, [], s.store.logs)
  {
    hide Sane, Entries;
    assert SlicedAt(s.store, [], s.store.logs, [0, 0]);
  }

  /** In every reachable state each log is what it was when the database was before, followed by its own
      piece of the journal: the pieces follow each other without gap or overlap, log by log. */
  lemma LogsAreSlices(s: Db, actions: seq<Action>)
    requires Opened(s) && Possible(s, actions)
    ensures Sliced(Execute(s, actions).store, Execute(s, actions).journal, s.store.logs)
  {
    OpenedOk(s);
    OpenedSliced(s);
    hide Execute, Possible, Sliced, Inv;
    RunSliced(s, actions, s.store.lastSequence, Entries(s.store.current, s.store.tables), s.store.logs);
  }

  // ---------------------------------------------------------------- where a record stands

  /** This record was there when the database was opened. */
  predicate FromBefore(st: Store, before: map<nat, seq<Record>>, n: nat, p: nat)
    requires n in st.logs && p < |st.logs[n]|
  {
    n in before && p < |before[n]| && before[n][p] == st.logs[n][p]
  }

  /** Place p of log n holds record a of the journal, which lies in slice i. */
  ghost predicate Holds(st: Store, length: nat, before: map<nat, seq<Record>>, starts: seq<nat>,
                        n: nat, p: nat, i: nat, a: nat)
    requires |starts| == |st.mems| >= 2
  {
    && 1 <= i < |st.mems| && st.mems[i].log == n && starts[i] <= a < End(length, starts, i)
    && p == a - starts[i] + if i == 1 then |RecordsIn(before, st.mems[1].log)| else 0
  }

  lemma Origin(st: Store, journal: seq<Record>, before: map<nat, seq<Record>>, starts: seq<nat>, n: nat, p: nat)
    returns (i: nat, a: nat)
    requires SlicedAt(st, journal, before, starts) && n in st.logs && p < |st.logs[n]| && !FromBefore(st, before, n, p)
    ensures Holds(st, |journal|, before, starts, n, p, i, a) && a < |journal| && journal[a] == st.logs[n][p]
  {
    assert StrangerOk(st, before, n);
    i :| 1 <= i < |st.mems| && st.mems[i].log == n;
    assert SliceOk(st, journal, before, starts, i);
    var first := if i == 1 then RecordsIn(before, st.mems[1].log) else [];
    assert p >= |first|;
    a := starts[i] + p - |first|;
  }

  /** The slices cover the journal. */
  lemma {:induction false} FindSlice(length: nat, starts: seq<nat>, a: nat, n: nat) returns (i: nat)
    requires Ascends(starts, length) && 1 <= n < |starts| && starts[1] == 0 && a < End(length, starts, n)
    ensures 1 <= i < |starts| && starts[i] <= a < End(length, starts, i)
    decreases n
  {
    if starts[n] <= a {
      i := n;
    } else {
      i := FindSlice(length, starts, a, n - 1);
    }
  }

  /** The slices do not overlap, so one record of the journal is in one place. */
  lemma HoldsOnce(st: Store, length: nat, before: map<nat, seq<Record>>, starts: seq<nat>,
                  n: nat, p: nat, i: nat, m: nat, q: nat, j: nat, a: nat)
    requires |starts| == |st.mems| >= 2 && Ascends(starts, length)
    requires Holds(st, length, before, starts, n, p, i, a) && Holds(st, length, before, starts, m, q, j, a)
    ensures n == m && p == q
  {
  }

  // ---------------------------------------------------------------- the journal rises

  /** The records have sequence numbers in (low, high], each record after the one before. */
  ghost predicate Rises(rs: seq<Record>, low: int, high: int) {
    && (forall a, x :: 0 <= a < |rs| && 0 <= x < |rs[a]| ==> low < rs[a][x].sequence <= high)
    && (forall a, b, x, y :: 0 <= a < b < |rs| && 0 <= x < |rs[a]| && 0 <= y < |rs[b]| ==>
          rs[a][x].sequence < rs[b][y].sequence)
  }

  lemma RisesConcat(a: seq<Record>, b: seq<Record>, low: int, middle: int, high: int)
    requires Rises(a, low, middle) && Rises(b, middle, high) && low <= middle <= high
    ensures Rises(a + b, low, high)
  {
  }

  lemma RisesDiffer(rs: seq<Record>, low: int, high: int, a: nat, b: nat)
    requires Rises(rs, low, high) && a < |rs| && b < |rs| && rs[a] != [] && rs[b] != []
    requires rs[a][0].sequence == rs[b][0].sequence
    ensures a == b
  {
  }

  lemma RecordRises(ws: map<nat, Writer>, g: Group, low: nat)
    requires RecordOk(ws, g, low + 1)
    ensures Rises([g.record], low, low + |g.record|) && Rises([], low, low + |g.record|)
  {
    hide Ops, HasBatches;
  }

  lemma {:induction false} GroupsRise(ws: map<nat, Writer>, gs: seq<Group>, base: nat)
    requires GroupsOk(ws, gs, base)
    ensures Rises(LoggedBy(gs), base, base + Total(gs))
  {
    hide GroupsOk, RecordOk;
    if gs != [] {
      var n := |gs| - 1;
      var init, g := gs[..n], gs[n];
      GroupsInit(ws, gs, base);
      GroupsRise(ws, init, base);
      RecordRises(ws, g, base + Total(init));
      hide Rises;
      RisesConcat(LoggedBy(init), if g.logged then [g.record] else [], base, base + Total(init), base + Total(gs));
    }
  }

  lemma JournalRises(s: Db, base: nat, origin: set<Entry>)
    requires Inv(s, base, origin)
    ensures Rises(s.journal, base, s.store.lastSequence + if s.leader.Some? then |s.leader.value.record| else 0)
  {
    hide StoreOk, BgOk, StallOk, ReadersOk, GroupsOk, InOrder, OneAlert, Union, InsertedBy, LoggedBy, Ops, HasBatches,
      AllLogged;
    var last := s.store.lastSequence;
    GroupsRise(s.queue.writers, s.queue.retired, base);
    if s.leader.Some? {
      var w := s.leader.value;
      assert Rises([w.record], last, last + |w.record|);
      RisesConcat(LoggedBy(s.queue.retired), if w.logged then [w.record] else [], base, last, last + |w.record|);
    }
  }

  /** The record of a group that was logged stands behind those of the logged groups before it. */
  lemma {:induction false} LoggedIndex(gs: seq<Group>, k: nat)
    requires k < |gs| && gs[k].logged
    ensures |LoggedBy(gs[..k])| < |LoggedBy(gs)| && LoggedBy(gs)[|LoggedBy(gs[..k])|] == gs[k].record
  {
    if k < |gs| - 1 {
      LoggedIndex(gs[..|gs| - 1], k);
      assert gs[..|gs| - 1][..k] == gs[..k];
    }
  }

  lemma {:induction false} FromGroup(gs: seq<Group>, a: nat) returns (j: nat)
    requires a < |LoggedBy(gs)|
    ensures j < |gs| && gs[j].logged && gs[j].record == LoggedBy(gs)[a]
  {
    var init := gs[..|gs| - 1];
    if a < |LoggedBy(init)| { j := FromGroup(init, a); } else { j := |gs| - 1; }
  }

  /** A group that was not logged is not in the journal. */
  lemma UnloggedAbsent(s: Db, base: nat, origin: set<Entry>, k: nat, a: nat)
    requires Inv(s, base, origin) && k < |s.queue.retired| && !s.queue.retired[k].logged
    requires s.queue.retired[k].record != []
    requires a < |s.journal|
    ensures s.journal[a] != s.queue.retired[k].record
  {
    hide StoreOk, BgOk, StallOk, ReadersOk, Union, Ops, HasBatches, AllLogged, MembersOk, RecordOk, InOrder, OneAlert,
      Total;
    var gs := s.queue.retired;
    if a < |LoggedBy(gs)| {
      var j := FromGroup(gs, a);
      GroupsDiffer(s.queue, base, s.store.lastSequence, j, k);
    } else {
      Contiguous(s.queue, base, s.store.lastSequence, k, 0);
    }
  }

  /** Different groups write different records. */
  lemma GroupsDiffer(q: Queue, base: nat, last: nat, j: nat, k: nat)
    requires QueueOk(q, base, last) && j < |q.retired| && k < |q.retired| && j != k && q.retired[k].record != []
    ensures q.retired[j].record != q.retired[k].record
  {
    hide QueueOk, Total;
    FlatMonotone(q.retired, if j < k then j else k, if j < k then k else j);
    Contiguous(q, base, last, k, 0);
    if q.retired[j].record != [] { Contiguous(q, base, last, j, 0); }
  }

  // ---------------------------------------------------------------- once

  ghost predicate RecordAt(logs: map<nat, seq<Record>>, n: nat, p: nat, r: Record) {
    n in logs && p < |logs[n]| && logs[n][p] == r
  }

  /** The record is at place p of log n, or that log is gone because it is no longer needed; and it is nowhere else. */
  ghost predicate OnlyAt(st: Store, n: nat, p: nat, r: Record) {
    && (if n in st.logs then RecordAt(st.logs, n, p, r) else n < st.logNumber)
    && forall m: nat, q: nat :: RecordAt(st.logs, m, q, r) ==> m == n && q == p
  }

  /** A record with sequence numbers above all that was there before stands only where the journal put it. */
  lemma StandsOnce(st: Store, journal: seq<Record>, before: map<nat, seq<Record>>, a: nat, low: int,
                   high: int) returns (n: nat, p: nat)
    requires Sliced(st, journal, before) && Rises(journal, low, high) && a < |journal| && journal[a] != []
    requires forall m, e :: m in before && e in Logged(before[m]) ==> e.sequence <= low
    ensures OnlyAt(st, n, p, journal[a])
  {
    var starts: seq<nat> :| SlicedAt(st, journal, before, starts);
    var r := journal[a];
    var i := FindSlice(|journal|, starts, a, |starts| - 1);
    n := st.mems[i].log;
    p := a - starts[i] + if i == 1 then |RecordsIn(before, st.mems[1].log)| else 0;
    assert SliceOk(st, journal, before, starts, i);
    forall m: nat, q: nat | RecordAt(st.logs, m, q, r) ensures m == n && q == p {
      NotFromBefore(st, before, m, q, low);
      var j, b := Origin(st, journal, before, starts, m, q);
      RisesDiffer(journal, low, high, a, b);
      HoldsOnce(st, |journal|, before, starts, n, p, i, m, q, j, a);
    }
  }

  lemma FirstLogged(rs: seq<Record>, p: nat)
    requires p < |rs|
    ensures rs[p] != [] ==> rs[p][0] in Logged(rs)
  {
  }

  lemma NotFromBefore(st: Store, before: map<nat, seq<Record>>, m: nat, q: nat, low: int)
    requires m in st.logs && q < |st.logs[m]| && st.logs[m][q] != [] && st.logs[m][q][0].sequence > low
    requires forall m, e :: m in before && e in Logged(before[m]) ==> e.sequence <= low
    ensures !FromBefore(st, before, m, q)
  {
    if m in before && q < |before[m]| { FirstLogged(before[m], q); }
  }

  lemma StandsNowhere(st: Store, journal: seq<Record>, before: map<nat, seq<Record>>, r: Record, low: int, n: nat,
                      p: nat)
    requires Sliced(st, journal, before) && r != [] && r[0].sequence > low && forall a :: 0 <= a < |journal| ==>
               journal[a] != r
    requires forall m, e :: m in before && e in Logged(before[m]) ==> e.sequence <= low
    ensures !RecordAt(st.logs, n, p, r)
  {
    if RecordAt(st.logs, n, p, r) {
      NotFromBefore(st, before, n, p, low);
      var starts: seq<nat> :| SlicedAt(st, journal, before, starts);
      var i, a := Origin(st, journal, before, starts, n, p);
    }
  }

  /** Logged once: in every reachable state the record of a group that got it into a log stands at exactly
      one place of exactly one log until that log is dropped, and that of any other group nowhere. */
  lemma LoggedOnce(s: Db, actions: seq<Action>, k: nat)
    requires Opened(s) && Possible(s, actions) && LogsFrom(s.store, [], Entries(s.store.current, s.store.tables))
    requires k < |Execute(s, actions).queue.retired| && Execute(s, actions).queue.retired[k].record != []
    ensures var st, g := Execute(s, actions).store, Execute(s, actions).queue.retired[k];
            if g.logged then exists n: nat, p: nat :: OnlyAt(st, n, p, g.record)
            else forall n: nat, p: nat :: !RecordAt(st.logs, n, p, g.record)
  {
    var s', base, origin := Execute(s, actions), s.store.lastSequence, Entries(s.store.current, s.store.tables);
    LogsAreSlices(s, actions);
    InvAfter(s, actions);
    hide Execute, Possible, Sliced, Inv, Sane, Logged, Entries;
    JournalRises(s', base, origin);
    RecordPlaces(s', base, origin, s.store.logs, k);
  }

  lemma RecordPlaces(s: Db, base: nat, origin: set<Entry>, before: map<nat, seq<Record>>, k: nat)
    requires Inv(s, base, origin) && Sliced(s.store, s.journal, before)
    requires Rises(s.journal, base, s.store.lastSequence + if s.leader.Some? then |s.leader.value.record| else 0)
    requires forall m, e :: m in before && e in Logged(before[m]) ==> e.sequence <= base
    requires k < |s.queue.retired| && s.queue.retired[k].record != []
    ensures var st, g := s.store, s.queue.retired[k];
            if g.logged then exists n: nat, p: nat :: OnlyAt(st, n, p, g.record)
            else forall n: nat, p: nat :: !RecordAt(st.logs, n, p, g.record)
  {
    hide StoreOk, LeaderOk, BgOk, StallOk, ReadersOk, InsertedBy, LoggedBy, Sliced, Rises, Logged, OnlyAt, RecordAt,
      GroupsOk, InOrder, OneAlert;
    var st, gs := s.store, s.queue.retired;
    if gs[k].logged {
      LoggedIndex(gs, k);
      var high := st.lastSequence + if s.leader.Some? then |s.leader.value.record| else 0;
      var n, p := StandsOnce(st, s.journal, before, |LoggedBy(gs[..k])|, base, high);
    } else {
      Contiguous(s.queue, base, st.lastSequence, k, 0);
      forall a | 0 <= a < |s.journal| ensures s.journal[a] != gs[k].record {
        UnloggedAbsent(s, base, origin, k, a);
      }
      forall n: nat, p: nat ensures !RecordAt(st.logs, n, p, gs[k].record) {
        StandsNowhere(st, s.journal, before, gs[k].record, base, n, p);
      }
    }
  }

  // ---------------------------------------------------------------- nothing is made up

  /** Logs hold nothing but records of the journal. */
  ghost predicate LogsFrom(st: Store, journal: seq<Record>, origin: set<Entry>) {
    forall n :: n in st.logs ==> Logged(st.logs[n]) <= Logged(journal) + origin
  }

  /** Slices of the journal hold nothing else. */
  lemma SlicedFrom(st: Store, journal: seq<Record>, before: map<nat, seq<Record>>, origin: set<Entry>)
    requires Sliced(st, journal, before) && forall n :: n in before ==> Logged(before[n]) <= origin
    ensures LogsFrom(st, journal, origin)
  {
    var starts: seq<nat> :| SlicedAt(st, journal, before, starts);
    forall n, e | n in st.logs && e in Logged(st.logs[n]) ensures e in Logged(journal) + origin {
      var p, y :| 0 <= p < |st.logs[n]| && 0 <= y < |st.logs[n][p]| && st.logs[n][p][y] == e;
      if FromBefore(st, before, n, p) {
        assert before[n][p][y] == e;
      } else {
        var i, a := Origin(st, journal, before, starts, n, p);
        assert journal[a][y] == e;
      }
    }
  }

  lemma LoggedConcat(a: seq<Record>, b: seq<Record>)
    ensures Logged(a) <= Logged(a + b) && Logged(b) <= Logged(a + b)
  {
    forall e | e in Logged(a) ensures e in Logged(a + b) {
      var i, j :| 0 <= i < |a| && 0 <= j < |a[i]| && a[i][j] == e;
      assert (a + b)[i][j] == e;
    }
    forall e | e in Logged(b) ensures e in Logged(a + b) {
      var i, j :| 0 <= i < |b| && 0 <= j < |b[i]| && b[i][j] == e;
      assert (a + b)[|a| + i][j] == e;
    }
  }

  lemma PrefixLogged(r: Record, n: nat, e: Entry)
    requires n <= |r| && e in r[..n]
    ensures e in Logged([r])
  {
    var j :| 0 <= j < n && r[..n][j] == e;
    assert [r][0][j] == e;
  }

  /** What is in memtables is in the journal: the log comes first. */
  lemma {:induction false} InsertedLogged(gs: seq<Group>)
    requires InsertedOk(gs) && forall k :: 0 <= k < |gs| ==> gs[k].inserted > 0 ==> gs[k].logged
    ensures SetOf(InsertedBy(gs)) <= Logged(LoggedBy(gs))
  {
    if gs != [] {
      var n := |gs| - 1;
      var init, g := gs[..n], gs[n];
      InsertedLogged(init);
      var last := if g.logged then [g.record] else [];
      LoggedConcat(LoggedBy(init), last);
      forall e | e in InsertedBy(gs) ensures e in Logged(LoggedBy(gs)) {
        if e in g.record[..g.inserted] {
          PrefixLogged(g.record, g.inserted, e);
        } else {
          assert e in SetOf(InsertedBy(init));
        }
      }
    }
  }

  lemma HistoryLogged(s: Db, base: nat, origin: set<Entry>)
    requires Inv(s, base, origin)
    ensures History(s.store) <= Logged(s.journal) + origin
  {
    hide StoreOk, BgOk, StallOk, ReadersOk, MembersOk, InOrder, OneAlert, Union, Ops, HasBatches, AllLogged, Total,
      Stamp, Logged;
    var gs := s.queue.retired;
    forall k | 0 <= k < |gs| ensures gs[k].inserted > 0 ==> gs[k].logged {
      assert RecordOk(s.queue.writers, gs[k], base + Total(gs[..k]) + 1);
    }
    InsertedLogged(gs);
    var last := if s.leader.Some? && s.leader.value.logged then [s.leader.value.record] else [];
    LoggedConcat(LoggedBy(gs), last);
    forall e | e in SetOf(s.inserts) ensures e in Logged(s.journal) {
      if e in InsertedBy(gs) {
        assert e in SetOf(InsertedBy(gs));
      } else {
        PrefixLogged(s.leader.value.record, s.leader.value.inserted, e);
      }
    }
  }

  lemma ManifestInHistory(s: Db, base: nat, origin: set<Entry>)
    requires Inv(s, base, origin)
    ensures Entries(s.store.manifest.version, s.store.tables) <= History(s.store)
  {
    hide QueueOk, LeaderOk, ReadersOk, StallOk, AccountsOk, Sane, MemsOk, Entries, LogsOk, NumbersOk;
    var st := s.store;
    UnionSplit(st.mems, st.Flushed());
    if st.imm { MemInHistory(st, |st.mems| - 2); }
  }

  /** After every run a restart brings back every inserted entry, and nothing but entries of the version
      the database was opened with and of records that some group logged. */
  lemma RestartFinds(s: Db, actions: seq<Action>)
    requires Opened(s) && Possible(s, actions)
    requires LogsFrom(s.store, [], Entries(s.store.current, s.store.tables))
    ensures var s', origin := Execute(s, actions), Entries(s.store.current, s.store.tables);
            History(s'.store) <= Recoverable(s'.store) <= Logged(s'.journal) + origin
  {
    var base, origin, s' := s.store.lastSequence, Entries(s.store.current, s.store.tables), Execute(s, actions);
    OpenedOk(s);
    RunKeeps(s, actions, base, origin);
    LogsAreSlices(s, actions);
    SlicedFrom(s'.store, s'.journal, s.store.logs, origin);
    hide Inv, Execute, Possible, Opened, Entries, Logged;
    CrashSafe(s', base, origin);
    HistoryLogged(s', base, origin);
    ManifestInHistory(s', base, origin);
  }
}
