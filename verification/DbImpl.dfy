/** DBImpl (leveldb/db/db_impl.h, db_impl.cc) in imperative form: the fields that the mutex guards, and
    what each method does to them between two releases of the mutex.  Every method is proved to be one
    step of the machine `DbMachine`. */
module DbImpls {
  import opened DbFormat
  import opened VersionEdits
  import opened BuilderSpec
  import opened VersionReads
  import opened ManifestSpec
  import opened DbStore
  import opened DbQueue
  import opened DbMachine

  class DBImpl {
    var mem: set<Entry>
    var imm: Option<set<Entry>>
    var logfileNumber: nat
    var shuttingDown: bool
    var backgroundCompactionScheduled: bool
    var bgError: Status
    var writers: map<nat, Writer>        // the Writer objects, each on the stack of its thread
    var writersQueue: seq<nat>           // writers_
    ghost var readers: map<nat, Reader>  // the locals of Get

    // versions_
    var current: Levels
    var logNumber: nat
    var nextFileNumber: nat
    var lastSequence: nat

    // the environment
    var queuedCalls: nat
    var job: Job
    var logs: map<nat, seq<Record>>
    var tables: Tables
    var names: map<nat, FileMeta>
    var manifest: Recovered

    ghost var leader: Option<Leader>     // the locals of Write in the window
    ghost var immLog: nat                // the log of imm
    ghost var flushed: seq<Mem>          // earlier memtables
    ghost var order: seq<nat>
    ghost var retired: seq<Group>
    ghost var journal: seq<Record>
    ghost var inserts: seq<Entry>

    ghost function Mems(): (r: seq<Mem>)
      reads this`flushed, this`imm, this`immLog, this`mem, this`logfileNumber
      ensures r != [] && r[|r| - 1].log == logfileNumber
    {
      flushed + (if imm.Some? then [Mem(imm.value, immLog)] else []) + [Mem(mem, logfileNumber)]
    }

    ghost function StoreView(): Store
      reads this`flushed, this`imm, this`immLog, this`mem, this`logfileNumber, this`current, this`logNumber
      reads this`nextFileNumber, this`lastSequence, this`logs, this`tables, this`names, this`manifest
    {
      Store(Mems(), imm.Some?, current, logNumber, nextFileNumber, lastSequence, logs, tables, names, manifest)
    }

    ghost function BgView(): Background
      reads this`backgroundCompactionScheduled, this`shuttingDown, this`bgError, this`queuedCalls, this`job
    {
      Background(backgroundCompactionScheduled, shuttingDown, bgError != OK, queuedCalls, job)
    }

    ghost function QueueView(): Queue
      reads this`writers, this`writersQueue, this`order, this`retired
    {
      Queue(writers, writersQueue, order, retired)
    }

    ghost function View(): Db
      reads this
    {
      Db(StoreView(), QueueView(), leader, BgView(), readers, journal, inserts)
    }

    lemma StoreFields()
      ensures StoreView().imm == imm.Some? && StoreView().current == current && StoreView().nextFile == nextFileNumber
      ensures StoreView().logNumber == logNumber
    {
    }

    lemma ImmIs()
      requires imm.Some?
      ensures StoreView().Shaped() && StoreView().imm && StoreView().Imm().entries == imm.value
    {
    }

    /** MaybeScheduleCompaction. */
    method MaybeScheduleCompaction(otherNeeds: bool)
      modifies this`backgroundCompactionScheduled, this`queuedCalls
      ensures BgView() == MaybeSchedule(old(BgView()), imm.Some?, NeedsCompaction(current, otherNeeds))
    {
      if backgroundCompactionScheduled {
        // already scheduled
      } else if shuttingDown {
        // the database is being deleted
      } else if bgError != OK {
        // already got an error
      } else if imm == None && !NeedsCompaction(current, otherNeeds) {
        // no work to be done
      } else {
        backgroundCompactionScheduled := true;
        queuedCalls := queuedCalls + 1;
      }
    }

    /** Lines 305-313: the new log and a new memtable; the old memtable becomes immutable. */
    method SwitchMemtable(newLogNumber: nat)
      requires nextFileNumber == newLogNumber + 1
      modifies this`mem, this`imm, this`immLog, this`flushed, this`logfileNumber, this`logs
      ensures StoreView() == Switched(old(StoreView()).(nextFile := newLogNumber)) && imm.Some?
    {
      flushed := flushed + if imm.Some? then [Mem(imm.value, immLog)] else [];
      logs := logs[newLogNumber := []];
      immLog := logfileNumber;
      logfileNumber := newLogNumber;
      imm := Some(mem);
      mem := {};
    }

    /** The loop of MakeRoomForWrite until the mutex is released or the loop ends. */
    method MakeRoomForWrite(demand: bool, allowDelay: bool, luck: Luck) returns (room: Room)
      modifies this`mem, this`imm, this`immLog, this`flushed, this`logfileNumber, this`nextFileNumber, this`logs
      modifies this`backgroundCompactionScheduled, this`queuedCalls
      ensures (StoreView(), BgView(), room) == MakeRoom(old(StoreView()), old(BgView()), demand, allowDelay, luck)
    {
      hide Mems, Switched, MaybeSchedule, NeedsCompaction;
      var force, roomy := demand, luck.room;
      while true
        invariant MakeRoom(StoreView(), BgView(), force, allowDelay, luck.(room := roomy)) ==
                  MakeRoom(old(StoreView()), old(BgView()), demand, allowDelay, luck)
        decreases imm.None?
      {
        if bgError != OK {
          return Break(Failed);
        } else if allowDelay && |current[0]| >= SLOWDOWN_TRIGGER {
          return Nap;
        } else if !force && roomy {
          return Break(OK);
        } else if imm.Some? {
          return Stall(force);
        } else if |current[0]| >= STOP_TRIGGER {
          return Stall(force);
        } else {
          var s := Switch(luck);
          if s != OK {
            return Break(Failed);
          }
          force, roomy := false, luck.freshRoom;
        }
      }
    }

    /** Lines 296-315. */
    method Switch(luck: Luck) returns (s: Status)
      modifies this`mem, this`imm, this`immLog, this`flushed, this`logfileNumber, this`nextFileNumber, this`logs
      modifies this`backgroundCompactionScheduled, this`queuedCalls
      ensures s == if luck.newFile then OK else Failed
      ensures s != OK ==> StoreView() == old(StoreView()) && BgView() == old(BgView())
      ensures s == OK ==>
                var st := Switched(old(StoreView()));
                imm.Some? && StoreView() == st &&
                BgView() == MaybeSchedule(old(BgView()), st.imm, NeedsCompaction(st.current, luck.needs))
    {
      hide Mems, Switched, MaybeSchedule, NeedsCompaction, BgView;
      s := NewLog(luck.newFile);
      if s == OK {
        MaybeScheduleCompaction(luck.needs);
      }
    }

    /** Lines 296-313: a new log file and a new memtable, or nothing and the number goes back. */
    method NewLog(created: bool) returns (s: Status)
      modifies this`mem, this`imm, this`immLog, this`flushed, this`logfileNumber, this`nextFileNumber, this`logs
      ensures s == if created then OK else Failed
      ensures StoreView() == (if created then Switched(old(StoreView())) else old(StoreView()))
      ensures (created ==> imm.Some?)
    {
      hide Mems, Switched;
      var newLogNumber := nextFileNumber;
      nextFileNumber := nextFileNumber + 1;
      if !created {
        nextFileNumber := newLogNumber;  // ReuseFileNumber
        return Failed;
      }
      SwitchMemtable(newLogNumber);
      return OK;
    }

    // -------------------------------------------------------------- Write

    /** Lines 367-376: pop the group and tell its members. */
    method PopGroup(w: nat, lastWriter: nat, status: Status, ghost q: Queue, ghost n: nat)
      requires q == QueueView() && Distinct(q.queue) && 0 < n <= |q.queue| && q.queue[0] == w
      requires q.queue[n - 1] == lastWriter
      requires forall i :: 0 <= i < |q.queue| ==> q.queue[i] in q.writers
      modifies this`writers, this`writersQueue
      ensures writersQueue == q.queue[n..] && Told(q, writers, n, status)
    {
      hide Told;
      ghost var i := 0;
      ToldNothing(q, status);
      while true
        invariant 0 <= i < n && writersQueue == q.queue[i..] && Told(q, writers, i, status)
        decreases n - i
      {
        var ready := writersQueue[0];
        ToldOne(q, writers, i, status);
        writersQueue := writersQueue[1..];
        if ready != w {
          writers := writers[ready := writers[ready].(status := status, done := true, pc := Parked(true))];
        }
        i := i + 1;
        if ready == lastWriter {
          break;
        }
      }
    }

    /** Lines 367-383: pop the group, wake the next writer, return. */
    method RetireGroup(w: nat, lastWriter: nat, status: Status, ghost g: Group)
      requires InOrder(QueueView()) && 0 < |g.members| <= |QueueView().queue|
      requires g.members == QueueView().queue[..|g.members|]
      requires QueueView().queue[0] == w && QueueView().queue[|g.members| - 1] == lastWriter && g.status == status
      modifies this`writers, this`writersQueue, this`retired
      ensures QueueView() == Retired(old(QueueView()), g)
    {
      hide Retired, InOrder, Distinct, PoppedAll;
      ghost var q, n := QueueView(), |g.members|;
      QueueKnown(q);
      QueueDistinct(q);
      RetiredPops(q, g);
      RetiredParts(q, g);
      Wake(w, lastWriter, status, q, n);
      retired := retired + [g];
      PoppedUnique(q, Retired(q, g).writers, writers, n, status);
    }

    method Wake(w: nat, lastWriter: nat, status: Status, ghost q: Queue, ghost n: nat)
      requires q == QueueView() && Distinct(q.queue) && 0 < n <= |q.queue| && q.queue[0] == w
      requires q.queue[n - 1] == lastWriter
      requires forall i :: 0 <= i < |q.queue| ==> q.queue[i] in q.writers
      modifies this`writers, this`writersQueue
      ensures writersQueue == q.queue[n..] && PoppedAll(q, writers, n, status)
    {
      hide Told, PoppedAll;
      PopGroup(w, lastWriter, status, q, n);
      ToldAll(q, writers, n, status);
      if writersQueue != [] {
        writers := writers[writersQueue[0] := writers[writersQueue[0]].(pc := Parked(true))];
      }
      writers := writers[w := writers[w].(status := status, pc := Returned)];
    }
  
    /** What the leader keeps in its locals. */
    ghost predicate LeaderHas(record: Record, lastWriter: nat)
      reads this`leader, this`writersQueue
    {
      && leader.Some? && record == leader.value.record
      && 0 < leader.value.count <= |writersQueue| && lastWriter == writersQueue[leader.value.count - 1]
    }

    /** Lines 337-345, from holding the mutex to the wait, the sleep, the window of the leader or the end.
        A leader gets the record to write and the last writer of its group. */
    method Go(w: nat, demand: bool, allowDelay: bool, luck: Luck) returns (group: Option<(Record, nat)>)
      requires InOrder(QueueView()) && writersQueue != [] && writersQueue[0] == w && w in writers
      modifies this
      ensures View() == Proceed(old(View()), demand, allowDelay, luck)
      ensures group.Some? ==> LeaderHas(group.value.0, group.value.1)
    {
      hide Mems, MakeRoom, Decide, InOrder, StoreView, BgView, QueueView, LeaderHas;
      var room := MakeRoomForWrite(demand, allowDelay, luck);
      group := Act(w, room, demand, allowDelay, luck);
    }

    method Act(w: nat, room: Room, demand: bool, allowDelay: bool, luck: Luck) returns (group: Option<(Record, nat)>)
      requires InOrder(QueueView()) && writersQueue != [] && writersQueue[0] == w && w in writers
      modifies this`writers, this`writersQueue, this`retired, this`leader
      ensures View() == Decide(old(View()), room, demand, allowDelay, luck)
      ensures group.Some? ==> LeaderHas(group.value.0, group.value.1)
    {
      hide Mems, Retired, InOrder, Ops, Stamp, GroupSize, StoreView, BgView, Lead, LeaderHas;
      group := None;
      match room
      case Nap => Park(w, Napping(demand));
      case Stall(force) => Park(w, Stalled(force, allowDelay, false));
      case Break(status) =>
        if status == OK && writers[w].batch.Some? {
          var record, lastWriter := BeginGroup(w, luck);
          group := Some((record, lastWriter));
        } else {
          RetireGroup(w, w, status, Bare(w, status));
        }
    }

    method Park(w: nat, pc: Pc)
      requires w in writers
      modifies this`writers
      ensures QueueView() == Moved(old(QueueView()), w, pc)
    {
      writers := writers[w := writers[w].(pc := pc)];
    }

    /** Lines 338-343: BuildBatchGroup, SetSequence. */
    method BeginGroup(w: nat, luck: Luck) returns (record: Record, lastWriter: nat)
      requires writersQueue != [] && writersQueue[0] == w && w in writers && writers[w].batch.Some?
      modifies this`writers, this`leader
      ensures View() == Lead(old(View()), w, luck)
      ensures LeaderHas(record, lastWriter)
    {
      var n := GroupSize(Queue(writers, writersQueue, [], []), luck.group);
      record := Stamp(Ops(writers, writersQueue[..n]), lastSequence + 1);
      lastWriter := writersQueue[n - 1];
      writers := writers[w := writers[w].(pc := Leading)];
      leader := Some(Leader(n, record, |Mems()| - 1, ToAppend, OK, false, false, 0));
    }

    // -------------------------------------------------------------- the leader's window

    method AppendToLog(record: Record)
      requires logfileNumber in logs
      modifies this`logs
      ensures StoreView() == Appended(old(StoreView()), record)
    {
      hide Mems;
      logs := logs[logfileNumber := logs[logfileNumber] + [record]];
    }

    /** Line 348: the record goes to the log, or does not. */
    method AddRecord(record: Record, ok: bool) returns (status: Status)
      requires leader.Some? && record == leader.value.record && leader.value.status == OK
      requires logfileNumber in logs && writersQueue != [] && writersQueue[0] in writers
      modifies this`logs, this`leader, this`journal
      ensures View() == AppendLog(old(View()), ok) && status == leader.value.status
    {
      hide Mems, StoreView, BgView, Appended;
      ghost var w := leader.value;
      status := if ok then OK else Failed;
      if ok {
        AppendToLog(record);
        journal := journal + [record];
        leader := Some(w.(logged := true, stage := if writers[writersQueue[0]].sync then ToSync else ToInsert));
      } else {
        leader := Some(w.(status := Failed, stage := Ended));
      }
    }

    /** Lines 350-353. */
    method SyncLogfile(ok: bool) returns (status: Status, syncError: bool)
      requires leader.Some? && leader.value.stage == ToSync && leader.value.status == OK && !leader.value.syncError
      modifies this`leader
      ensures View() == SyncLog(old(View()), ok)
      ensures status == leader.value.status && syncError == leader.value.syncError
    {
      status := if ok then OK else Failed;
      syncError := status != OK;
      ghost var w := leader.value;
      leader := Some(if ok then w.(stage := ToInsert) else w.(status := Failed, syncError := true, stage := Ended));
    }

    /** Line 356: InsertInto puts the entries into mem_ one after the other, until one cannot be. */
    method InsertEntry(record: Record, next: nat, ok: bool)
      requires leader.Some? && record == leader.value.record && next == leader.value.inserted
      modifies this`mem, this`leader, this`inserts
      ensures View() == InsertNext(old(View()), ok)
    {
      ghost var w := leader.value;
      if next >= |record| {
        leader := Some(w.(stage := Ended));
      } else if !ok {
        leader := Some(w.(status := Failed, stage := Ended));
      } else {
        mem := mem + {record[next]};
        inserts := inserts + [record[next]];
        leader := Some(w.(inserted := next + 1));
      }
    }

    /** Lines 357-383: the leader has the mutex back. */
    method FinishWrite(w: nat, lastWriter: nat, count: nat, status: Status, syncError: bool, ghost g: Group)
      requires InOrder(QueueView()) && leader.Some? && 0 < leader.value.count <= |QueueView().queue|
      requires QueueView().queue[0] == w && QueueView().queue[leader.value.count - 1] == lastWriter
      requires count == |leader.value.record| && status == leader.value.status && syncError == leader.value.syncError
      requires g == Group(QueueView().queue[..leader.value.count], leader.value.record, status, true,
                          leader.value.logged, leader.value.inserted)
      modifies this
      ensures View() == Conclude(old(View()))
    {
      hide Retired, Mems, InOrder, SignalAll, QueueView, BgView, StoreView;
      SignalInOrder(QueueView());
      if syncError {
        RecordBackgroundError();
      }
      SetLastSequence(count);
      RetireGroup(w, lastWriter, status, g);
      leader := None;
    }

    method SetLastSequence(count: nat)
      modifies this`lastSequence
      ensures StoreView() == old(StoreView()).(lastSequence := old(StoreView()).lastSequence + count)
    {
      lastSequence := lastSequence + count;
    }

    /** Write up to the first release of the mutex. */
    method EnterWrite(id: nat, batch: Option<Batch>, sync: bool, luck: Luck) returns (group: Option<(Record, nat)>)
      requires InOrder(QueueView()) && id !in writers
      modifies this
      ensures View() == Enqueue(old(View()), id, batch, sync, luck)
    {
      hide Proceed, Pushed, Mems, InOrder, StoreView, BgView, QueueView;
      group := None;
      var alone := QueueUp(id, Writer(batch, sync, false, OK, Parked(writersQueue == [])));
      if alone {
        group := Go(id, batch.None?, !batch.None?, luck);
      }
    }

    /** Lines 322-327: queue up, and find out whether there is nobody in front. */
    method QueueUp(id: nat, w: Writer) returns (alone: bool)
      requires InOrder(QueueView()) && id !in writers
      modifies this`writers, this`writersQueue, this`order
      ensures QueueView() == Pushed(old(QueueView()), id, w) && InOrder(QueueView())
      ensures alone == (old(QueueView()).queue == []) == (old(writersQueue) == [])
      ensures alone ==> writersQueue == [id] && id in writers
    {
      hide InOrder;
      PushedInOrder(QueueView(), id, w);
      writers := writers[id := w];
      writersQueue := writersQueue + [id];
      order := order + [id];
      alone := writersQueue[0] == id;
    }

    /** A thread in Write or MakeRoomForWrite gets the mutex back. */
    method ResumeWrite(id: nat, luck: Luck) returns (group: Option<(Record, nat)>)
      requires InOrder(QueueView()) && id in writers
      modifies this
      ensures View() == Run(old(View()), id, luck)
    {
      hide Proceed, Mems, InOrder;
      group := None;
      var w := writers[id];
      var front := writersQueue != [] && writersQueue[0] == id;
      match w.pc
      case Parked(_) =>
        if w.done {
          writers := writers[id := w.(pc := Returned)];
        } else if !front {
          writers := writers[id := w.(pc := Parked(false))];
        } else {
          group := Go(id, w.batch.None?, !w.batch.None?, luck);
        }
      case Napping(force) => if front { group := Go(id, force, false, luck); }
      case Stalled(force, allowDelay, _) => if front { group := Go(id, force, allowDelay, luck); }
      case _ =>
    }

    // -------------------------------------------------------------- background work

    method SignalWaiters()
      modifies this`writers
      ensures QueueView() == SignalAll(old(QueueView()))
    {
      writers := map id | id in writers ::
        if writers[id].pc.Stalled? then writers[id].(pc := writers[id].pc.(woken := true)) else writers[id];
    }

    method RecordBackgroundError()
      modifies this`bgError, this`writers
      ensures BgView() == old(BgView()).(failed := true) && QueueView() == SignalAll(old(QueueView()))
    {
      bgError := Failed;
      SignalWaiters();
    }

    /** Lines 194-199. */
    method EndCall(otherNeeds: bool)
      modifies this`backgroundCompactionScheduled, this`queuedCalls, this`job, this`writers
      ensures BgView() == MaybeSchedule(old(BgView()).(scheduled := false, job := Idle), StoreView().imm,
                                        NeedsCompaction(StoreView().current, otherNeeds))
      ensures QueueView() == SignalAll(old(QueueView()))
    {
      hide QueueView, StoreView, NeedsCompaction;
      StoreFields();
      job := Idle;
      backgroundCompactionScheduled := false;
      MaybeScheduleCompaction(otherNeeds);
      SignalWaiters();
    }

    /** BackgroundCall and BackgroundCompaction up to the first release of the mutex. */
    method BackgroundCall(move: Option<(nat, FileMeta)>, otherNeeds: bool)
      requires queuedCalls > 0 && (move.Some? ==> move.value.0 + 1 < NUM_LEVELS)
      modifies this
      ensures View() == Start(old(View()), move, otherNeeds)
    {
      hide Mems, Next, Tail, QueueView;
      if shuttingDown {
        NoWork(otherNeeds);
      } else if bgError != OK {
        NoWork(otherNeeds);
      } else if imm.Some? {
        StartFlush();
      } else if move.None? {
        NoWork(otherNeeds);
      } else {
        StartMove(move.value.0, move.value.1);
      }
    }

    method NoWork(otherNeeds: bool)
      requires queuedCalls > 0
      modifies this
      ensures View() == Tail(old(View()).(bg := old(BgView()).(queuedCalls := old(BgView()).queuedCalls - 1)),
                             otherNeeds)
    {
      hide Mems, SignalAll, MaybeSchedule, QueueView, NeedsCompaction, StoreView;
      queuedCalls := queuedCalls - 1;
      EndCall(otherNeeds);
    }

    method NewFileNumber() returns (number: nat)
      modifies this`nextFileNumber
      ensures number == old(nextFileNumber) && StoreView() == NewNumber(old(StoreView()))
    {
      number := nextFileNumber;
      nextFileNumber := nextFileNumber + 1;
    }

    method StartFlush()
      requires queuedCalls > 0
      modifies this
      ensures View() == old(View()).(store := NewNumber(old(StoreView())),
                          bg := old(BgView()).(queuedCalls := old(BgView()).queuedCalls - 1,
                                               job := Building(old(StoreView()).nextFile, old(StoreView()).current)))
    {
      hide Mems, QueueView, StoreView, NewNumber;
      StoreFields();
      queuedCalls := queuedCalls - 1;
      var number := NewFileNumber();
      job := Building(number, current);
    }

    method StartMove(level: nat, f: FileMeta)
      requires queuedCalls > 0 && level + 1 < NUM_LEVELS
      modifies this
      ensures var st := old(StoreView());
              View() == old(View()).(bg := old(BgView()).(queuedCalls := old(BgView()).queuedCalls - 1,
                                       job := Logging(st.current, Next(st.current, MoveEdit(level, f)),
                                                      st.logNumber, false)))
    {
      hide Mems, QueueView, StoreView, Next;
      StoreFields();
      queuedCalls := queuedCalls - 1;
      job := Logging(current, Next(current, MoveEdit(level, f)), logNumber, false);
    }

    /** Lines 99-101: BuildTable, which makes no table of an empty memtable. */
    method BuildTable(base: Levels, file: FileMeta, ok: bool)
      requires job == Building(file.number, base) && imm.Some?
      modifies this`names, this`tables, this`job
      ensures View() == Build(old(View()), file, ok)
    {
      ImmIs();
      hide Mems, QueueView;
      if !ok {
        job := TableBuilt(base, None, false);
      } else if imm.value == {} {
        job := TableBuilt(base, None, true);
      } else {
        names, tables := names[file.number := file], tables[file.number := imm.value];
        job := TableBuilt(base, Some(file), true);
      }
    }

    /** CompactMemtable when the table is built: lines 110-120 and 141-149. */
    method TableDone(base: Levels, file: Option<FileMeta>, ok: bool, level: nat, otherNeeds: bool)
      requires job == TableBuilt(base, file, ok) && level < NUM_LEVELS
      modifies this
      ensures View() == LogFlush(old(View()), level, otherNeeds)
    {
      hide Mems, Tail, Fail, Next, QueueView;
      if !ok || shuttingDown {
        FailCall(otherNeeds);
      } else {
        StartLogFlush(if file.Some? then FlushEdit(level, file.value) else EMPTY);
      }
    }

    method FailCall(otherNeeds: bool)
      modifies this
      ensures View() == Tail(Fail(old(View())), otherNeeds)
    {
      hide Mems, SignalAll, MaybeSchedule, QueueView, NeedsCompaction, StoreView, BgView;
      RecordBackgroundError();
      EndCall(otherNeeds);
    }

    method StartLogFlush(edit: Edit)
      requires edit.LevelsOk()
      modifies this
      ensures var st := old(StoreView());
              View() == old(View()).(bg := old(BgView()).(job := Logging(st.current, Next(st.current, edit),
                                                                         st.LogfileNumber(), true)))
    {
      hide Mems, QueueView, Next;
      job := Logging(current, Next(current, edit), logfileNumber, true);
    }

    /** The end of LogAndApply (version_set.cc:367-381), of CompactMemtable (152-159) and of the call. */
    method LogAndApplyDone(base: Levels, target: Levels, log: nat, flush: bool, ok: bool, otherNeeds: bool)
      requires BgView().job == Written(base, target, log, flush, ok) && (flush ==> imm.Some?)
      modifies this
      ensures View() == InstallVersion(old(View()), otherNeeds)
    {
      hide SignalAll, MaybeSchedule, Mems, WithVersion, QueueView, NeedsCompaction, StoreView, BgView;
      if ok {
        Install(target, log, flush);
        EndCall(otherNeeds);
      } else {
        FailCall(otherNeeds);
      }
    }

    /** AppendVersion, the log number, and for a flush the end of imm_ and of the logs before. */
    method Install(target: Levels, log: nat, flush: bool)
      requires flush ==> imm.Some?
      modifies this`current, this`logNumber, this`flushed, this`imm, this`logs
      ensures StoreView() == WithVersion(old(StoreView()), target, log, flush)
    {
      current := target;
      logNumber := log;
      if flush {
        flushed := flushed + [Mem(imm.value, immLog)];
        imm := None;
        logs := map n | n in logs && n >= log :: logs[n];  // RemoveObsoleteFiles
        assert Mems() == old(Mems());
      }
    }

    // -------------------------------------------------------------- Get

    /** Lines 387-400: choose the snapshot and take references. */
    method BeginGet(id: nat, key: int, snapshot: Option<nat>)
      modifies this`readers
      ensures View() == BeginRead(old(View()), id, key, snapshot)
    {
      var sequence := lastSequence;
      if snapshot.Some? {
        sequence := snapshot.value;
      }
      readers := readers[id := Reader(key, sequence, |Mems()| - 1, imm.Some?, current, AtMem)];
    }

    /** Lines 409-413: look into a memtable that this Get holds; mem_ first, then the one before if it was
        immutable. */
    method LookInMemtable(id: nat, es: set<Entry>, key: int, snapshot: nat) returns (s: Option<GetResult>)
      requires id in readers && readers[id].key == key && readers[id].snapshot == snapshot && readers[id].mem < |Mems()|
      requires readers[id].imm ==> readers[id].mem > 0
      requires readers[id].pc == AtMem || (readers[id].pc == AtImm && readers[id].imm)
      requires es == Mems()[if readers[id].pc == AtMem then readers[id].mem else readers[id].mem - 1].entries
      requires OneEach(es)
      modifies this`readers
      ensures forall outcomes ::
                View() == old(View()).(readers := old(readers)[id := ReadOne(StoreView(), old(readers[id]), outcomes)])
      ensures s == if readers[id].pc.Done? then Some(readers[id].pc.result) else None
    {
      hide Mems, Lookup, OneEach;
      var status, saver := TableGet(es, key, snapshot, Fine);
      s := match saver
           case SaverFound(v) => Some(Value(v))
           case SaverDeleted => Some(NotFound)
           case _ => None;
      ghost var r := readers[id];
      readers := readers[id := r.(pc := if s.Some? then Done(s.value)
                                        else if r.pc == AtMem && r.imm then AtImm else AtVersion)];
    }

    /** Line 415: look into the version. */
    method LookInVersion(id: nat, v: Levels, key: int, snapshot: nat, outcomes: map<nat, Outcome>)
      returns (s: GetResult)
      requires id in readers && readers[id].key == key && readers[id].snapshot == snapshot && readers[id].mem < |Mems()|
      requires readers[id].imm ==> readers[id].mem > 0
      requires readers[id].pc == AtVersion && readers[id].version == v && Sane(names, v, tables)
      modifies this`readers
      ensures View() == old(View()).(readers := old(readers)[id := ReadOne(StoreView(), old(readers[id]), outcomes)])
      ensures readers[id].pc == Done(s)
    {
      hide Mems, Lookup, Sane, Fails, SearchOrder, GivesNewest, Entries;
      s := VersionReads.Get(names, v, tables, key, snapshot, outcomes);
      readers := readers[id := readers[id].(pc := Done(s))];
    }

    /** Lines 421-427: charge the seek and drop the references. */
    method EndGet(id: nat, update: bool, otherNeeds: bool)
      modifies this`readers, this`backgroundCompactionScheduled, this`queuedCalls
      ensures View() == EndRead(old(View()), id, update, otherNeeds)
    {
      hide Mems, StoreView, BgView, QueueView, MaybeSchedule, NeedsCompaction;
      StoreFields();
      if update {
        MaybeScheduleCompaction(otherNeeds);
      }
      readers := readers - {id};
    }
  }

  /** The writers after i pops: all but the leader know the result. */
  ghost predicate Told(q: Queue, ws: map<nat, Writer>, i: nat, status: Status)
    requires forall i :: 0 <= i < |q.queue| ==> q.queue[i] in q.writers
  {
    && ws.Keys == q.writers.Keys
    && (forall id :: id in q.writers && id !in q.queue ==> ws[id] == q.writers[id])
    && (forall k :: 0 <= k < |q.queue| ==> ws[q.queue[k]] == ToldAt(q.writers[q.queue[k]], k, i, status))
  }

  function ToldAt(w: Writer, k: nat, i: nat, status: Status): Writer {
    if 1 <= k < i then w.(status := status, done := true, pc := Parked(true)) else w
  }

  lemma RetiredParts(q: Queue, g: Group)
    requires 0 < |g.members| <= |q.queue|
    ensures Retired(q, g) == Queue(Retired(q, g).writers, q.queue[|g.members|..], q.order, q.retired + [g])
  {
  }

  lemma SignalInOrder(q: Queue)
    requires InOrder(q)
    ensures InOrder(SignalAll(q)) && SignalAll(q).queue == q.queue
  {
  }

  lemma PushedInOrder(q: Queue, id: nat, w: Writer)
    requires InOrder(q) && id !in q.writers
    ensures InOrder(Pushed(q, id, w))
    ensures q.queue == [] <==> (q.queue + [id])[0] == id
  {
    PushInOrder(q, id, w);
    QueueKnown(q);
  }

  lemma ToldNothing(q: Queue, status: Status)
    requires forall i :: 0 <= i < |q.queue| ==> q.queue[i] in q.writers
    ensures Told(q, q.writers, 0, status)
  {
  }

  lemma ToldOne(q: Queue, ws: map<nat, Writer>, i: nat, status: Status)
    requires forall i :: 0 <= i < |q.queue| ==> q.queue[i] in q.writers
    requires Distinct(q.queue) && i < |q.queue| && Told(q, ws, i, status)
    ensures var ready := q.queue[i];
            && (i == 0 <==> ready == q.queue[0]) && ready in ws
            && var w := ws[ready].(status := status, done := true, pc := Parked(true));
               Told(q, if i == 0 then ws else ws[ready := w], i + 1, status)
    ensures forall j :: 0 <= j < |q.queue| ==> (i == j <==> q.queue[i] == q.queue[j])
  {
  }

  lemma ToldAll(q: Queue, ws: map<nat, Writer>, n: nat, status: Status)
    requires forall i :: 0 <= i < |q.queue| ==> q.queue[i] in q.writers
    requires Distinct(q.queue) && 0 < n <= |q.queue| && Told(q, ws, n, status)
    ensures q.queue[0] in ws && (n < |q.queue| ==> q.queue[n] in ws)
    ensures var ws1 := if n < |q.queue| then ws[q.queue[n] := ws[q.queue[n]].(pc := Parked(true))] else ws;
            PoppedAll(q, ws1[q.queue[0] := ws1[q.queue[0]].(status := status, pc := Returned)], n, status)
  {
  }

  lemma PoppedUnique(q: Queue, ws: map<nat, Writer>, ws': map<nat, Writer>, n: nat, status: Status)
    requires forall i :: 0 <= i < |q.queue| ==> q.queue[i] in q.writers
    requires PoppedAll(q, ws, n, status) && PoppedAll(q, ws', n, status)
    ensures ws' == ws
  {
    forall id | id in ws ensures ws'[id] == ws[id] {
      if id in q.queue {
        var k :| 0 <= k < |q.queue| && q.queue[k] == id;
      }
    }
  }
}
