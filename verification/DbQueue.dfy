/** The writer queue of DBImpl::Write (leveldb/db/db_impl.cc:321-383): who waits, who leads, and which
    groups of writers have been retired. */
module DbQueue {
  import opened DbFormat

  datatype Op = Op(key: int, value: Option<string>)

  type Batch = seq<Op>

  /** Where a writer's thread is: in cv.Wait(), in the sleep or the wait of MakeRoomForWrite, leading
      with the mutex released, or back from Write. */
  datatype Pc =
    | Parked(signalled: bool)
    | Napping(force: bool)
    | Stalled(force: bool, allowDelay: bool, woken: bool)
    | Leading
    | Returned

  datatype Writer = Writer(batch: Option<Batch>, sync: bool, done: bool, status: Status, pc: Pc)

  /** The writers that one leader retired together, and what it tried to write for them: whether the
      record got into the log, and how many of its entries into the memtable. */
  datatype Group = Group(members: seq<nat>, record: Record, status: Status, attempted: bool, logged: bool,
                         inserted: nat)

  datatype Queue = Queue(writers: map<nat, Writer>, queue: seq<nat>, order: seq<nat>, retired: seq<Group>)

  /** The entries of a batch whose sequence number has been set to `first`. */
  function Stamp(ops: Batch, first: nat): (r: Record)
    ensures |r| == |ops|
    ensures forall i :: 0 <= i < |r| ==> r[i] == Entry(ops[i].key, first + i, ops[i].value)
  {
    seq(|ops|, i requires 0 <= i < |ops| => Entry(ops[i].key, first + i, ops[i].value))
  }

  predicate HasBatches(ws: map<nat, Writer>, ids: seq<nat>) {
    forall i :: 0 <= i < |ids| ==> ids[i] in ws && ws[ids[i]].batch.Some?
  }

  /** The batches of the members, one after the other. */
  function Ops(ws: map<nat, Writer>, ids: seq<nat>): Batch
    requires HasBatches(ws, ids)
  {
    if ids == [] then [] else ws[ids[0]].batch.value + Ops(ws, ids[1..])
  }

  function Flat(gs: seq<Group>): seq<nat> {
    if gs == [] then [] else Flat(gs[..|gs| - 1]) + gs[|gs| - 1].members
  }

  function Total(gs: seq<Group>): nat {
    if gs == [] then 0 else Total(gs[..|gs| - 1]) + |gs[|gs| - 1].record|
  }

  // ---------------------------------------------------------------- invariants

  ghost predicate Distinct(ids: seq<nat>) {
    forall i, j :: 0 <= i < j < |ids| ==> ids[i] != ids[j]
  }

  /** Groups are consecutive pieces of the enqueue order, which is followed by the queue. */
  ghost predicate InOrder(q: Queue) {
    && q.order == Flat(q.retired) + q.queue && Distinct(q.order)
    && (forall i :: 0 <= i < |q.order| ==> q.order[i] in q.writers)
    && (forall id :: id in q.writers ==> id in q.order)
  }

  /** The front of the queue is running, or has been told to. */
  predicate Alert(w: Writer) {
    !w.done && (w.pc.Napping? || w.pc.Stalled? || w.pc.Leading? || w.pc == Parked(true))
  }

  predicate Waiting(w: Writer) {
    !w.done && w.pc.Parked?
  }

  ghost predicate OneAlert(q: Queue)
    requires InOrder(q)
  {
    && (q.queue != [] ==> q.queue[0] in q.writers && Alert(q.writers[q.queue[0]]))
    && (forall i :: 1 <= i < |q.queue| ==> q.queue[i] in q.writers && Waiting(q.writers[q.queue[i]]))
  }

  /** Every member has the status of its leader; the followers are done and signalled. */
  ghost predicate MemberOk(w: Writer, leader: bool, status: Status) {
    && w.status == status
    && if leader then w.pc == Returned else w.done && (w.pc == Parked(true) || w.pc == Returned)
  }

  ghost predicate MembersOk(ws: map<nat, Writer>, g: Group) {
    && g.members != []
    && forall i :: 0 <= i < |g.members| ==> g.members[i] in ws && MemberOk(ws[g.members[i]], i == 0, g.status)
  }

  predicate NoBatch(ws: map<nat, Writer>, id: nat) {
    id in ws && ws[id].batch.None?
  }

  /** An attempted group writes the batches of its members under the next sequence numbers: to the log
      first, and all of them if it reports success.  Without an attempt there is no success to report,
      except to a writer without a batch. */
  ghost predicate RecordOk(ws: map<nat, Writer>, g: Group, first: nat) {
    && (if g.attempted then HasBatches(ws, g.members) && g.record == Stamp(Ops(ws, g.members), first)
        else |g.members| == 1 && g.record == [] && !g.logged && (g.status == OK ==> NoBatch(ws, g.members[0])))
    && g.inserted <= |g.record| && (g.inserted > 0 ==> g.logged)
    && (g.attempted && g.status == OK ==> g.logged && g.inserted == |g.record|)
  }

  ghost predicate GroupsOk(ws: map<nat, Writer>, gs: seq<Group>, base: nat) {
    forall k :: 0 <= k < |gs| ==> MembersOk(ws, gs[k]) && RecordOk(ws, gs[k], base + Total(gs[..k]) + 1)
  }

  ghost predicate QueueOk(q: Queue, base: nat, lastSequence: nat) {
    InOrder(q) && OneAlert(q) && GroupsOk(q.writers, q.retired, base) && lastSequence == base + Total(q.retired)
  }

  // ---------------------------------------------------------------- updates

  /** Change one writer's program counter. */
  function Moved(q: Queue, id: nat, pc: Pc): Queue
    requires id in q.writers
  {
    q.(writers := q.writers[id := q.writers[id].(pc := pc)])
  }

  /** writers_.push_back(&w), by a writer that then waits or, at the front, goes on. */
  function Pushed(q: Queue, id: nat, w: Writer): Queue {
    q.(writers := q.writers[id := w], queue := q.queue + [id], order := q.order + [id])
  }

  /** What the loop at lines 367-376 and the signal at lines 378-380 do to a writer. */
  function Popped(w: Writer, place: nat, n: nat, status: Status): Writer {
    if place == 0 then w.(status := status, pc := Returned)
    else if place < n then w.(status := status, done := true, pc := Parked(true))
    else if place == n then w.(pc := Parked(true))
    else w
  }

  function PlaceOf(queue: seq<nat>, id: nat): (k: nat)
    ensures k <= |queue|
    ensures k < |queue| ==> queue[k] == id
    ensures k == |queue| ==> id !in queue
  {
    if queue == [] || queue[0] == id then 0 else 1 + PlaceOf(queue[1..], id)
  }

  /** The leader retires the writers of its group with its status and wakes the next one. */
  function Retired(q: Queue, g: Group): Queue
    requires 0 < |g.members| <= |q.queue|
  {
    var n := |g.members|;
    var ws := map id | id in q.writers ::
                if id in q.queue then Popped(q.writers[id], PlaceOf(q.queue, id), n, g.status) else q.writers[id];
    Queue(ws, q.queue[n..], q.order, q.retired + [g])
  }

  // ---------------------------------------------------------------- what updates keep

  ghost predicate SameBatches(ws: map<nat, Writer>, ws': map<nat, Writer>, ids: seq<nat>) {
    forall i :: 0 <= i < |ids| ==> ids[i] in ws && ids[i] in ws' && ws'[ids[i]].batch == ws[ids[i]].batch
  }

  lemma {:induction false} OpsSame(ws: map<nat, Writer>, ws': map<nat, Writer>, ids: seq<nat>)
    requires HasBatches(ws, ids) && SameBatches(ws, ws', ids)
    ensures HasBatches(ws', ids) && Ops(ws', ids) == Ops(ws, ids)
  {
    if ids != [] { OpsSame(ws, ws', ids[1..]); }
  }

  lemma {:induction false} MemberInOrder(gs: seq<Group>, k: nat, i: nat)
    requires k < |gs| && i < |gs[k].members|
    ensures exists p :: 0 <= p < |Flat(gs)| && Flat(gs)[p] == gs[k].members[i]
  {
    var init := gs[..|gs| - 1];
    if k < |gs| - 1 {
      MemberInOrder(init, k, i);
      var p :| 0 <= p < |Flat(init)| && Flat(init)[p] == init[k].members[i];
      assert Flat(gs)[p] == gs[k].members[i];
    } else {
      assert Flat(gs)[|Flat(init)| + i] == gs[k].members[i];
    }
  }

  /** Retired writers are not in the queue. */
  lemma RetiredLeft(q: Queue, k: nat, i: nat)
    requires InOrder(q) && k < |q.retired| && i < |q.retired[k].members|
    ensures q.retired[k].members[i] !in q.queue && q.retired[k].members[i] in q.writers
  {
    MemberInOrder(q.retired, k, i);
    var n := |Flat(q.retired)|;
    var p :| 0 <= p < n && Flat(q.retired)[p] == q.retired[k].members[i];
    forall j | 0 <= j < |q.queue| ensures q.queue[j] != q.retired[k].members[i] {
      assert q.order[p] == Flat(q.retired)[p] && q.order[n + j] == q.queue[j];
    }
    assert q.order[p] in q.writers;
  }

  /** A group stays as it is if its members keep what it says about them. */
  lemma GroupKeeps(ws: map<nat, Writer>, ws': map<nat, Writer>, g: Group, first: nat)
    requires MembersOk(ws, g) && RecordOk(ws, g, first)
    requires SameBatches(ws, ws', g.members)
    requires forall i :: 0 <= i < |g.members| ==> MemberOk(ws'[g.members[i]], i == 0, g.status)
    ensures MembersOk(ws', g) && RecordOk(ws', g, first)
  {
    if g.attempted { OpsSame(ws, ws', g.members); }
  }

  /** Updates outside the retired groups keep them in order. */
  lemma GroupsKeep(q: Queue, ws: map<nat, Writer>, base: nat)
    requires InOrder(q) && GroupsOk(q.writers, q.retired, base)
    requires forall id :: id in q.writers && id !in q.queue ==> id in ws && ws[id] == q.writers[id]
    ensures GroupsOk(ws, q.retired, base)
  {
    hide InOrder, RecordOk, Total;
    forall k | 0 <= k < |q.retired|
      ensures MembersOk(ws, q.retired[k]) && RecordOk(ws, q.retired[k], base + Total(q.retired[..k]) + 1)
    {
      forall i | 0 <= i < |q.retired[k].members| ensures q.retired[k].members[i] !in q.queue {
        RetiredLeft(q, k, i);
      }
      GroupKeeps(q.writers, ws, q.retired[k], base + Total(q.retired[..k]) + 1);
    }
  }

  /** The queue can take a new writer: at its end, parked unless it is alone. */
  lemma PushKeeps(q: Queue, id: nat, w: Writer, base: nat, last: nat)
    requires QueueOk(q, base, last) && id !in q.writers
    requires if q.queue == [] then Alert(w) else Waiting(w)
    ensures QueueOk(Pushed(q, id, w), base, last)
  {
    hide GroupsOk, Flat, Total, InOrder, OneAlert;
    PushInOrder(q, id, w);
    PushAlert(q, id, w);
    GroupsKeep(q, Pushed(q, id, w).writers, base);
  }

  lemma PushAlert(q: Queue, id: nat, w: Writer)
    requires InOrder(q) && InOrder(Pushed(q, id, w)) && OneAlert(q) && id !in q.writers
    requires if q.queue == [] then Alert(w) else Waiting(w)
    ensures OneAlert(Pushed(q, id, w))
  {
    hide InOrder, Alert, Waiting;
  }

  lemma PushInOrder(q: Queue, id: nat, w: Writer)
    requires InOrder(q) && id !in q.writers
    ensures InOrder(Pushed(q, id, w))
  {
    hide Flat;
    forall i | 0 <= i < |q.order| ensures q.order[i] != id { assert q.order[i] in q.writers; }
    assert Flat(q.retired) + (q.queue + [id]) == q.order + [id];
  }

  /** A queued writer may move if the front stays alert and the others keep waiting. */
  lemma MoveKeeps(q: Queue, id: nat, pc: Pc, base: nat, last: nat)
    requires QueueOk(q, base, last) && id in q.queue && id in q.writers
    requires var w := q.writers[id].(pc := pc); if id == q.queue[0] then Alert(w) else Waiting(w)
    ensures QueueOk(Moved(q, id, pc), base, last)
  {
    var q' := Moved(q, id, pc);
    GroupsKeep(q, q'.writers, base);
    QueueDistinct(q);
  }

  lemma QueueDistinct(q: Queue)
    requires InOrder(q)
    ensures Distinct(q.queue)
  {
    var n := |Flat(q.retired)|;
    forall i, j | 0 <= i < j < |q.queue| ensures q.queue[i] != q.queue[j] {
      assert q.queue[i] == q.order[n + i] && q.queue[j] == q.order[n + j];
    }
  }

  /** A follower that was popped wakes up and returns. */
  lemma ReturnKeeps(q: Queue, id: nat, base: nat, last: nat)
    requires QueueOk(q, base, last) && id in q.writers && q.writers[id].done
    ensures QueueOk(Moved(q, id, Returned), base, last)
  {
    var q' := Moved(q, id, Returned);
    assert id !in q.queue by {
      forall i | 0 <= i < |q.queue| ensures q.queue[i] != id {
        assert !q.writers[q.queue[i]].done;
      }
    }
    ReturnGroups(q, id, base);
  }

  lemma ReturnGroups(q: Queue, id: nat, base: nat)
    requires GroupsOk(q.writers, q.retired, base) && id in q.writers && q.writers[id].done
    ensures GroupsOk(Moved(q, id, Returned).writers, q.retired, base)
  {
    hide RecordOk, Total;
    var ws := Moved(q, id, Returned).writers;
    forall k | 0 <= k < |q.retired|
      ensures MembersOk(ws, q.retired[k]) && RecordOk(ws, q.retired[k], base + Total(q.retired[..k]) + 1)
    {
      GroupKeeps(q.writers, ws, q.retired[k], base + Total(q.retired[..k]) + 1);
    }
  }

  lemma PlaceIs(queue: seq<nat>, i: nat)
    requires Distinct(queue) && i < |queue|
    ensures PlaceOf(queue, queue[i]) == i
  {
    var k := PlaceOf(queue, queue[i]);
    assert k < |queue|;
  }

  lemma {:induction false} FlatAppend(gs: seq<Group>, g: Group)
    ensures Flat(gs + [g]) == Flat(gs) + g.members && Total(gs + [g]) == Total(gs) + |g.record|
  {
    assert (gs + [g])[..|gs|] == gs;
  }

  lemma GroupsAppend(ws: map<nat, Writer>, gs: seq<Group>, g: Group, base: nat)
    requires GroupsOk(ws, gs, base) && MembersOk(ws, g) && RecordOk(ws, g, base + Total(gs) + 1)
    ensures GroupsOk(ws, gs + [g], base)
  {
    hide MembersOk, RecordOk, Total;
    forall k | 0 <= k < |gs + [g]|
      ensures MembersOk(ws, (gs + [g])[k]) && RecordOk(ws, (gs + [g])[k], base + Total((gs + [g])[..k]) + 1)
    {
      assert (gs + [g])[..k] == gs[..k];
      assert gs[..|gs|] == gs;
    }
  }

  /** The writers after the group was popped. */
  ghost predicate PoppedAll(q: Queue, ws: map<nat, Writer>, n: nat, status: Status)
    requires forall i :: 0 <= i < |q.queue| ==> q.queue[i] in q.writers
  {
    && ws.Keys == q.writers.Keys
    && (forall id :: id in q.writers && id !in q.queue ==> ws[id] == q.writers[id])
    && (forall i :: 0 <= i < |q.queue| ==>
         q.queue[i] in ws && ws[q.queue[i]] == Popped(q.writers[q.queue[i]], i, n, status))
  }

  lemma QueueKnown(q: Queue)
    requires InOrder(q)
    ensures forall i :: 0 <= i < |q.queue| ==> q.queue[i] in q.writers
  {
    var n := |Flat(q.retired)|;
    forall i | 0 <= i < |q.queue| ensures q.queue[i] in q.writers {
      assert q.queue[i] == q.order[n + i];
    }
  }

  lemma RetiredPops(q: Queue, g: Group)
    requires InOrder(q) && 0 < |g.members| <= |q.queue|
    ensures forall i :: 0 <= i < |q.queue| ==> q.queue[i] in q.writers
    ensures PoppedAll(q, Retired(q, g).writers, |g.members|, g.status)
  {
    QueueKnown(q);
    QueueDistinct(q);
    hide InOrder, PlaceOf, Popped, Distinct;
    forall i | 0 <= i < |q.queue| ensures PlaceOf(q.queue, q.queue[i]) == i {
      PlaceIs(q.queue, i);
    }
  }

  lemma RetireInOrder(q: Queue, ws: map<nat, Writer>, n: nat, g: Group)
    requires InOrder(q) && 0 < n <= |q.queue| && g.members == q.queue[..n] && ws.Keys == q.writers.Keys
    ensures InOrder(Queue(ws, q.queue[n..], q.order, q.retired + [g]))
  {
    FlatAppend(q.retired, g);
    hide Flat;
    assert Flat(q.retired) + q.queue[..n] + q.queue[n..] == Flat(q.retired) + q.queue;
  }

  lemma RetireAlert(q: Queue, ws: map<nat, Writer>, n: nat, status: Status, g: Group)
    requires InOrder(q) && OneAlert(q) && 0 < n <= |q.queue|
    requires PoppedAll(q, ws, n, status) && InOrder(Queue(ws, q.queue[n..], q.order, q.retired + [g]))
    ensures OneAlert(Queue(ws, q.queue[n..], q.order, q.retired + [g]))
  {
    hide InOrder;
    forall i | 0 <= i < |q.queue[n..]| ensures q.queue[n..][i] == q.queue[n + i] {}
  }

  lemma RetireMembers(q: Queue, ws: map<nat, Writer>, n: nat, g: Group)
    requires InOrder(q) && OneAlert(q) && 0 < n <= |q.queue| && g.members == q.queue[..n]
    requires PoppedAll(q, ws, n, g.status)
    ensures MembersOk(ws, g) && SameBatches(q.writers, ws, g.members)
  {
    hide InOrder;
    assert forall i :: 0 <= i < n ==> g.members[i] == q.queue[i];
  }

  /** Retiring a group keeps the queue in order and hands the lead to the next writer. */
  lemma RetireKeeps(q: Queue, g: Group, base: nat, last: nat)
    requires QueueOk(q, base, last) && 0 < |g.members| <= |q.queue| && g.members == q.queue[..|g.members|]
    requires RecordOk(q.writers, g, last + 1)
    ensures QueueOk(Retired(q, g), base, last + |g.record|)
  {
    hide GroupsOk, Flat, Total, PoppedAll, SameBatches, HasBatches, Ops, Stamp, MembersOk;
    var q', n := Retired(q, g), |g.members|;
    RetiredPops(q, g);
    RetireInOrder(q, q'.writers, n, g);
    RetireAlert(q, q'.writers, n, g.status, g);
    RetireMembers(q, q'.writers, n, g);
    if g.attempted { OpsSame(q.writers, q'.writers, g.members); }
    GroupsKeep(q, q'.writers, base);
    GroupsAppend(q'.writers, q.retired, g, base);
    FlatAppend(q.retired, g);
  }

  // ---------------------------------------------------------------- what the invariants mean

  lemma {:induction false} FlatAt(gs: seq<Group>, k: nat, i: nat)
    requires k < |gs| && i < |gs[k].members|
    ensures |Flat(gs[..k])| + i < |Flat(gs)| && Flat(gs)[|Flat(gs[..k])| + i] == gs[k].members[i]
    ensures |Flat(gs[..k])| + |gs[k].members| <= |Flat(gs)|
  {
    var init := gs[..|gs| - 1];
    if k < |gs| - 1 {
      FlatAt(init, k, i);
      assert init[..k] == gs[..k];
    }
  }

  lemma {:induction false} FlatMonotone(gs: seq<Group>, j: nat, k: nat)
    requires j <= k <= |gs|
    ensures |Flat(gs[..j])| <= |Flat(gs[..k])| && Total(gs[..j]) <= Total(gs[..k])
    ensures j < k ==>
              |Flat(gs[..j])| + |gs[j].members| <= |Flat(gs[..k])| && Total(gs[..j]) + |gs[j].record| <= Total(gs[..k])
  {
    if j < k {
      FlatMonotone(gs, j, k - 1);
      assert gs[..k][..k - 1] == gs[..k - 1];
    }
  }

  /** A writer is in at most one group, at one place. */
  lemma OneGroup(q: Queue, j: nat, i: nat, k: nat, l: nat)
    requires InOrder(q) && j < |q.retired| && i < |q.retired[j].members| && k < |q.retired|
    requires l < |q.retired[k].members|
    requires q.retired[j].members[i] == q.retired[k].members[l]
    ensures j == k && i == l
  {
    FlatAt(q.retired, j, i);
    FlatAt(q.retired, k, l);
    var a, b := |Flat(q.retired[..j])| + i, |Flat(q.retired[..k])| + l;
    assert q.order[a] == Flat(q.retired)[a] && q.order[b] == Flat(q.retired)[b];
    if j < k { FlatMonotone(q.retired, j, k); }
    if k < j { FlatMonotone(q.retired, k, j); }
  }

  lemma TotalStep(gs: seq<Group>, k: nat)
    requires k < |gs|
    ensures Total(gs[..k + 1]) == Total(gs[..k]) + |gs[k].record|
  {
    assert gs[..k + 1][..k] == gs[..k];
  }

  /** Groups follow the enqueue order, and the sequence numbers of their records follow each other
      without gap or overlap, up to the last sequence number. */
  lemma Contiguous(q: Queue, base: nat, last: nat, k: nat, j: nat)
    requires QueueOk(q, base, last) && k < |q.retired| && j < |q.retired[k].record|
    ensures q.retired[k].record[j].sequence == base + Total(q.retired[..k]) + 1 + j
    ensures base < q.retired[k].record[j].sequence <= last
    ensures k + 1 < |q.retired| ==> Total(q.retired[..k + 1]) == Total(q.retired[..k]) + |q.retired[k].record|
    ensures forall i :: 0 <= i < |q.retired[k].members| ==>
              |Flat(q.retired[..k])| + i < |q.order| && q.order[|Flat(q.retired[..k])| + i] == q.retired[k].members[i]
  {
    hide Distinct, Flat, Total, OneAlert, HasBatches, Ops, MembersOk;
    assert RecordOk(q.writers, q.retired[k], base + Total(q.retired[..k]) + 1);
    FlatMonotone(q.retired, k, |q.retired|);
    assert q.retired[..|q.retired|] == q.retired;
    if k + 1 < |q.retired| { TotalStep(q.retired, k); }
    forall i | 0 <= i < |q.retired[k].members|
      ensures |Flat(q.retired[..k])| + i < |q.order| && q.order[|Flat(q.retired[..k])| + i] == q.retired[k].members[i]
    {
      FlatAt(q.retired, k, i);
    }
  }
}
