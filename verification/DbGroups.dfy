/** What becomes of a group: from the moment its leader has formed it, over any further run, it stays as
    it is until it is retired, and every writer that has returned is in exactly one group. */
module DbGroups {
  import opened DbFormat
  import opened BuilderSpec
  import opened VersionReads
  import opened DbStore
  import opened DbQueue
  import opened DbMachine
  import opened DbInvariants
  import opened DbSteps
  import opened DbBackground
  import opened DbTheorems

  /** A leader in the window works on this group. */
  ghost predicate Leads(s: Db, members: seq<nat>, record: Record) {
    && s.leader.Some? && s.leader.value.record == record
    && s.leader.value.count == |members| <= |s.queue.queue| && s.queue.queue[..|members|] == members
  }

  /** The k-th retired group is this one, and an attempt was made to write it. */
  ghost predicate RetiredAs(q: Queue, k: nat, members: seq<nat>, record: Record) {
    k < |q.retired| && q.retired[k].members == members && q.retired[k].record == record && q.retired[k].attempted
  }

  ghost predicate Formed(s: Db, members: seq<nat>, record: Record) {
    Leads(s, members, record) || exists k :: RetiredAs(s.queue, k, members, record)
  }

  // ---------------------------------------------------------------- one step

  lemma WriterRetires(s: Db, a: Action)
    requires Enabled(s, a) && (a.AEnqueue? || a.ARun?)
    ensures s.queue.retired <= Step(s, a).queue.retired
  {
    hide MaybeSchedule, MakeRoom, Stamp, Ops, GroupSize;
  }

  /** No step changes or drops a retired group. */
  lemma RetiredStay(s: Db, a: Action)
    requires Enabled(s, a)
    ensures s.queue.retired <= Step(s, a).queue.retired
  {
    hide Enqueue, Run, MaybeSchedule, Next, ReadOne, NewNumber, Appended, WithEntry, Built, WithVersion;
    if a.AEnqueue? || a.ARun? { WriterRetires(s, a); }
  }

  /** In the window of a leader, until its end, the queue can only grow at its end. */
  lemma QueueStays(s: Db, a: Action)
    requires Enabled(s, a) && !a.AConclude? && s.queue.queue != [] && s.queue.queue[0] in s.queue.writers
    requires s.queue.writers[s.queue.queue[0]].pc.Leading? && s.leader.Some?
    ensures s.queue.queue <= Step(s, a).queue.queue && Step(s, a).leader.Some?
  {
    hide MaybeSchedule, Proceed, Next, ReadOne, NewNumber, Appended, WithEntry, Built, WithVersion, Retired;
  }

  lemma FormedStep(s: Db, a: Action, base: nat, origin: set<Entry>, members: seq<nat>, record: Record)
    requires Inv(s, base, origin) && Enabled(s, a) && Formed(s, members, record)
    ensures Formed(Step(s, a), members, record)
  {
    hide StoreOk, QueueOk, BgOk, ReadersOk, StallOk, AccountsOk, Step, Enabled, Ops, Stamp, HasBatches;
    RetiredStay(s, a);
    if k :| RetiredAs(s.queue, k, members, record) {
      assert RetiredAs(Step(s, a).queue, k, members, record);
    } else if a.AConclude? {
      ConcludeRetires(s, members, record);
    } else {
      QueueStays(s, a);
      LeaderUndisturbed(s, a, base, origin);
      assert Leads(Step(s, a), members, record);
    }
  }

  lemma ConcludeRetires(s: Db, members: seq<nat>, record: Record)
    requires Enabled(s, AConclude) && Leads(s, members, record)
    ensures RetiredAs(Step(s, AConclude).queue, |s.queue.retired|, members, record)
  {
    hide SignalAll;
    SignalSame(s.queue);
  }

  // ---------------------------------------------------------------- any run

  lemma {:induction false} RunFormed(s: Db, actions: seq<Action>, base: nat, origin: set<Entry>, members: seq<nat>,
                                     record: Record)
    requires Inv(s, base, origin) && Possible(s, actions) && Formed(s, members, record)
    ensures Inv(Execute(s, actions), base, origin) && Formed(Execute(s, actions), members, record)
    decreases |actions|
  {
    hide Inv, Step, Enabled, Formed;
    if actions != [] {
      StepKeeps(s, actions[0], base, origin);
      FormedStep(s, actions[0], base, origin, members, record);
      RunFormed(Step(s, actions[0]), actions[1..], base, origin, members, record);
    }
  }

  lemma {:induction false} RunRetired(s: Db, actions: seq<Action>)
    requires Possible(s, actions)
    ensures s.queue.retired <= Execute(s, actions).queue.retired
    decreases |actions|
  {
    hide Step, Enabled;
    if actions != [] {
      RetiredStay(s, actions[0]);
      RunRetired(Step(s, actions[0]), actions[1..]);
    }
  }

  /** This writer is a member of this group, and of no other, and only once. */
  ghost predicate OnlyIn(q: Queue, id: nat, k: nat, i: nat) {
    && k < |q.retired| && i < |q.retired[k].members| && q.retired[k].members[i] == id
    && forall j: nat, l: nat :: j < |q.retired| && l < |q.retired[j].members| && q.retired[j].members[l] == id ==>
         j == k && l == i
  }

  lemma InOneGroup(q: Queue, k: nat, i: nat)
    requires InOrder(q) && k < |q.retired| && i < |q.retired[k].members|
    ensures OnlyIn(q, q.retired[k].members[i], k, i)
  {
    hide InOrder;
    forall j: nat, l: nat | j < |q.retired| && l < |q.retired[j].members| &&
                            q.retired[j].members[l] == q.retired[k].members[i]
      ensures j == k && l == i
    {
      OneGroup(q, j, l, k, i);
    }
  }

  /** Exactly one attempted group: whoever leads after some run and is back after any further run has
      been retired at the head of an attempted group; its members and its record are those with which
      it was formed; and no member of it is in any other group. */
  lemma LedOnce(s: Db, first: seq<Action>, rest: seq<Action>, id: nat)
    requires Opened(s) && Possible(s, first) && Possible(Execute(s, first), rest)
    requires var ws := Execute(s, first).queue.writers; id in ws && ws[id].pc.Leading?
    requires var ws := Execute(Execute(s, first), rest).queue.writers; id in ws && ws[id].pc.Returned?
    ensures var s1, q := Execute(s, first), Execute(Execute(s, first), rest).queue;
            && s1.leader.Some? && 0 < s1.leader.value.count <= |s1.queue.queue| && s1.queue.queue[0] == id
            && var members := s1.queue.queue[..s1.leader.value.count];
               exists k :: RetiredAs(q, k, members, s1.leader.value.record) &&
                 forall i: nat :: i < |members| ==> OnlyIn(q, members[i], k, i)
  {
    hide Execute, Possible, Opened, Entries, Inv;
    var s1, base, origin := Execute(s, first), s.store.lastSequence, Entries(s.store.current, s.store.tables);
    InvAfter(s, first);
    var members, record := LeaderForms(s1, base, origin, id);
    RunFormed(s1, rest, base, origin, members, record);
    var k := BackIsRetired(Execute(s1, rest), base, origin, members, record);
  }

  lemma LeaderForms(s: Db, base: nat, origin: set<Entry>, id: nat) returns (members: seq<nat>, record: Record)
    requires Inv(s, base, origin) && id in s.queue.writers && s.queue.writers[id].pc.Leading?
    ensures s.leader.Some? && 0 < s.leader.value.count <= |s.queue.queue| && s.queue.queue[0] == id
    ensures members == s.queue.queue[..s.leader.value.count] && record == s.leader.value.record
    ensures members[0] == id && Formed(s, members, record)
  {
    LeaderUnique(s, base, origin, id);
    hide StoreOk, QueueOk, BgOk, StallOk, AccountsOk, ReadersOk;
    members, record := s.queue.queue[..s.leader.value.count], s.leader.value.record;
  }

  lemma BackIsRetired(s: Db, base: nat, origin: set<Entry>, members: seq<nat>, record: Record) returns (k: nat)
    requires Inv(s, base, origin) && Formed(s, members, record) && members != []
    requires members[0] in s.queue.writers && s.queue.writers[members[0]].pc.Returned?
    ensures RetiredAs(s.queue, k, members, record) && forall i: nat :: i < |members| ==>
              OnlyIn(s.queue, members[i], k, i)
  {
    hide StoreOk, BgOk, StallOk, AccountsOk, ReadersOk, GroupsOk, OneAlert, InOrder, OnlyIn;
    assert !Leads(s, members, record);
    k :| RetiredAs(s.queue, k, members, record);
    forall i: nat | i < |members| ensures OnlyIn(s.queue, members[i], k, i) {
      InOneGroup(s.queue, k, i);
    }
  }

  /** Every writer that is back, with whatever status, is in exactly one group; if it wrote a batch and
      was told OK, that group was attempted, logged and inserted as a whole. */
  lemma BackInOneGroup(s: Db, actions: seq<Action>, id: nat)
    requires Opened(s) && Possible(s, actions)
    requires var ws := Execute(s, actions).queue.writers; id in ws && ws[id].pc.Returned?
    ensures var q := Execute(s, actions).queue;
            exists k: nat, i: nat :: OnlyIn(q, id, k, i) && q.retired[k].status == q.writers[id].status &&
              (q.writers[id].status == OK && q.writers[id].batch.Some? ==> Complete(q.retired[k]))
  {
    hide Execute, Possible, Opened, Entries, Inv;
    InvAfter(s, actions);
    var s', base, origin := Execute(s, actions), s.store.lastSequence, Entries(s.store.current, s.store.tables);
    var k, i := GroupOfReturned(s', base, origin, id);
  }

  predicate Complete(g: Group) {
    g.attempted && g.logged && g.inserted == |g.record|
  }

  lemma GroupOfReturned(s: Db, base: nat, origin: set<Entry>, id: nat) returns (k: nat, i: nat)
    requires Inv(s, base, origin) && id in s.queue.writers && s.queue.writers[id].pc.Returned?
    ensures OnlyIn(s.queue, id, k, i) && s.queue.retired[k].status == s.queue.writers[id].status
    ensures s.queue.writers[id].status == OK && s.queue.writers[id].batch.Some? ==> Complete(s.queue.retired[k])
  {
    hide StoreOk, BgOk, StallOk, AccountsOk, ReadersOk, LeaderOk, OnlyIn, InOrder, OneAlert, GroupsOk, MembersOk,
      RecordOk, Complete;
    var q := s.queue;
    BackInFlat(q, id);
    FlatGroup(q.retired, id);
    k :| 0 <= k < |q.retired| && id in q.retired[k].members;
    i :| 0 <= i < |q.retired[k].members| && q.retired[k].members[i] == id;
    InOneGroup(q, k, i);
    MemberSays(q, base, k, i);
  }

  lemma MemberSays(q: Queue, base: nat, k: nat, i: nat)
    requires GroupsOk(q.writers, q.retired, base) && k < |q.retired| && i < |q.retired[k].members|
    ensures var id, g := q.retired[k].members[i], q.retired[k];
            && id in q.writers && q.writers[id].status == g.status
            && (g.status == OK && q.writers[id].batch.Some? ==> Complete(g))
  {
    hide Stamp, Ops, Total;
    var g := q.retired[k];
    assert MembersOk(q.writers, g) && RecordOk(q.writers, g, base + Total(q.retired[..k]) + 1);
    assert MemberOk(q.writers[g.members[i]], i == 0, g.status);
  }
}
