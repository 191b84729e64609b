/** One writer and a concurrent search on the same skip list (leveldb/db/skiplist.h:213-231, 286-306).

    Writers exclude each other; a search takes no lock.  The writer's shared stores are the one to
    max_height_ and, per level, the store into the new tower and the store that links it.  A search
    step is one load.  `Interleave` runs both under an arbitrary schedule. */
module SkipListConcurrency {
  import opened SkipLists

  /** The search stands on a tower that is linked on its level and lies before the target.
      Each of its `loads` took it one level down or at least one tower on. */
  ghost predicate Reaches<K>(cmp: (K, K) -> int, nodes: seq<Node<K>>, linked: seq<nat>,
                             x: Node<K>, level: nat, target: K, loads: nat)
    requires |nodes| == |linked|
  {
    exists p :: 0 <= p < |nodes| && StandsOn(cmp, nodes, linked, x, level, target, loads, p)
  }

  ghost predicate StandsOn<K>(cmp: (K, K) -> int, nodes: seq<Node<K>>, linked: seq<nat>,
                              x: Node<K>, level: nat, target: K, loads: nat, p: nat)
    requires |nodes| == |linked| && p < |nodes|
  {
    && nodes[p] == x && linked[p] > level
    && (p == 0 || cmp(nodes[p].key, target) < 0)
    && loads + level < MAX_HEIGHT + p
  }

  lemma ReachesAfterInsert<K>(cmp: (K, K) -> int, nodes: seq<Node<K>>, linked: seq<nat>,
                              x: Node<K>, level: nat, target: K, loads: nat, k: nat, tower: Node<K>)
    requires |nodes| == |linked| && 0 < k <= |nodes| && Reaches(cmp, nodes, linked, x, level, target, loads)
    ensures Reaches(cmp, Inserted(nodes, k, tower), Inserted<nat>(linked, k, 1), x, level, target, loads)
  {
    var p :| 0 <= p < |nodes| && StandsOn(cmp, nodes, linked, x, level, target, loads, p);
    var q := if p < k then p else p + 1;
    assert StandsOn(cmp, Inserted(nodes, k, tower), Inserted<nat>(linked, k, 1), x, level, target, loads, q);
  }

  lemma ReachesAfterRaise<K>(cmp: (K, K) -> int, nodes: seq<Node<K>>, linked: seq<nat>,
                             x: Node<K>, level: nat, target: K, loads: nat, k: nat)
    requires |nodes| == |linked| && k < |nodes| && Reaches(cmp, nodes, linked, x, level, target, loads)
    ensures Reaches(cmp, nodes, linked[k := linked[k] + 1], x, level, target, loads)
  {
    var p :| 0 <= p < |nodes| && StandsOn(cmp, nodes, linked, x, level, target, loads, p);
    assert StandsOn(cmp, nodes, linked[k := linked[k] + 1], x, level, target, loads, p);
  }

  /** What a finished search may report: an inserted node at or after the target that is not
      beyond any of the `known` keys at or after the target; null only if there is no such key. */
  ghost predicate RightAnswer<K>(cmp: (K, K) -> int, nodes: seq<Node<K>>, target: K, known: seq<K>, n: Node?<K>) {
    && (n != null ==> cmp(n.key, target) >= 0 && exists p :: 1 <= p < |nodes| && nodes[p] == n)
    && (forall key :: key in known && cmp(key, target) >= 0 ==> n != null && cmp(n.key, key) <= 0)
  }

  ghost predicate Subset<K>(keys: seq<K>, others: seq<K>) {
    forall k :: k in keys ==> k in others
  }

  lemma GrowsByInsert<K>(known: seq<K>, nodes: seq<Node<K>>, k: nat, tower: Node<K>)
    requires 0 < k <= |nodes| && Subset(known, KeysOf(nodes))
    ensures Subset(known, KeysOf(Inserted(nodes, k, tower)))
  {
    var keys := KeysOf(Inserted(nodes, k, tower));
    forall key | key in known ensures key in keys {
      var j :| 0 <= j < |KeysOf(nodes)| && KeysOf(nodes)[j] == key;
      assert keys[if j + 1 < k then j else j + 1] == key;
    }
  }

  lemma AnswerAfterInsert<K>(cmp: (K, K) -> int, nodes: seq<Node<K>>, target: K, known: seq<K>, n: Node?<K>, k: nat,
                             tower: Node<K>)
    requires 0 < k <= |nodes| && RightAnswer(cmp, nodes, target, known, n)
    ensures RightAnswer(cmp, Inserted(nodes, k, tower), target, known, n)
  {
    if n != null {
      var p :| 1 <= p < |nodes| && nodes[p] == n;
      var q := if p < k then p else p + 1;
      assert Inserted(nodes, k, tower)[q] == n;
    }
  }

  /** Where a search stands: still descending, or finished with a result. */
  datatype Progress<K> = Descending(target: K, x: Node<K>, level: nat, loads: nat) | Finished(target: K,
                                    result: Node?<K>)

  ghost predicate SoundOn<K>(cmp: (K, K) -> int, nodes: seq<Node<K>>, linked: seq<nat>, w: Progress<K>, known: seq<K>) {
    && |nodes| == |linked| > 0
    && Subset(known, KeysOf(nodes))
    && (match w
        case Descending(target, x, level, loads) => Reaches(cmp, nodes, linked, x, level, target, loads)
        case Finished(target, result) => RightAnswer(cmp, nodes, target, known, result))
  }

  /** Making a new tower reachable on level 0 does not disturb a search. */
  lemma SoundAfterInsert<K>(cmp: (K, K) -> int, nodes: seq<Node<K>>, linked: seq<nat>, w: Progress<K>, known: seq<K>,
                            k: nat, tower: Node<K>)
    requires 0 < k <= |nodes| && SoundOn(cmp, nodes, linked, w, known)
    ensures SoundOn(cmp, Inserted(nodes, k, tower), Inserted<nat>(linked, k, 1), w, known)
  {
    GrowsByInsert(known, nodes, k, tower);
    match w
    case Descending(target, x, level, loads) =>
      ReachesAfterInsert(cmp, nodes, linked, x, level, target, loads, k, tower);
    case Finished(target, result) => AnswerAfterInsert(cmp, nodes, target, known, result, k, tower);
  }

  /** Nor does linking a tower on a further level. */
  lemma SoundAfterRaise<K>(cmp: (K, K) -> int, nodes: seq<Node<K>>, linked: seq<nat>, w: Progress<K>, known: seq<K>,
                           k: nat)
    requires k < |nodes| && SoundOn(cmp, nodes, linked, w, known)
    ensures SoundOn(cmp, nodes, linked[k := linked[k] + 1], w, known)
  {
    if w.Descending? {
      ReachesAfterRaise(cmp, nodes, linked, w.x, w.level, w.target, w.loads, k);
    }
  }

  /** FindGreaterOrEqual(target, nullptr), one load of a link per step. */
  class Search<K(!new)> {
    const list: SkipList<K>
    const target: K
    var x: Node<K>
    var level: nat
    var done: bool
    var result: Node?<K>
    ghost var loads: nat  // how many steps it has taken

    ghost function Where(): Progress<K>
      reads this
    {
      if done then Finished(target, result) else Descending(target, x, level, loads)
    }

    ghost predicate Sound(known: seq<K>)
      reads this, list, list.nodes
    {
      && list.Valid()
      && SoundOn(list.compare, list.nodes, list.linked, Where(), known)
    }

    /** Reads max_height_. */
    constructor (list: SkipList<K>, target: K)
      requires list.Valid()
      ensures this.list == list && this.target == target && Sound(list.Keys())
      ensures !done && loads == 0
    {
      this.list, this.target := list, target;
      x, level := list.head, list.maxHeight - 1;
      done, result, loads := false, null, 0;
      new;
      assert StandsOn(list.compare, list.nodes, list.linked, x, level, target, loads, 0);
    }

    /** What the load of x->Next(level) tells the search. */
    lemma Lookahead(known: seq<K>)
      requires Sound(known) && !done
      ensures level < |x.next|
      ensures var next := x.next[level];
              if list.KeyIsAfterNode(target, next) then
                Reaches(list.compare, list.nodes, list.linked, next, level, target, loads + 1)
              else if level > 0 then
                Reaches(list.compare, list.nodes, list.linked, x, level - 1, target, loads + 1)
              else
                && next == NodeAt(list.nodes, Rank(list.compare, list.Keys(), target) + 1)
                && RightAnswer(list.compare, list.nodes, target, known, next)
    {
      hide RightAnswer;
      list.AfterMeansBelowRank(target);
      FirstIsAnswer(list, target, known);
      var p :| 0 <= p < |list.nodes| && StandsOn(list.compare, list.nodes, list.linked, x, level, target, loads, p);
      var q := First(list.linked, p + 1, level);
      assert x.next[level] == NodeAt(list.nodes, q);
      if list.KeyIsAfterNode(target, x.next[level]) {
        assert StandsOn(list.compare, list.nodes, list.linked, x.next[level], level, target, loads + 1, q);
      } else if level > 0 {
        assert StandsOn(list.compare, list.nodes, list.linked, x, level - 1, target, loads + 1, p);
      } else {
        NextOnBottom(list.linked, p);
      }
    }

    /** One iteration of the loop of lines 216-230. */
    method Step(ghost known: seq<K>)
      requires Sound(known) && !done
      modifies this
      ensures Sound(known) && loads == old(loads) + 1
      ensures done ==> result == NodeAt(list.nodes, Rank(list.compare, list.Keys(), target) + 1)
    {
      Lookahead(known);
      hide list.Shape, Reaches, RightAnswer;
      var next := x.next[level];
      loads := loads + 1;
      if list.KeyIsAfterNode(target, next) {
        x := next;
      } else if level > 0 {
        level := level - 1;
      } else {
        done, result := true, next;
      }
    }

    /** An unfinished search has not used up its loads: 12 levels plus the keys of the list. */
    lemma LoadsBounded(known: seq<K>)
      requires Sound(known) && !done
      ensures loads < MAX_HEIGHT + |list.Keys()|
    {
      var p :| 0 <= p < |list.nodes| && StandsOn(list.compare, list.nodes, list.linked, x, level, target, loads, p);
    }
  }

  /** The first node at or after the target is a correct answer for every known key. */
  lemma FirstIsAnswer<K(!new)>(list: SkipList<K>, target: K, known: seq<K>)
    requires list.Valid() && Subset(known, list.Keys())
    ensures RightAnswer(list.compare, list.nodes, target, known,
                    NodeAt(list.nodes, Rank(list.compare, list.Keys(), target) + 1))
  {
    var keys, r := list.Keys(), Rank(list.compare, list.Keys(), target);
    RankSplits(list.compare, keys, target);
    forall key | key in known && list.compare(key, target) >= 0
      ensures r < |keys| && list.compare(keys[r], key) <= 0
    {
      var j :| 0 <= j < |keys| && keys[j] == key;
      Flip(list.compare, keys[r], keys[r]);
    }
    if r < |keys| { assert list.nodes[r + 1].key == keys[r]; }
  }

  datatype Phase = Idle | Located | OwnLink | PredLink

  /** SkipList::Insert, cut at its shared stores. */
  class Inserter<K(!new)> {
    const list: SkipList<K>
    const prev: array<Node?<K>>
    var key: K
    var height: nat
    var tower: Node?<K>
    var level: nat
    var phase: Phase
    ghost var k: nat                // the position at which the key belongs
    ghost var preds: seq<Node<K>>   // the contents of prev

    ghost predicate Consistent()
      reads this, list, list.nodes, prev, tower
    {
      && list.Valid()
      && prev.Length == MAX_HEIGHT
      && (phase != Idle ==>
            && 0 < k <= |list.nodes| && 1 <= height <= MAX_HEIGHT
            && preds == Predecessors(list.nodes, list.linked, k, if phase == Located then list.maxHeight else height)
            && (forall l :: 0 <= l < |preds| ==> prev[l] == preds[l])
            && (phase == Located ==> FitsAt(list.compare, list.nodes, k, key))
            && (phase != Located ==>
                  && tower != null && tower.key == key && |tower.next| == height
                  && level < height <= list.maxHeight
                  && (if level == 0 then tower !in list.nodes && FitsAt(list.compare, list.nodes, k, key)
                      else k < |list.nodes| && list.nodes[k] == tower && list.linked[k] == level)
                  && (phase == PredLink ==>
                        level < |preds[level].next| && tower.next[level] == preds[level].next[level])))
    }

    /** The nodes and their linked heights once the pending linking store is done. */
    ghost function NodesAfter(): seq<Node<K>>
      reads this, list
      requires 0 < k <= |list.nodes| && tower != null
    {
      if level == 0 then Inserted<Node<K>>(list.nodes, k, tower) else list.nodes
    }

    ghost function HeightsAfter(): seq<nat>
      reads this, list
      requires 0 < k <= |list.linked| && (level > 0 ==> k < |list.linked|)
    {
      if level == 0 then Inserted<nat>(list.linked, k, 1) else list.linked[k := list.linked[k] + 1]
    }

    constructor (list: SkipList<K>, anyKey: K)
      requires list.Valid()
      ensures this.list == list && Consistent() && phase == Idle && fresh(prev) && tower == null
    {
      this.list := list;
      prev := new Node?<K>[MAX_HEIGHT](_ => null);
      key, height, tower, level, phase := anyKey, 1, null, 0, Idle;
    }

    /** Line 288: only loads, so no other thread can tell when it happens. */
    method Begin(key: K, height: nat)
      requires Consistent() && phase == Idle
      requires !HasKey(list.compare, list.Keys(), key) && 1 <= height <= MAX_HEIGHT
      modifies this, prev
      ensures Consistent() && phase == Located && this.key == key && this.height == height && tower == old(tower)
    {
      list.Neighbours(key);
      var x := list.FindGreaterOrEqual(key, prev);
      Locate(key, height, Rank(list.compare, list.Keys(), key) + 1);
    }

    method Locate(key: K, height: nat, ghost k: nat)
      requires list.Valid() && prev.Length == MAX_HEIGHT && 1 <= height <= MAX_HEIGHT
      requires 0 < k <= |list.nodes| && FitsAt(list.compare, list.nodes, k, key)
      requires forall l :: 0 <= l < list.maxHeight ==> prev[l] == list.nodes[Last(list.linked, k, l)]
      modifies this`key, this`height, this`phase, this`k, this`preds
      ensures Consistent() && phase == Located && this.key == key && this.height == height
    {
      assert list.linked[0] >= list.maxHeight && |list.nodes| == |list.linked|;
      hide list.Valid;
      this.k, preds := k, Predecessors(list.nodes, list.linked, k, list.maxHeight);
      this.key, this.height, phase := key, height, Located;
    }

    /** Lines 294-301: the store to max_height_, when there is one. */
    method StoreHeight()
      requires Consistent() && phase == Located
      modifies this, prev, list`maxHeight
      ensures Consistent() && phase == OwnLink && level == 0 && key == old(key) && height == old(height)
      ensures fresh(tower)
    {
      list.RaiseTo(height, prev, k);
      preds := Predecessors(list.nodes, list.linked, k, height);
      hide list.Valid;
      tower := new Node<K>(key, height);
      level, phase := 0, OwnLink;
    }

    /** Line 303. */
    method StoreOwn()
      requires Consistent() && phase == OwnLink
      modifies this`phase, tower
      ensures Consistent() && phase == PredLink
    {
      var pred: Node<K> := prev[level];
      list.StoreOwnLink(tower, level, pred.next[level], k);
      phase := PredLink;
    }

    /** Line 304: from the first of these stores on, the key is in the list. */
    method LinkPred()
      requires Consistent() && phase == PredLink
      modifies this, list`nodes, list`linked, list.nodes
      ensures Consistent() && key == old(key) && tower == old(tower)
      ensures level == old(level) + 1 && height == old(height) && phase == if level == height then Idle else OwnLink
      ensures list.nodes == old(NodesAfter()) && list.linked == old(HeightsAfter())
    {
      hide list.Valid, Predecessors;
      Link();
      NextLevel();
    }

    method Link()
      requires Consistent() && phase == PredLink
      modifies list`nodes, list`linked, list.nodes
      ensures list.Valid() && prev.Length == MAX_HEIGHT && 1 <= height <= MAX_HEIGHT && height <= list.maxHeight
      ensures tower != null && tower.key == key && |tower.next| == height && level < height
      ensures list.nodes == old(NodesAfter()) && list.linked == old(HeightsAfter())
      ensures 0 < k < |list.nodes| && list.nodes[k] == tower && k < |list.linked| && list.linked[k] == level + 1
      ensures preds == Predecessors(list.nodes, list.linked, k, height)
      ensures forall l :: 0 <= l < |preds| ==> prev[l] == preds[l]
    {
      assert prev[level] == preds[level];
      list.Publish(prev[level], level, tower, k);
      PredecessorsStay(old(list.nodes), old(list.linked), list.nodes, list.linked, k, height);
    }

    /** The end of one iteration of the linking loop. */
    method NextLevel()
      requires list.Valid() && prev.Length == MAX_HEIGHT && 1 <= height <= MAX_HEIGHT
      requires tower != null && tower.key == key && |tower.next| == height && level < height <= list.maxHeight
      requires 0 < k < |list.nodes| && list.nodes[k] == tower && list.linked[k] == level + 1
      requires preds == Predecessors(list.nodes, list.linked, k, height)
      requires forall l :: 0 <= l < |preds| ==> prev[l] == preds[l]
      modifies this`level, this`phase
      ensures Consistent() && level == old(level) + 1 && phase == if level == height then Idle else OwnLink
    {
      hide list.Valid;
      level := level + 1;
      phase := if level == height then Idle else OwnLink;
    }
  }

  ghost predicate FitsAt<K>(cmp: (K, K) -> int, nodes: seq<Node<K>>, k: nat, key: K) {
    && (forall q :: 1 <= q < k && q < |nodes| ==> cmp(nodes[q].key, key) < 0)
    && (forall q :: k <= q < |nodes| ==> cmp(key, nodes[q].key) < 0)
  }

  /** Linking at or after position k leaves the predecessors of k alone. */
  lemma PredecessorsStay<K>(ns: seq<Node<K>>, heights: seq<nat>, nodes: seq<Node<K>>, linked: seq<nat>, k: nat, n: nat)
    requires 0 < k <= |ns| == |heights| && k <= |nodes| == |linked| && heights[0] >= n
    requires forall i :: 0 <= i < k ==> heights[i] == linked[i] && ns[i] == nodes[i]
    ensures linked[0] >= n && Predecessors(ns, heights, k, n) == Predecessors(nodes, linked, k, n)
  {
    forall l | 0 <= l < n ensures ns[Last(heights, k, l)] == nodes[Last(linked, k, l)] {
      LastOfPrefix(heights, linked, k, l);
    }
  }

  // ---------------------------------------------------------------- any schedule

  /** The keys still to be inserted differ from each other and from all keys of the list. */
  ghost predicate Insertable<K>(cmp: (K, K) -> int, keys: seq<K>, jobs: seq<(K, nat)>) {
    && (forall i :: 0 <= i < |jobs| ==> 1 <= jobs[i].1 <= MAX_HEIGHT && !HasKey(cmp, keys, jobs[i].0))
    && (forall i, j :: 0 <= i < j < |jobs| ==> cmp(jobs[i].0, jobs[j].0) != 0)
  }

  lemma InsertableAfterInsert<K>(cmp: (K, K) -> int, keys: seq<K>, jobs: seq<(K, nat)>, r: nat)
    requires jobs != [] && r <= |keys| && Insertable(cmp, keys, jobs)
    ensures Insertable(cmp, Inserted(keys, r, jobs[0].0), jobs[1..])
  {
    var keys' := Inserted(keys, r, jobs[0].0);
    forall i | 1 <= i < |jobs| ensures !HasKey(cmp, keys', jobs[i].0) {
      forall j | 0 <= j < |keys'| ensures cmp(keys'[j], jobs[i].0) != 0 {
        assert j < r ==> keys'[j] == keys[j];
        assert j > r ==> keys'[j] == keys[j - 1];
      }
    }
  }

  /** The jobs whose key is not in the list yet: the one in progress, then those not begun. */
  function Unlinked<K(!new)>(writer: Inserter<K>, jobs: seq<(K, nat)>): seq<(K, nat)>
    reads writer
  {
    if writer.phase == Located || (writer.phase != Idle && writer.level == 0)
    then [(writer.key, writer.height)] + jobs else jobs
  }

  /** The keys that were there at the start, and those of the first `c` jobs. */
  function KeysBy<K>(known: seq<K>, all: seq<(K, nat)>, c: nat): seq<K>
    requires c <= |all|
  {
    known + seq(c, i requires 0 <= i < c => all[i].0)
  }

  ghost predicate SameKeys<K>(keys: seq<K>, others: seq<K>) {
    Subset(keys, others) && Subset(others, keys)
  }

  lemma KeysAfterInsert<K>(keys: seq<K>, known: seq<K>, all: seq<(K, nat)>, c: nat, r: nat)
    requires c < |all| && r <= |keys| && SameKeys(keys, KeysBy(known, all, c))
    ensures SameKeys(Inserted(keys, r, all[c].0), KeysBy(known, all, c + 1))
  {
    var keys' := Inserted(keys, r, all[c].0);
    assert KeysBy(known, all, c + 1) == KeysBy(known, all, c) + [all[c].0];
    assert keys' == keys[..r] + [all[c].0] + keys[r..] && keys == keys[..r] + keys[r..];
  }

  // ---------------------------------------------------------------- the writer's clock

  /** How far the writer is: the jobs that are not finished, and its turns within the first of these.  A
      job takes one turn to locate its place, one for max_height_ and two for each level of its tower. */
  function Tick<K>(stage: (seq<(K, nat)>, nat)): (seq<(K, nat)>, nat) {
    var (jobs, p) := stage;
    if jobs == [] then stage
    else if p + 1 == 2 + 2 * jobs[0].1 then (jobs[1..], 0)
    else (jobs, p + 1)
  }

  function StageAfter<K>(all: seq<(K, nat)>, turns: nat): (stage: (seq<(K, nat)>, nat))
    ensures |stage.0| <= |all| && stage.0 == all[|all| - |stage.0|..] && (stage.1 > 0 ==> stage.0 != [])
  {
    if turns == 0 then (all, 0) else Tick(StageAfter(all, turns - 1))
  }

  /** How many jobs have their key in the list after so many turns: the fourth turn links a tower on level 0. */
  function LinkedAfter<K>(all: seq<(K, nat)>, turns: nat): (c: nat)
    ensures c <= |all|
  {
    var (jobs, p) := StageAfter(all, turns);
    |all| - |jobs| + if p >= 4 then 1 else 0
  }

  function StageOf<K(!new)>(writer: Inserter<K>, jobs: seq<(K, nat)>): (seq<(K, nat)>, nat)
    reads writer
  {
    var current := [(writer.key, writer.height)] + jobs;
    match writer.phase
    case Idle => (jobs, 0)
    case Located => (current, 1)
    case OwnLink => (current, 2 + 2 * writer.level)
    case PredLink => (current, 3 + 2 * writer.level)
  }

  lemma LinkedIs<K(!new)>(writer: Inserter<K>, jobs: seq<(K, nat)>, all: seq<(K, nat)>, c: nat, turns: nat)
    requires c <= |all| && Unlinked(writer, jobs) == all[c..] && StageOf(writer, jobs) == StageAfter(all, turns)
    ensures c == LinkedAfter(all, turns)
  {
    assert |Unlinked(writer, jobs)| == |all| - c;
  }

  /** The linking store of the writer does not disturb a search in the middle of its descent. */
  lemma SoundAfterLink<K(!new)>(writer: Inserter<K>, search: Search<K>, known: seq<K>)
    requires writer.Consistent() && writer.phase == PredLink && search.list == writer.list && search.Sound(known)
    ensures SoundOn(search.list.compare, writer.NodesAfter(), writer.HeightsAfter(), search.Where(), known)
  {
    var list, w, tower: Node<K> := search.list, search.Where(), writer.tower;
    if writer.level == 0 {
      SoundAfterInsert(list.compare, list.nodes, list.linked, w, known, writer.k, tower);
    } else {
      SoundAfterRaise(list.compare, list.nodes, list.linked, w, known, writer.k);
    }
  }

  ghost predicate NewOnly<K>(before: seq<Node<K>>, nodes: seq<Node<K>>, tower: Node?<K>) {
    forall i :: 0 <= i < |nodes| ==> nodes[i] in before || nodes[i] == tower
  }

  /** A search that has begun is sound for the keys that the list had then. */
  ghost predicate Follows<K(!new)>(search: Search?<K>, list: SkipList<K>, seen: seq<K>)
    reads search, list, list.nodes
  {
    search != null ==> search.list == list && search.Sound(seen)
  }

  /** What holds between any two shared accesses; `known` are the keys at the start, `seen` those at the
      turn in which the search began. */
  ghost predicate Interleaving<K(!new)>(writer: Inserter<K>, search: Search?<K>, jobs: seq<(K, nat)>,
                                        all: seq<(K, nat)>, known: seq<K>, seen: seq<K>, c: nat)
    reads writer, writer.list, writer.list.nodes, writer.prev, writer.tower, search
  {
    && writer.Consistent() && Follows(search, writer.list, seen)
    && c <= |all| && Unlinked(writer, jobs) == all[c..]
    && Insertable(writer.list.compare, writer.list.Keys(), all[c..])
    && SameKeys(writer.list.Keys(), KeysBy(known, all, c))
  }

  /** The next shared store of the writer, whatever it is. */
  method WriterTurn<K(!new)>(writer: Inserter<K>, search: Search?<K>, jobs: seq<(K, nat)>,
                             ghost all: seq<(K, nat)>, ghost known: seq<K>, ghost seen: seq<K>, ghost c: nat)
    returns (rest: seq<(K, nat)>, ghost d: nat)
    requires Interleaving(writer, search, jobs, all, known, seen, c)
    modifies writer, writer.prev, writer.tower
    modifies writer.list`maxHeight, writer.list`nodes, writer.list`linked, writer.list.nodes
    ensures Interleaving(writer, search, rest, all, known, seen, d)
    ensures StageOf(writer, rest) == Tick(old(StageOf(writer, jobs)))
    ensures writer.tower == old(writer.tower) || fresh(writer.tower)
    ensures NewOnly(old(writer.list.nodes), writer.list.nodes, writer.tower)
  {
    hide *;
    if writer.phase == PredLink {
      rest, d := LinkTurn(writer, search, jobs, all, known, seen, c);
    } else {
      rest := PrivateTurn(writer, search, jobs, all, known, seen, c);
      d := c;
    }
  }

  /** A turn that changes no link of a tower that is linked. */
  method PrivateTurn<K(!new)>(writer: Inserter<K>, search: Search?<K>, jobs: seq<(K, nat)>,
                              ghost all: seq<(K, nat)>, ghost known: seq<K>, ghost seen: seq<K>, ghost c: nat)
    returns (rest: seq<(K, nat)>)
    requires Interleaving(writer, search, jobs, all, known, seen, c) && writer.phase != PredLink
    modifies writer, writer.prev, writer.tower, writer.list`maxHeight
    ensures Interleaving(writer, search, rest, all, known, seen, c)
    ensures StageOf(writer, rest) == Tick(old(StageOf(writer, jobs)))
    ensures writer.tower == old(writer.tower) || fresh(writer.tower)
    ensures NewOnly(old(writer.list.nodes), writer.list.nodes, writer.tower)
  {
    hide SkipList.Valid, SoundOn, SameKeys, KeysBy, Predecessors, FitsAt;
    rest := jobs;
    if writer.phase == Idle {
      if jobs != [] {
        rest := jobs[1..];
        assert [jobs[0]] + rest == jobs;
        assert jobs[0] == all[c..][0];
        writer.Begin(jobs[0].0, jobs[0].1);
      }
    } else if writer.phase == Located {
      writer.StoreHeight();
    } else {
      writer.StoreOwn();
    }
  }

  method LinkTurn<K(!new)>(writer: Inserter<K>, search: Search?<K>, jobs: seq<(K, nat)>,
                           ghost all: seq<(K, nat)>, ghost known: seq<K>, ghost seen: seq<K>, ghost c: nat)
    returns (rest: seq<(K, nat)>, ghost d: nat)
    requires Interleaving(writer, search, jobs, all, known, seen, c) && writer.phase == PredLink
    modifies writer, writer.list`nodes, writer.list`linked, writer.list.nodes
    ensures Interleaving(writer, search, rest, all, known, seen, d)
    ensures StageOf(writer, rest) == Tick(old(StageOf(writer, jobs)))
    ensures writer.tower == old(writer.tower)
    ensures NewOnly(old(writer.list.nodes), writer.list.nodes, writer.tower)
  {
    hide Interleaving, Inserter.Consistent, SoundOn, Inserter.NodesAfter, Inserter.HeightsAfter, Insertable, SameKeys,
      KeysBy, NewOnly, KeysOf;
    rest := jobs;
    d := if writer.level == 0 then c + 1 else c;
    JobsAfterLink(writer, search, jobs, all, known, seen, c, d);
    assert ([(writer.key, writer.height)] + jobs)[1..] == jobs;
    LinkAndAssemble(writer, search, rest, all, known, seen, d);
  }

  method LinkAndAssemble<K(!new)>(writer: Inserter<K>, search: Search?<K>, jobs: seq<(K, nat)>,
                                  ghost all: seq<(K, nat)>, ghost known: seq<K>, ghost seen: seq<K>, ghost d: nat)
    requires writer.Consistent() && writer.phase == PredLink && d <= |all| && jobs == all[d..]
    requires |writer.NodesAfter()| > 0 && Insertable(writer.list.compare, KeysOf(writer.NodesAfter()), all[d..])
    requires SameKeys(KeysOf(writer.NodesAfter()), KeysBy(known, all, d))
    requires NewOnly(writer.list.nodes, writer.NodesAfter(), writer.tower)
    requires search != null ==> (
               && search.list == writer.list
               && SoundOn(search.list.compare, writer.NodesAfter(), writer.HeightsAfter(), search.Where(), seen))
    modifies writer, writer.list`nodes, writer.list`linked, writer.list.nodes
    ensures Interleaving(writer, search, jobs, all, known, seen, d)
    ensures writer.key == old(writer.key) && writer.height == old(writer.height)
    ensures writer.level == old(writer.level) + 1
    ensures writer.phase == if writer.level == writer.height then Idle else OwnLink
    ensures writer.tower == old(writer.tower)
    ensures NewOnly(old(writer.list.nodes), writer.list.nodes, writer.tower)
  {
    hide *;
    writer.LinkPred();
    Assemble(writer, search, jobs, all, known, seen, d);
  }

  lemma JobsAfterLink<K(!new)>(writer: Inserter<K>, search: Search?<K>, jobs: seq<(K, nat)>,
                               all: seq<(K, nat)>, known: seq<K>, seen: seq<K>, c: nat, d: nat)
    requires Interleaving(writer, search, jobs, all, known, seen, c) && writer.phase == PredLink
    requires d == if writer.level == 0 then c + 1 else c
    ensures writer.Consistent() && d <= |all| && jobs == all[d..] && |writer.NodesAfter()| > 0
    ensures Insertable(writer.list.compare, KeysOf(writer.NodesAfter()), all[d..])
    ensures SameKeys(KeysOf(writer.NodesAfter()), KeysBy(known, all, d))
    ensures NewOnly(writer.list.nodes, writer.NodesAfter(), writer.tower)
    ensures search != null ==> (
              && search.list == writer.list
              && SoundOn(search.list.compare, writer.NodesAfter(), writer.HeightsAfter(), search.Where(), seen))
  {
    var list := writer.list;
    if search != null { SoundAfterLink(writer, search, seen); }
    if writer.level == 0 {
      assert all[c..][0] == (writer.key, writer.height) && all[c..][1..] == all[c + 1..] == jobs;
      SortedAfterInsert(list.compare, list.nodes, writer.k, writer.tower);
      InsertableAfterInsert(list.compare, list.Keys(), all[c..], writer.k - 1);
      KeysAfterInsert(list.Keys(), known, all, c, writer.k - 1);
    }
  }

  lemma Assemble<K(!new)>(writer: Inserter<K>, search: Search?<K>, jobs: seq<(K, nat)>,
                          all: seq<(K, nat)>, known: seq<K>, seen: seq<K>, c: nat)
    requires writer.Consistent() && |writer.list.nodes| > 0
    requires search != null ==> (
               && search.list == writer.list
               && SoundOn(search.list.compare, search.list.nodes, search.list.linked, search.Where(), seen))
    requires writer.phase == Idle || (writer.phase == OwnLink && writer.level > 0)
    requires c <= |all| && jobs == all[c..]
    requires Insertable(writer.list.compare, KeysOf(writer.list.nodes), all[c..])
    requires SameKeys(KeysOf(writer.list.nodes), KeysBy(known, all, c))
    ensures Interleaving(writer, search, jobs, all, known, seen, c)
  {
  }

  /** The search begins: it reads max_height_, whatever the writer is doing. */
  method FirstLoad<K(!new)>(writer: Inserter<K>, target: K, ghost jobs: seq<(K, nat)>,
                           ghost all: seq<(K, nat)>, ghost known: seq<K>, ghost c: nat)
    returns (search: Search<K>)
    requires Interleaving(writer, null, jobs, all, known, [], c)
    ensures fresh(search) && search.target == target && search.loads == 0 && !search.done
    ensures Interleaving(writer, search, jobs, all, known, KeysBy(known, all, c), c)
  {
    search := new Search<K>(writer.list, target);
    SoundForFewer(search, writer.list.Keys(), KeysBy(known, all, c));
  }

  lemma SoundForFewer<K(!new)>(search: Search<K>, keys: seq<K>, fewer: seq<K>)
    requires search.Sound(keys) && !search.done && Subset(fewer, keys)
    ensures search.Sound(fewer)
  {
  }

  method NextLoad<K(!new)>(writer: Inserter<K>, search: Search<K>, ghost jobs: seq<(K, nat)>,
                           ghost all: seq<(K, nat)>, ghost known: seq<K>, ghost seen: seq<K>, ghost c: nat)
    requires Interleaving(writer, search, jobs, all, known, seen, c) && !search.done
    modifies search
    ensures Interleaving(writer, search, jobs, all, known, seen, c)
    ensures search.loads == old(search.loads) + 1
  {
    hide writer.list.Valid, SoundOn, Insertable, SameKeys;
    search.Step(seen);
  }

  // ---------------------------------------------------------------- schedules

  function Turns(schedule: seq<bool>): (n: nat)
    ensures n <= |schedule|
  {
    if schedule == [] then 0
    else Turns(schedule[..|schedule| - 1]) + if schedule[|schedule| - 1] then 1 else 0
  }

  /** The turns that the writer has before the search begins. */
  function LeadTurns(schedule: seq<bool>): (n: nat)
    ensures n <= |schedule| && (forall i :: 0 <= i < n ==> !schedule[i]) && (n < |schedule| ==> schedule[n])
  {
    if schedule == [] || schedule[0] then 0 else 1 + LeadTurns(schedule[1..])
  }

  /** Runs the insertions of `jobs` and one search for `target` in the order that `schedule` chooses:
      `true` lets the search make its next load, the first time that of max_height_, and `false` the
      writer its next store.  The list has got exactly the keys linked by then, and the search, whenever
      it began, answers for all keys that were linked when it did. */
  method Interleave<K(!new)>(list: SkipList<K>, target: K, jobs: seq<(K, nat)>, schedule: seq<bool>)
    returns (done: bool, n: Node?<K>)
    requires list.Valid() && Insertable(list.compare, list.Keys(), jobs)
    modifies list`maxHeight, list`nodes, list`linked, list.nodes
    ensures list.Valid()
    ensures SameKeys(list.Keys(), KeysBy(old(list.Keys()), jobs, LinkedAfter(jobs, |schedule| - Turns(schedule))))
    ensures done ==> RightAnswer(list.compare, list.nodes, target,
                                 KeysBy(old(list.Keys()), jobs, LinkedAfter(jobs, LeadTurns(schedule))), n)
    ensures Turns(schedule) > MAX_HEIGHT + |list.Keys()| ==> done
  {
    hide Interleaving, SkipList.Valid, Insertable, KeysBy, StageAfter, LinkedAfter, Inserter.Consistent;
    ghost var known := list.Keys();
    var writer := new Inserter<K>(list, target);
    Begins(writer, jobs);
    ghost var rest, c;
    var search;
    search, rest, c := FollowSchedule(writer, target, jobs, schedule, known);
    Concluded(writer, search, rest, jobs, known,
              if search == null then [] else KeysBy(known, jobs, LinkedAfter(jobs, LeadTurns(schedule))),
              c, |schedule| - Turns(schedule));
    if search == null {
      done, n := false, null;
    } else {
      done, n := search.done, search.result;
    }
  }

  lemma Begins<K(!new)>(writer: Inserter<K>, jobs: seq<(K, nat)>)
    requires writer.Consistent() && writer.phase == Idle && Insertable(writer.list.compare, writer.list.Keys(), jobs)
    ensures Interleaving(writer, null, jobs, jobs, writer.list.Keys(), [], 0)
  {
    assert KeysBy(writer.list.Keys(), jobs, 0) == writer.list.Keys() && jobs[0..] == jobs;
  }

  /** What the last state of an interleaving says. */
  lemma Concluded<K(!new)>(writer: Inserter<K>, search: Search?<K>, jobs: seq<(K, nat)>,
                         all: seq<(K, nat)>, known: seq<K>, seen: seq<K>, c: nat, turns: nat)
    requires Interleaving(writer, search, jobs, all, known, seen, c) && StageOf(writer, jobs) == StageAfter(all, turns)
    ensures writer.list.Valid() && c <= |all|
    ensures SameKeys(writer.list.Keys(), KeysBy(known, all, LinkedAfter(all, turns)))
    ensures search != null ==>
              if search.done then RightAnswer(writer.list.compare, writer.list.nodes, search.target, seen,
                                              search.result)
              else search.loads < MAX_HEIGHT + |writer.list.Keys()|
  {
    LinkedIs(writer, jobs, all, c, turns);
    if search != null && !search.done { search.LoadsBounded(seen); }
  }

  method FollowSchedule<K(!new)>(writer: Inserter<K>, target: K, jobs: seq<(K, nat)>, schedule: seq<bool>,
                                 ghost known: seq<K>)
    returns (search: Search?<K>, ghost rest: seq<(K, nat)>, ghost c: nat)
    requires Interleaving(writer, null, jobs, jobs, known, [], 0)
    requires writer.tower == null && writer.phase == Idle
    modifies writer, writer.prev
    modifies writer.list`maxHeight, writer.list`nodes, writer.list`linked, writer.list.nodes
    ensures search == null || (fresh(search) && search.target == target)
    ensures Interleaving(writer, search, rest, jobs, known,
                         if search == null then [] else KeysBy(known, jobs, LinkedAfter(jobs, LeadTurns(schedule))), c)
    ensures StageOf(writer, rest) == StageAfter(jobs, |schedule| - Turns(schedule))
    ensures if search == null then Turns(schedule) == 0 else search.done || search.loads + 1 == Turns(schedule)
  {
    hide *;
    var list, left := writer.list, jobs;
    ghost var seen := [];
    search, c := null, 0;
    StartTurns(writer, jobs, schedule, known);
    for t := 0 to |schedule|
      invariant search == null || (fresh(search) && search.target == target)
      invariant AtTurn(writer, search, left, jobs, schedule, t, known, seen, c)
      invariant writer.tower == null || fresh(writer.tower)
      invariant forall i :: 0 <= i < |list.nodes| ==> list.nodes[i] in old(list.nodes) || fresh(list.nodes[i])
    {
      search, left, seen, c := OneTurn(writer, search, target, left, jobs, schedule, t, known, seen, c);
    }
    EndTurns(writer, search, left, jobs, schedule, known, seen, c);
    rest := left;
  }

  /** What holds after t turns of the schedule. */
  ghost predicate AtTurn<K(!new)>(writer: Inserter<K>, search: Search?<K>, left: seq<(K, nat)>, jobs: seq<(K, nat)>,
                                  schedule: seq<bool>, t: nat, known: seq<K>, seen: seq<K>, c: nat)
    requires t <= |schedule|
    reads writer, writer.list, writer.list.nodes, writer.prev, writer.tower, search
  {
    && Interleaving(writer, search, left, jobs, known, seen, c)
    && StageOf(writer, left) == StageAfter(jobs, t - Turns(schedule[..t]))
    && InTurn(search, jobs, schedule, t, known, seen)
  }

  /** One turn: a shared access of the writer or of the search. */
  method OneTurn<K(!new)>(writer: Inserter<K>, search: Search?<K>, target: K, left: seq<(K, nat)>,
                          ghost jobs: seq<(K, nat)>, schedule: seq<bool>, t: nat,
                          ghost known: seq<K>, ghost seen: seq<K>, ghost c: nat)
    returns (search': Search?<K>, left': seq<(K, nat)>, ghost seen': seq<K>, ghost c': nat)
    requires t < |schedule| && AtTurn(writer, search, left, jobs, schedule, t, known, seen, c)
    requires search != null ==> search.target == target
    modifies writer, writer.prev, writer.tower, search
    modifies writer.list`maxHeight, writer.list`nodes, writer.list`linked, writer.list.nodes
    ensures AtTurn(writer, search', left', jobs, schedule, t + 1, known, seen', c')
    ensures search' == search || (search == null && fresh(search'))
    ensures search' != null ==> search'.target == target
    ensures writer.tower == old(writer.tower) || fresh(writer.tower)
    ensures forall i :: 0 <= i < |writer.list.nodes| ==>
              writer.list.nodes[i] in old(writer.list.nodes) || writer.list.nodes[i] == writer.tower
  {
    hide Interleaving, KeysBy, LinkedAfter, StageAfter, StageOf, Tick;
    assert schedule[..t + 1][..t] == schedule[..t];
    search', left', seen', c' := search, left, seen, c;
    if !schedule[t] {
      NextStage(jobs, t - Turns(schedule[..t]));
      left', c' := WriterTurn(writer, search, left, jobs, known, seen, c);
    } else {
      search', seen' := SearchTurn(writer, search, target, left, jobs, schedule, t, known, seen, c);
    }
  }

  lemma StartTurns<K(!new)>(writer: Inserter<K>, jobs: seq<(K, nat)>, schedule: seq<bool>, known: seq<K>)
    requires Interleaving(writer, null, jobs, jobs, known, [], 0) && writer.phase == Idle
    ensures AtTurn(writer, null, jobs, jobs, schedule, 0, known, [], 0)
  {
    hide Interleaving;
  }

  lemma EndTurns<K(!new)>(writer: Inserter<K>, search: Search?<K>, left: seq<(K, nat)>, jobs: seq<(K, nat)>,
                          schedule: seq<bool>, known: seq<K>, seen: seq<K>, c: nat)
    requires AtTurn(writer, search, left, jobs, schedule, |schedule|, known, seen, c)
    ensures Interleaving(writer, search, left, jobs, known,
                         if search == null then [] else KeysBy(known, jobs, LinkedAfter(jobs, LeadTurns(schedule))), c)
    ensures StageOf(writer, left) == StageAfter(jobs, |schedule| - Turns(schedule))
    ensures if search == null then Turns(schedule) == 0 else search.done || search.loads + 1 == Turns(schedule)
  {
    hide Interleaving, KeysBy, LinkedAfter, StageAfter, StageOf;
    assert schedule[..|schedule|] == schedule;
  }

  /** Before the search begins all turns are the writer's; then each of its turns is one load. */
  ghost predicate InTurn<K(!new)>(search: Search?<K>, jobs: seq<(K, nat)>, schedule: seq<bool>, t: nat, known: seq<K>,
                           seen: seq<K>)
    requires t <= |schedule|
    reads search
  {
    if search == null then Turns(schedule[..t]) == 0 && seen == [] && LeadTurns(schedule) >= t
    else
      && (search.done || search.loads + 1 == Turns(schedule[..t]))
      && seen == KeysBy(known, jobs, LinkedAfter(jobs, LeadTurns(schedule)))
  }

  method SearchTurn<K(!new)>(writer: Inserter<K>, search: Search?<K>, target: K, ghost left: seq<(K, nat)>,
                             ghost jobs: seq<(K, nat)>, ghost schedule: seq<bool>, ghost t: nat,
                             ghost known: seq<K>, ghost seen: seq<K>, ghost c: nat)
    returns (search': Search<K>, ghost seen': seq<K>)
    requires Interleaving(writer, search, left, jobs, known, seen, c)
    requires t < |schedule| && schedule[t] && StageOf(writer, left) == StageAfter(jobs, t - Turns(schedule[..t]))
    requires InTurn(search, jobs, schedule, t, known, seen) && (search != null ==> search.target == target)
    modifies search
    ensures search' == search || (search == null && fresh(search'))
    ensures search'.target == target
    ensures Interleaving(writer, search', left, jobs, known, seen', c)
    ensures InTurn(search', jobs, schedule, t + 1, known, seen')
  {
    hide Interleaving, KeysBy, LinkedAfter, StageAfter, StageOf;
    assert schedule[..t + 1][..t] == schedule[..t];
    if search == null {
      LinkedNow(writer, left, jobs, known, c, t);
      search' := FirstLoad(writer, target, left, jobs, known, c);
      seen' := KeysBy(known, jobs, c);
    } else {
      if !search.done { NextLoad(writer, search, left, jobs, known, seen, c); }
      search', seen' := search, seen;
    }
  }

  lemma NextStage<K>(all: seq<(K, nat)>, turns: nat)
    ensures StageAfter(all, turns + 1) == Tick(StageAfter(all, turns))
  {
  }

  lemma LinkedNow<K(!new)>(writer: Inserter<K>, jobs: seq<(K, nat)>, all: seq<(K, nat)>, known: seq<K>, c: nat,
                    turns: nat)
    requires Interleaving(writer, null, jobs, all, known, [], c) && StageOf(writer, jobs) == StageAfter(all, turns)
    ensures c <= |all| && c == LinkedAfter(all, turns)
  {
    LinkedIs(writer, jobs, all, c, turns);
  }
}
