/** The skip list of leveldb/db/skiplist.h, as a heap of linked towers.

    The abstract state is ghost: `nodes` is the level-0 list in key order (the
    head first) and `linked[p]` is the number of levels on which `nodes[p]` is
    reachable.  A node whose insertion is only half finished is linked on fewer
    levels than its tower has, so every state between two pointer stores of an
    insertion satisfies the same `Valid()`.
 */
module SkipLists {

  const MAX_HEIGHT: nat := 12

  // ---------------------------------------------------------------- comparators

  ghost predicate AtMost<K>(cmp: (K, K) -> int, a: K, b: K) {
    cmp(a, b) <= 0
  }

  /** What the template parameter Comparator must be: a three-way comparison of a total preorder. */
  ghost predicate TotalOrder<K(!new)>(cmp: (K, K) -> int) {
    && (forall a, b {:trigger AtMost(cmp, a, b)} :: cmp(a, b) < 0 <==> cmp(b, a) > 0)
    && (forall a, b, c {:trigger AtMost(cmp, a, b), AtMost(cmp, b, c)} ::
          AtMost(cmp, a, b) && AtMost(cmp, b, c) ==> AtMost(cmp, a, c))
  }

  lemma Flip<K(!new)>(cmp: (K, K) -> int, a: K, b: K)
    requires TotalOrder(cmp)
    ensures cmp(a, b) < 0 <==> cmp(b, a) > 0
    ensures cmp(b, a) < 0 <==> cmp(a, b) > 0
  {
    assert AtMost(cmp, a, b) || true;
    assert AtMost(cmp, b, a) || true;
  }

  lemma Transitive<K(!new)>(cmp: (K, K) -> int, a: K, b: K, c: K)
    requires TotalOrder(cmp) && cmp(a, b) <= 0 && cmp(b, c) <= 0
    ensures cmp(a, c) <= 0
    ensures cmp(a, b) < 0 || cmp(b, c) < 0 ==> cmp(a, c) < 0
  {
    assert AtMost(cmp, a, b) && AtMost(cmp, b, c);
    assert AtMost(cmp, a, c);
    assert AtMost(cmp, c, a) ==> AtMost(cmp, c, b) && AtMost(cmp, b, a);
  }

  ghost predicate Sorted<K>(cmp: (K, K) -> int, keys: seq<K>) {
    forall i, j :: 0 <= i < j < |keys| ==> cmp(keys[i], keys[j]) < 0
  }

  /** The number of keys in front of the first one that is not below `key`. */
  ghost function Rank<K>(cmp: (K, K) -> int, keys: seq<K>, key: K): (r: nat)
    ensures r <= |keys|
    ensures forall i :: 0 <= i < r ==> cmp(keys[i], key) < 0
    ensures r < |keys| ==> cmp(keys[r], key) >= 0
  {
    if keys == [] || cmp(keys[0], key) >= 0 then 0
    else
      var r := 1 + Rank(cmp, keys[1..], key);
      assert forall i :: 1 <= i < r ==> keys[i] == keys[1..][i - 1];
      r
  }

  /** In a sorted sequence the rank separates the keys below `key` from the others. */
  lemma RankSplits<K(!new)>(cmp: (K, K) -> int, keys: seq<K>, key: K)
    requires TotalOrder(cmp) && Sorted(cmp, keys)
    ensures forall i :: 0 <= i < |keys| ==> (cmp(keys[i], key) < 0 <==> i < Rank(cmp, keys, key))
    ensures forall i :: Rank(cmp, keys, key) < i < |keys| ==> cmp(keys[i], key) > 0
  {
    var r := Rank(cmp, keys, key);
    forall i | r < i < |keys| ensures cmp(keys[i], key) > 0 {
      Flip(cmp, keys[r], key);
      Transitive(cmp, key, keys[r], keys[i]);
      Flip(cmp, keys[i], key);
    }
  }

  ghost predicate HasKey<K>(cmp: (K, K) -> int, keys: seq<K>, key: K) {
    exists i :: 0 <= i < |keys| && cmp(keys[i], key) == 0
  }

  /** A key is present exactly when the element at its rank compares equal to it. */
  lemma HasKeyAtRank<K(!new)>(cmp: (K, K) -> int, keys: seq<K>, key: K)
    requires TotalOrder(cmp) && Sorted(cmp, keys)
    ensures var r := Rank(cmp, keys, key);
            HasKey(cmp, keys, key) <==> r < |keys| && cmp(keys[r], key) == 0
  {
    RankSplits(cmp, keys, key);
  }

  // ---------------------------------------------------------------- tower heights

  ghost predicate IsFirst(heights: seq<nat>, p: nat, l: nat, q: nat) {
    && p <= q <= |heights|
    && (q < |heights| ==> heights[q] > l)
    && forall i :: p <= i < q ==> heights[i] <= l
  }

  ghost predicate IsLast(heights: seq<nat>, q: nat, l: nat, p: nat) {
    && p < q <= |heights| && heights[p] > l
    && forall i :: p < i < q ==> heights[i] <= l
  }

  lemma FirstExists(heights: seq<nat>, p: nat, l: nat)
    requires p <= |heights|
    ensures exists q :: IsFirst(heights, p, l, q)
    decreases |heights| - p
  {
    if p == |heights| || heights[p] > l {
      assert IsFirst(heights, p, l, p);
    } else {
      FirstExists(heights, p + 1, l);
      var q :| IsFirst(heights, p + 1, l, q);
      assert IsFirst(heights, p, l, q);
    }
  }

  lemma LastExists(heights: seq<nat>, q: nat, l: nat)
    requires 0 < q <= |heights| && heights[0] > l
    ensures exists p :: IsLast(heights, q, l, p)
  {
    if heights[q - 1] > l {
      assert IsLast(heights, q, l, q - 1);
    } else {
      LastExists(heights, q - 1, l);
      var p :| IsLast(heights, q - 1, l, p);
      assert IsLast(heights, q, l, p);
    }
  }

  /** The first position from `p` on that is linked on level `l`, or |heights|. */
  ghost function First(heights: seq<nat>, p: nat, l: nat): (q: nat)
    requires p <= |heights|
    ensures IsFirst(heights, p, l, q)
  {
    FirstExists(heights, p, l);
    var q :| IsFirst(heights, p, l, q);
    q
  }

  /** The last position before `q` that is linked on level `l`; position 0 is linked everywhere. */
  ghost function Last(heights: seq<nat>, q: nat, l: nat): (p: nat)
    requires 0 < q <= |heights| && heights[0] > l
    ensures IsLast(heights, q, l, p)
  {
    LastExists(heights, q, l);
    var p :| IsLast(heights, q, l, p);
    p
  }

  lemma FirstIs(heights: seq<nat>, p: nat, l: nat, q: nat)
    requires IsFirst(heights, p, l, q)
    ensures First(heights, p, l) == q
  {
    assert IsFirst(heights, p, l, First(heights, p, l));
  }

  lemma LastIs(heights: seq<nat>, q: nat, l: nat, p: nat)
    requires heights != [] && heights[0] > l && IsLast(heights, q, l, p)
    ensures Last(heights, q, l) == p
  {
    assert IsLast(heights, q, l, Last(heights, q, l));
  }

  /** The predecessors of position `q` depend only on the towers before it. */
  lemma LastOfPrefix(heights: seq<nat>, other: seq<nat>, q: nat, l: nat)
    requires 0 < q <= |heights| && q <= |other| && heights[0] > l
    requires forall i :: 0 <= i < q ==> heights[i] == other[i]
    ensures Last(heights, q, l) == Last(other, q, l)
  {
    LastIs(other, q, l, Last(heights, q, l));
  }

  lemma NextOnBottom(heights: seq<nat>, p: nat)
    requires p < |heights| && forall i :: 1 <= i < |heights| ==> heights[i] >= 1
    ensures First(heights, p + 1, 0) == p + 1
  {
    FirstIs(heights, p + 1, 0, p + 1);
  }

  ghost function Inserted<T>(s: seq<T>, k: nat, x: T): (r: seq<T>)
    requires k <= |s|
    ensures |r| == |s| + 1 && r[k] == x
    ensures forall i :: 0 <= i < |r| ==> r[i] == if i < k then s[i] else if i == k then x else s[i - 1]
  {
    seq(|s| + 1, i requires 0 <= i <= |s| => if i < k then s[i] else if i == k then x else s[i - 1])
  }

  /** Splicing in a tower that is linked on level 0 only moves later positions up by one. */
  lemma FirstAfterInsert(heights: seq<nat>, k: nat, p: nat, l: nat)
    requires 0 < k <= |heights| && p <= |heights| + 1
    requires forall i :: 0 <= i < |heights| ==> heights[i] > 0
    ensures var h' := Inserted<nat>(heights, k, 1);
            First(h', p, l) ==
              if l == 0 then p
              else if p <= k then (var f := First(heights, p, l); if f < k then f else f + 1)
              else First(heights, p - 1, l) + 1
  {
    var h' := Inserted<nat>(heights, k, 1);
    if l == 0 {
      FirstIs(h', p, l, p);
    } else if p <= k {
      var f := First(heights, p, l);
      FirstIs(h', p, l, if f < k then f else f + 1);
    } else {
      FirstIs(h', p, l, First(heights, p - 1, l) + 1);
    }
  }

  /** Raising tower `k` from `l` to `l + 1` levels makes it visible on level `l` and nowhere else. */
  lemma FirstAfterRaise(heights: seq<nat>, k: nat, p: nat, m: nat)
    requires k < |heights| && p <= |heights|
    ensures var h' := heights[k := heights[k] + 1];
            var f := First(heights, p, m);
            First(h', p, m) == if m == heights[k] && p <= k < f then k else f
  {
    var h' := heights[k := heights[k] + 1];
    var f := First(heights, p, m);
    if m == heights[k] && p <= k < f {
      FirstIs(h', p, m, k);
    } else {
      FirstIs(h', p, m, f);
    }
  }

  // ---------------------------------------------------------------- the structure

  class Node<K> {
    const key: K
    var next: seq<Node?<K>>  // next_[0 .. height-1]

    constructor (key: K, height: nat)
      ensures this.key == key
      ensures next == seq(height, _ => null)
    {
      this.key := key;
      this.next := seq(height, _ => null);
    }

    method SetNext(n: nat, x: Node?<K>)
      requires n < |next|
      modifies this`next
      ensures next == old(next)[n := x]
    {
      next := next[n := x];
    }
  }

  ghost function NodeAt<K>(nodes: seq<Node<K>>, p: nat): Node?<K> {
    if p < |nodes| then nodes[p] else null
  }

  ghost function KeysOf<K>(nodes: seq<Node<K>>): (keys: seq<K>)
    requires |nodes| > 0
    ensures |keys| == |nodes| - 1
    ensures forall i :: 0 <= i < |keys| ==> keys[i] == nodes[i + 1].key
  {
    seq(|nodes| - 1, i requires 0 <= i < |nodes| - 1 => nodes[i + 1].key)
  }

  /** `next[p]` holds the links of tower p: each used one leads to the first later tower on its level. */
  ghost predicate Linked<K>(nodes: seq<Node<K>>, linked: seq<nat>, next: seq<seq<Node?<K>>>)
    requires |nodes| == |linked| == |next|
  {
    forall p, l {:trigger next[p][l]} ::
      0 <= p < |nodes| && 0 <= l < linked[p] && l < |next[p]| ==>
        next[p][l] == NodeAt(nodes, First(linked, p + 1, l))
  }

  /** Splicing in a tower does not change what the other links lead to. */
  lemma TargetAfterInsert<K>(nodes: seq<Node<K>>, linked: seq<nat>, k: nat, x: Node<K>, p: nat, l: nat)
    requires |nodes| == |linked| && 0 < k <= |nodes| && p < |nodes|
    requires forall i :: 0 <= i < |linked| ==> linked[i] > 0
    ensures NodeAt(Inserted(nodes, k, x), First(Inserted<nat>(linked, k, 1), (if p < k then p else p + 1) + 1, l))
            == if l == 0 && p == k - 1 then x else NodeAt(nodes, First(linked, p + 1, l))
    ensures l == 0 && k == p + 1 ==>
              NodeAt(Inserted(nodes, k, x), First(Inserted<nat>(linked, k, 1), k + 1, l)) ==
              NodeAt(nodes, First(linked, k, l))
  {
    FirstAfterInsert(linked, k, (if p < k then p else p + 1) + 1, l);
    FirstAfterInsert(linked, k, k + 1, l);
    if l == 0 { FirstIs(linked, p + 1, 0, p + 1); }
  }

  /** Splicing a tower in on level 0 keeps every level linked. */
  lemma LinkBottom<K>(nodes: seq<Node<K>>, linked: seq<nat>, next: seq<seq<Node?<K>>>, k: nat, x: Node<K>,
                      links: seq<Node?<K>>)
    requires |nodes| == |linked| == |next| && 0 < k <= |nodes|
    requires forall p :: 0 <= p < |linked| ==> linked[p] > 0
    requires Linked(nodes, linked, next)
    requires |next[k - 1]| > 0 && |links| > 0 && links[0] == next[k - 1][0]
    ensures Linked(Inserted(nodes, k, x), Inserted<nat>(linked, k, 1),
                   Inserted(next[k - 1 := next[k - 1][0 := x]], k, links))
  {
    var nodes', linked' := Inserted(nodes, k, x), Inserted<nat>(linked, k, 1);
    var next' := Inserted(next[k - 1 := next[k - 1][0 := x]], k, links);
    forall p, l {:trigger next'[p][l]} | 0 <= p < |nodes'| && 0 <= l < linked'[p] && l < |next'[p]|
      ensures next'[p][l] == NodeAt(nodes', First(linked', p + 1, l))
    {
      var o := if p < k then p else p - 1;
      TargetAfterInsert(nodes, linked, k, x, o, l);
      assert l < |next[o]| && l < linked[o] ==> next[o][l] == NodeAt(nodes, First(linked, o + 1, l));
    }
  }

  /** Linking a tower on the next level keeps every level linked. */
  lemma LinkUpper<K>(nodes: seq<Node<K>>, linked: seq<nat>, next: seq<seq<Node?<K>>>, k: nat, i: nat)
    requires |nodes| == |linked| == |next| && 0 < k < |nodes| && linked[0] > i
    requires linked[k] == i && Linked(nodes, linked, next)
    requires i < |next[k]| && i < |next[Last(linked, k, i)]| && next[k][i] == next[Last(linked, k, i)][i]
    ensures var pp := Last(linked, k, i);
            Linked(nodes, linked[k := i + 1], next[pp := next[pp][i := nodes[k]]])
  {
    var pp := Last(linked, k, i);
    var linked', next' := linked[k := i + 1], next[pp := next[pp][i := nodes[k]]];
    assert next[pp][i] == NodeAt(nodes, First(linked, pp + 1, i));
    forall p, l {:trigger next'[p][l]} | 0 <= p < |nodes| && 0 <= l < linked'[p] && l < |next'[p]|
      ensures next'[p][l] == NodeAt(nodes, First(linked', p + 1, l))
    {
      FirstAfterRaise(linked, k, p + 1, l);
      if p == pp && l == i {
        assert First(linked, pp + 1, i) >= k + 1;
      } else if p == k && l == i {
        FirstIs(linked, k + 1, i, First(linked, pp + 1, i));
      } else {
        assert next'[p][l] == next[p][l] == NodeAt(nodes, First(linked, p + 1, l));
        if l == i && p + 1 <= k { assert p < pp; }
      }
    }
  }

  /** The last node before position `q` on each of the levels below `n`. */
  ghost function Predecessors<K>(nodes: seq<Node<K>>, linked: seq<nat>, q: nat, n: nat): (s: seq<Node<K>>)
    requires 0 < q <= |linked| == |nodes| && n <= linked[0]
    ensures |s| == n && forall l :: 0 <= l < n ==> s[l] == nodes[Last(linked, q, l)]
  {
    seq(n, l requires 0 <= l < n => nodes[Last(linked, q, l)])
  }

  /** The shape of a list, over values: `next[p]` holds the links of `nodes[p]`. */
  ghost predicate ShapeOf<K>(head: Node<K>, maxHeight: nat, nodes: seq<Node<K>>, linked: seq<nat>,
                             next: seq<seq<Node?<K>>>) {
    && |nodes| == |linked| == |next| > 0
    && nodes[0] == head && linked[0] == MAX_HEIGHT
    && 1 <= maxHeight <= MAX_HEIGHT
    && (forall p :: 1 <= p < |nodes| ==> 1 <= linked[p] <= maxHeight)
    && (forall p :: 0 <= p < |nodes| ==> linked[p] <= |next[p]| <= MAX_HEIGHT)
    && Linked(nodes, linked, next)
  }

  lemma ShapeAfterBottom<K>(head: Node<K>, maxHeight: nat, nodes: seq<Node<K>>, linked: seq<nat>,
                            next: seq<seq<Node?<K>>>,
                            k: nat, x: Node<K>, links: seq<Node?<K>>)
    requires ShapeOf(head, maxHeight, nodes, linked, next) && 0 < k <= |nodes|
    requires 0 < |links| <= MAX_HEIGHT && |next[k - 1]| > 0 && links[0] == next[k - 1][0]
    ensures ShapeOf(head, maxHeight, Inserted(nodes, k, x), Inserted<nat>(linked, k, 1),
                    Inserted(next[k - 1 := next[k - 1][0 := x]], k, links))
  {
    LinkBottom(nodes, linked, next, k, x, links);
  }

  lemma SortedAfterInsert<K>(cmp: (K, K) -> int, nodes: seq<Node<K>>, k: nat, x: Node<K>)
    requires 0 < k <= |nodes| && Sorted(cmp, KeysOf(nodes))
    requires forall q :: 1 <= q < k ==> cmp(nodes[q].key, x.key) < 0
    requires forall q :: k <= q < |nodes| ==> cmp(x.key, nodes[q].key) < 0
    ensures KeysOf(Inserted(nodes, k, x)) == Inserted(KeysOf(nodes), k - 1, x.key)
    ensures Sorted(cmp, KeysOf(Inserted(nodes, k, x)))
  {
    var keys, keys' := KeysOf(nodes), Inserted(KeysOf(nodes), k - 1, x.key);
    assert KeysOf(Inserted(nodes, k, x)) == keys';
    forall i, j | 0 <= i < j < |keys'| ensures cmp(keys'[i], keys'[j]) < 0 {
      if i < k - 1 && j > k - 1 {
        assert cmp(keys[i], keys[j - 1]) < 0;
      }
    }
  }

  class SkipList<K(!new)> {
    const compare: (K, K) -> int
    const head: Node<K>
    var maxHeight: nat

    ghost var nodes: seq<Node<K>>
    ghost var linked: seq<nat>

    /** Every link of every linked tower is the first later tower linked on that level. */
    ghost predicate Links()
      reads this, nodes
      requires |linked| == |nodes|
    {
      forall p, l {:trigger nodes[p].next[l]} ::
        0 <= p < |nodes| && 0 <= l < linked[p] && l < |nodes[p].next| ==>
          nodes[p].next[l] == NodeAt(nodes, First(linked, p + 1, l))
    }

    ghost function Nexts(): (next: seq<seq<Node?<K>>>)
      reads this, nodes
      ensures |next| == |nodes| && forall p :: 0 <= p < |next| ==> next[p] == nodes[p].next
    {
      seq(|nodes|, p requires 0 <= p < |nodes| reads this, nodes => nodes[p].next)
    }

    /** The part of the invariant that the searches walk on. */
    ghost predicate Shape()
      reads this, nodes
    {
      && |nodes| == |linked| > 0
      && nodes[0] == head && linked[0] == MAX_HEIGHT
      && 1 <= maxHeight <= MAX_HEIGHT
      && (forall p :: 1 <= p < |nodes| ==> 1 <= linked[p] <= maxHeight)
      && (forall p :: 0 <= p < |nodes| ==> linked[p] <= |nodes[p].next| <= MAX_HEIGHT)
      && Links()
    }

    lemma ShapeAsValues()
      requires Shape()
      ensures ShapeOf(head, maxHeight, nodes, linked, Nexts())
    {
      assert Linked(nodes, linked, Nexts());
    }

    lemma ShapeFromValues()
      requires ShapeOf(head, maxHeight, nodes, linked, Nexts())
      ensures Shape()
    {
      assert forall p :: 0 <= p < |nodes| ==> nodes[p].next == Nexts()[p];
    }

    ghost predicate Valid()
      reads this, nodes
    {
      && TotalOrder(compare)
      && Shape()
      && (forall p :: 1 <= p < |nodes| ==> nodes[p] != head)
      && Sorted(compare, KeysOf(nodes))
    }

    /** The abstract contents: the inserted keys in ascending order. */
    ghost function Keys(): seq<K>
      reads this, nodes
      requires Valid()
    {
      KeysOf(nodes)
    }

    constructor (cmp: (K, K) -> int, anyKey: K)
      requires TotalOrder(cmp)
      ensures Valid() && fresh(nodes) && Keys() == [] && compare == cmp
    {
      compare := cmp;
      head := new Node<K>(anyKey, MAX_HEIGHT);
      maxHeight := 1;
      new;
      nodes := [head];
      linked := [MAX_HEIGHT];
    }

    /** True if the key is greater than the data stored in n; a null n is infinite. */
    predicate KeyIsAfterNode(key: K, n: Node?<K>) {
      n != null && compare(n.key, key) < 0
    }

    /** A position is below the target's rank exactly when the search may step onto it. */
    lemma AfterMeansBelowRank(key: K)
      requires Valid()
      ensures var r := Rank(compare, Keys(), key);
              forall q :: 1 <= q < |nodes| ==>
                && (compare(nodes[q].key, key) < 0 <==> q <= r)
                && (q > r + 1 ==> compare(nodes[q].key, key) > 0)
    {
      RankSplits(compare, Keys(), key);
      var r := Rank(compare, Keys(), key);
      forall q | 1 <= q < |nodes|
        ensures compare(nodes[q].key, key) < 0 <==> q <= r
        ensures q > r + 1 ==> compare(nodes[q].key, key) > 0
      {
        assert Keys()[q - 1] == nodes[q].key;
      }
    }

    /** The first node at or after `key`; fills prev[l] with the last node before `key` on each used level. */
    method FindGreaterOrEqual(key: K, prev: array?<Node?<K>>) returns (n: Node?<K>)
      requires Valid()
      requires prev != null ==> prev.Length == MAX_HEIGHT
      modifies if prev == null then {} else {prev}
      ensures n == NodeAt(nodes, Rank(compare, Keys(), key) + 1)
      ensures prev != null ==>
                forall l :: 0 <= l < maxHeight ==> prev[l] == nodes[Last(linked, Rank(compare, Keys(), key) + 1, l)]
    {
      AfterMeansBelowRank(key);
      n := Descend(key, prev, Rank(compare, Keys(), key));
    }

    /** The loop of FindGreaterOrEqual; `r` is the last position whose key is below `key`. */
    method Descend(key: K, prev: array?<Node?<K>>, ghost r: nat) returns (n: Node?<K>)
      requires Shape()
      requires r < |nodes| && forall q :: 1 <= q < |nodes| ==> (KeyIsAfterNode(key, nodes[q]) <==> q <= r)
      requires prev != null ==> prev.Length == MAX_HEIGHT
      modifies if prev == null then {} else {prev}
      ensures n == NodeAt(nodes, r + 1)
      ensures prev != null ==> forall l :: 0 <= l < maxHeight ==> prev[l] == nodes[Last(linked, r + 1, l)]
    {
      var x: Node<K> := head;
      var level := maxHeight - 1;
      ghost var p, ns, heights := 0, nodes, linked;
      ghost var lasts := Predecessors(ns, heights, r + 1, maxHeight);
      while true
        invariant 0 <= level < |lasts|
        invariant 0 <= p <= r && x == ns[p] && heights[p] > level
        invariant prev != null ==> forall l :: level < l < |lasts| ==> prev[l] == lasts[l]
        decreases level, |ns| - p
      {
        assert x.next == old(x.next) && level < |x.next|;
        var next := x.next[level];
        ghost var q := First(heights, p + 1, level);
        assert next == NodeAt(ns, q);
        if KeyIsAfterNode(key, next) {
          x := next;
          p := q;
        } else {
          LastIs(heights, r + 1, level, p);
          if prev != null { prev[level] := x; }
          if level == 0 {
            NextOnBottom(heights, p);
            return next;
          }
          level := level - 1;
        }
      }
    }

    /** The last node before `key`, or the head, as the declaration at line 78 promises. */
    method FindLessThan(key: K) returns (x: Node<K>)
      requires Valid()
      ensures x == nodes[Rank(compare, Keys(), key)]
    {
      x := head;
      var level := maxHeight - 1;
      ghost var r := Rank(compare, Keys(), key);
      ghost var p := 0;
      AfterMeansBelowRank(key);
      while true
        invariant 0 <= level < maxHeight
        invariant 0 <= p <= r && x == nodes[p] && linked[p] > level
        decreases level, |nodes| - p
      {
        var next := x.next[level];
        ghost var q := First(linked, p + 1, level);
        assert next == NodeAt(nodes, q);
        if next == null || compare(next.key, key) >= 0 {
          if level == 0 {
            NextOnBottom(linked, p);
            return;
          }
          level := level - 1;
        } else {
          x := next;
          p := q;
        }
      }
    }

    /** The search with the test `> 0` that line 241 spells out.  It also reports whether the
        assertion of line 239 fails on the way.  It keeps the promise of line 78 exactly when
        the key is absent; otherwise it returns the node that holds the key. */
    method FindLessThanAsWritten(key: K) returns (x: Node<K>, tripped: bool)
      requires Valid()
      ensures (x == nodes[Rank(compare, Keys(), key)]) <==> !HasKey(compare, Keys(), key)
      ensures HasKey(compare, Keys(), key) ==> x == NodeAt(nodes, Rank(compare, Keys(), key) + 1)
      ensures tripped <==> HasKey(compare, Keys(), key)
    {
      AfterMeansBelowRank(key);
      HasKeyAtRank(compare, Keys(), key);
      ghost var r := Rank(compare, Keys(), key);
      ghost var last := if r < |Keys()| && compare(nodes[r + 1].key, key) == 0 then r + 1 else r;
      assert last == r + 1 ==> compare(nodes[last].key, key) >= 0;
      assert last == r + 1 ==> nodes[last].next == nodes[last].next && nodes[r] != nodes[last] by {
        if 0 < r < |Keys()| { assert compare(Keys()[r - 1], Keys()[r]) < 0; }
      }
      x, tripped := DescendAsWritten(key, r, last);
    }

    method DescendAsWritten(key: K, ghost r: nat, ghost last: nat) returns (x: Node<K>, tripped: bool)
      requires Shape()
      requires r <= last < |nodes| && forall q :: 1 <= q < |nodes| ==> (compare(nodes[q].key, key) <= 0 <==> q <= last)
      requires forall q :: 1 <= q < |nodes| ==> nodes[q] != head && (compare(nodes[q].key, key) < 0 <==> q <= r)
      requires last <= r + 1
      ensures x == nodes[last]
      ensures tripped <==> r < last
    {
      x := head;
      tripped := false;
      var level := maxHeight - 1;
      ghost var p := 0;
      while true
        invariant 0 <= level < maxHeight
        invariant 0 <= p <= last && x == nodes[p] && linked[p] > level
        invariant tripped ==> r < last
        decreases level, |nodes| - p
      {
        if x != head && compare(x.key, key) >= 0 { tripped := true; }
        var next := x.next[level];
        ghost var q := First(linked, p + 1, level);
        assert next == NodeAt(nodes, q);
        if next == null || compare(next.key, key) > 0 {
          if level == 0 {
            NextOnBottom(linked, p);
            return;
          }
          level := level - 1;
        } else {
          x := next;
          p := q;
        }
      }
    }

    /** The last node of the list, or the head of an empty one. */
    method FindLast() returns (x: Node<K>)
      requires Valid()
      ensures x == nodes[|nodes| - 1]
    {
      x := head;
      var level := maxHeight - 1;
      ghost var p := 0;
      while true
        invariant 0 <= level < maxHeight
        invariant 0 <= p < |nodes| && x == nodes[p] && linked[p] > level
        decreases level, |nodes| - p
      {
        var next := x.next[level];
        ghost var q := First(linked, p + 1, level);
        assert next == NodeAt(nodes, q);
        if next == null {
          if level == 0 {
            NextOnBottom(linked, p);
            return;
          }
          level := level - 1;
        } else {
          x := next;
          p := q;
        }
      }
    }

    method Contains(key: K) returns (b: bool)
      requires Valid()
      ensures b <==> HasKey(compare, Keys(), key)
    {
      HasKeyAtRank(compare, Keys(), key);
      var x := FindGreaterOrEqual(key, null);
      if x != null { Flip(compare, key, x.key); }
      b := x != null && compare(key, x.key) == 0;
    }

    // -------------------------------------------------------------- insertion

    lemma Distinct()
      requires Valid()
      ensures forall p, q :: 0 <= p < q < |nodes| ==> nodes[p] != nodes[q]
    {
      forall p, q | 0 <= p < q < |nodes| ensures nodes[p] != nodes[q] {
        if p > 0 {
          assert compare(Keys()[p - 1], Keys()[q - 1]) < 0;
          Flip(compare, Keys()[p - 1], Keys()[q - 1]);
        }
      }
    }

    /** What the store of PublishBottom will have built. */
    lemma BottomPlan(pred: Node<K>, x: Node<K>, k: nat)
      requires Valid() && CanLink(x, 0, pred, k)
      ensures pred == nodes[k - 1] && |Nexts()[k - 1]| > 0
      ensures forall p :: 0 <= p < |nodes| && p != k - 1 ==> nodes[p] != pred
      ensures ShapeOf(head, maxHeight, Inserted(nodes, k, x), Inserted<nat>(linked, k, 1),
                      Inserted(Nexts()[k - 1 := Nexts()[k - 1][0 := x]], k, x.next))
      ensures Sorted(compare, KeysOf(Inserted(nodes, k, x)))
      ensures forall p :: 1 <= p <= |nodes| ==> Inserted(nodes, k, x)[p] != head
    {
      Distinct();
      assert Last(linked, k, 0) == k - 1 by { assert linked[k - 1] > 0; }
      ShapeAsValues();
      ShapeAfterBottom(head, maxHeight, nodes, linked, Nexts(), k, x, x.next);
      SortedAfterInsert(compare, nodes, k, x);
    }

    /** `x` is a finished or half-finished tower at position k, about to be linked on level i after `pred`. */
    ghost predicate CanLink(x: Node<K>, i: nat, pred: Node<K>, k: nat)
      reads this, nodes, x
      requires Valid()
    {
      && 0 < k <= |nodes|
      && i < |x.next| <= MAX_HEIGHT && i < maxHeight
      && pred == nodes[Last(linked, k, i)]
      && x.next[i] == pred.next[i]
      && (if i == 0 then
            && x !in nodes
            && (forall q :: 1 <= q < k ==> compare(nodes[q].key, x.key) < 0)
            && (forall q :: k <= q < |nodes| ==> compare(x.key, nodes[q].key) < 0)
          else
            k < |nodes| && nodes[k] == x && linked[k] == i)
    }

    /** The pointer store pred->SetNext(i, x): the moment at which x becomes reachable on level i. */
    method Publish(pred: Node<K>, i: nat, x: Node<K>, ghost k: nat)
      requires Valid() && CanLink(x, i, pred, k)
      modifies pred`next, this`nodes, this`linked
      ensures Valid()
      ensures i == 0 ==> nodes == Inserted(old(nodes), k, x) && linked == Inserted<nat>(old(linked), k, 1)
      ensures i > 0 ==> nodes == old(nodes) && linked == old(linked)[k := i + 1]
      ensures pred.next == old(pred.next)[i := x]
    {
      if i == 0 {
        PublishBottom(pred, x, k);
      } else {
        PublishUpper(pred, i, x, k);
      }
    }

    method PublishBottom(pred: Node<K>, x: Node<K>, ghost k: nat)
      requires Valid() && CanLink(x, 0, pred, k)
      modifies pred`next, this`nodes, this`linked
      ensures Valid()
      ensures nodes == Inserted(old(nodes), k, x) && linked == Inserted<nat>(old(linked), k, 1)
      ensures pred.next == old(pred.next)[0 := x]
    {
      BottomPlan(pred, x, k);
      ghost var next := Nexts();
      pred.SetNext(0, x);
      ghost var stored := Nexts();
      assert stored == next[k - 1 := next[k - 1][0 := x]];
      nodes, linked := Inserted(nodes, k, x), Inserted<nat>(linked, k, 1);
      assert Nexts() == Inserted(stored, k, x.next);
      ShapeFromValues();
    }

    method PublishUpper(pred: Node<K>, i: nat, x: Node<K>, ghost k: nat)
      requires i > 0 && Valid() && CanLink(x, i, pred, k)
      modifies pred`next, this`linked
      ensures Valid()
      ensures linked == old(linked)[k := i + 1]
      ensures pred.next == old(pred.next)[i := x]
    {
      ghost var next, pp := Nexts(), Last(linked, k, i);
      Distinct();
      LinkUpper(nodes, linked, next, k, i);
      pred.SetNext(i, x);
      linked := linked[k := i + 1];
      assert Nexts() == next[pp := next[pp][i := x]];
      assert Links();
    }

    /** The relaxed store to max_height_, which runs before the new tower exists. */
    method StoreMaxHeight(height: nat)
      requires Valid() && maxHeight <= height <= MAX_HEIGHT
      modifies this`maxHeight
      ensures Valid() && maxHeight == height
    {
      maxHeight := height;
    }

    /** The store x->NoBarrier_SetNext(i, n) into a level on which x is not linked yet. */
    method StoreOwnLink(x: Node<K>, i: nat, n: Node?<K>, ghost k: nat)
      requires Valid() && i < |x.next|
      requires x in nodes ==> k < |nodes| && nodes[k] == x && linked[k] <= i
      modifies x`next
      ensures Valid() && x.next == old(x.next)[i := n]
    {
      ShapeAsValues();
      ghost var next := Nexts();
      if x in nodes { Distinct(); }
      x.SetNext(i, n);
      assert Nexts() == if x in nodes then next[k := next[k][i := n]] else next;
      ShapeFromValues();
    }

    /** REQUIRES: nothing that compares equal to key is currently in the list. */
    method Insert(key: K, height: nat)
      requires Valid() && !HasKey(compare, Keys(), key)
      requires 1 <= height <= MAX_HEIGHT
      modifies this`maxHeight, this`nodes, this`linked, nodes
      ensures Valid() && Keys() == Inserted(old(Keys()), Rank(compare, old(Keys()), key), key)
      ensures linked == Inserted<nat>(old(linked), Rank(compare, old(Keys()), key) + 1, height)
      ensures forall n :: n in nodes ==> n in old(nodes) || fresh(n)
      ensures maxHeight == if height > old(maxHeight) then height else old(maxHeight)
    {
      var prev := new Node?<K>[MAX_HEIGHT](_ => null);
      ghost var k := Rank(compare, Keys(), key) + 1;
      var x := FindGreaterOrEqual(key, prev);
      Neighbours(key);
      RaiseTo(height, prev, k);
      hide Valid;
      AddTower(key, height, prev, k);
    }

    /** NewNode and the linking loop, once the predecessors are known. */
    method AddTower(key: K, height: nat, prev: array<Node?<K>>, ghost k: nat)
      requires Valid() && 1 <= height <= maxHeight && 0 < k <= |nodes|
      requires prev.Length == MAX_HEIGHT && forall l :: 0 <= l < height ==> prev[l] == nodes[Last(linked, k, l)]
      requires forall q :: 1 <= q < k ==> compare(nodes[q].key, key) < 0
      requires forall q :: k <= q < |nodes| ==> compare(key, nodes[q].key) < 0
      modifies this`nodes, this`linked, nodes
      ensures Valid() && Keys() == Inserted(old(Keys()), k - 1, key) && linked == Inserted<nat>(old(linked), k, height)
      ensures forall n :: n in nodes ==> n in old(nodes) || fresh(n)
    {
      var tower := new Node<K>(key, height);
      SortedAfterInsert(compare, nodes, k, tower);
      hide Valid;
      LinkTower(prev, tower, height, k);
    }

    /** When the new tower is taller than the list: prev[i] = head_ on the unused levels, then the store. */
    method RaiseTo(height: nat, prev: array<Node?<K>>, ghost k: nat)
      requires Valid() && height <= MAX_HEIGHT == prev.Length && 0 < k <= |nodes|
      requires forall l :: 0 <= l < maxHeight ==> prev[l] == nodes[Last(linked, k, l)]
      modifies prev, this`maxHeight
      ensures Valid() && maxHeight == if height > old(maxHeight) then height else old(maxHeight)
      ensures forall l :: 0 <= l < height ==> prev[l] == nodes[Last(linked, k, l)]
    {
      if height > maxHeight {
        ghost var preds := Predecessors(nodes, linked, k, height);
        for i := maxHeight to height
          modifies prev
          invariant forall l :: 0 <= l < i ==> prev[l] == preds[l]
        {
          prev[i] := head;
          LastIs(linked, k, i, 0);
        }
        StoreMaxHeight(height);
      }
    }

    /** The linking loop of Insert, from the bottom level up. */
    method LinkTower(prev: array<Node?<K>>, x: Node<K>, height: nat, ghost k: nat)
      requires Valid() && x !in nodes && |x.next| == height && 1 <= height <= maxHeight && 0 < k <= |nodes|
      requires prev.Length == MAX_HEIGHT && forall l :: 0 <= l < height ==> prev[l] == nodes[Last(linked, k, l)]
      requires forall q :: 1 <= q < k ==> compare(nodes[q].key, x.key) < 0
      requires forall q :: k <= q < |nodes| ==> compare(x.key, nodes[q].key) < 0
      modifies this`nodes, this`linked, nodes, x
      ensures Valid() && nodes == Inserted(old(nodes), k, x) && linked == Inserted<nat>(old(linked), k, height)
      ensures maxHeight == old(maxHeight)
    {
      ghost var preds := Predecessors(nodes, linked, k, height);
      assert |linked| == |nodes| && linked[0] == MAX_HEIGHT && forall l :: 0 <= l < height ==> preds[l] in nodes;
      LinkLevels(prev, x, height, k, nodes, linked, preds);
    }

    method LinkLevels(prev: array<Node?<K>>, x: Node<K>, height: nat, ghost k: nat,
                      ghost ns: seq<Node<K>>, ghost heights: seq<nat>, ghost preds: seq<Node<K>>)
      requires Valid() && x !in ns && |x.next| == height && 1 <= height <= maxHeight && height <= MAX_HEIGHT
      requires 0 < k <= |ns| == |heights|
      requires ns == nodes && heights == linked && heights[0] == MAX_HEIGHT
      requires preds == Predecessors(ns, heights, k, height) && forall l :: 0 <= l < height ==> preds[l] in ns
      requires prev.Length == MAX_HEIGHT && forall l :: 0 <= l < height ==> prev[l] == preds[l]
      requires forall q :: 1 <= q < k ==> compare(ns[q].key, x.key) < 0
      requires forall q :: k <= q < |ns| ==> compare(x.key, ns[q].key) < 0
      modifies this`nodes, this`linked, ns, x
      ensures Valid() && nodes == Inserted(ns, k, x) && linked == Inserted<nat>(heights, k, height)
    {
      hide Valid;
      for i := 0 to height
        invariant Valid() && |x.next| == height
        invariant forall l :: 0 <= l < height ==> prev[l] == preds[l]
        invariant if i == 0 then nodes == ns && linked == heights
                  else nodes == Inserted(ns, k, x) && linked == Inserted<nat>(heights, k, i)
      {
        LastOfPrefix(heights, linked, k, i);
        LinkLevel(prev[i], i, x, k);
      }
    }

    /** Both stores of one iteration: x->NoBarrier_SetNext(i, ...), then prev[i]->SetNext(i, x). */
    method LinkLevel(pred: Node<K>, i: nat, x: Node<K>, ghost k: nat)
      requires Valid() && 0 < k <= |nodes| && i < |x.next| <= MAX_HEIGHT && i < maxHeight
      requires pred == nodes[Last(linked, k, i)]
      requires if i == 0 then
                 && x !in nodes
                 && (forall q :: 1 <= q < k ==> compare(nodes[q].key, x.key) < 0)
                 && (forall q :: k <= q < |nodes| ==> compare(x.key, nodes[q].key) < 0)
               else k < |nodes| && nodes[k] == x && linked[k] == i
      modifies this`nodes, this`linked, pred`next, x`next
      ensures Valid() && |x.next| == old(|x.next|)
      ensures i == 0 ==> nodes == Inserted(old(nodes), k, x) && linked == Inserted<nat>(old(linked), k, 1)
      ensures i > 0 ==> nodes == old(nodes) && linked == old(linked)[k := i + 1]
    {
      StoreOwnLink(x, i, pred.next[i], k);
      Publish(pred, i, x, k);
    }

    /** The towers as lists: on every level the links lead from the head through the nodes that are linked
        there, in strictly ascending key order and without leaving one out; each of these nodes is also
        on the level below; and the levels from max_height_ on are empty. */
    lemma LevelLists(l: nat, p: nat)
      requires Valid() && l < MAX_HEIGHT && p < |nodes| && linked[p] > l
      ensures var q := First(linked, p + 1, l);
              && p < q <= |nodes| && nodes[p].next[l] == NodeAt(nodes, q)
              && (forall r :: p < r < q ==> linked[r] <= l)
              && (q < |nodes| ==> linked[q] > l && (p > 0 ==> compare(nodes[p].key, nodes[q].key) < 0))
              && (l > 0 && q < |nodes| ==> linked[q] > l - 1)
              && (l >= maxHeight ==> p == 0 && nodes[p].next[l] == null)
    {
      var q := First(linked, p + 1, l);
      if p > 0 && q < |nodes| {
        assert KeysOf(nodes)[p - 1] == nodes[p].key && KeysOf(nodes)[q - 1] == nodes[q].key;
      }
    }

    /** An absent key is strictly above the nodes up to its rank and strictly below the others. */
    lemma Neighbours(key: K)
      requires Valid() && !HasKey(compare, Keys(), key)
      ensures var k := Rank(compare, Keys(), key) + 1;
              && (forall q :: 1 <= q < k ==> compare(nodes[q].key, key) < 0)
              && (forall q :: k <= q < |nodes| ==> compare(key, nodes[q].key) < 0)
    {
      AfterMeansBelowRank(key);
      HasKeyAtRank(compare, Keys(), key);
      var k := Rank(compare, Keys(), key) + 1;
      forall q | k <= q < |nodes| ensures compare(key, nodes[q].key) < 0 {
        Flip(compare, key, nodes[q].key);
      }
    }

    /** Raises the height with probability one in four; `coins` are the draws of the generator. */
    static method RandomHeight(coins: seq<bool>) returns (height: nat)
      requires |coins| >= MAX_HEIGHT
      ensures 1 <= height <= MAX_HEIGHT
      ensures forall i :: 0 <= i < height - 1 ==> coins[i]
      ensures height < MAX_HEIGHT ==> !coins[height - 1]
    {
      height := 1;
      while height < MAX_HEIGHT && coins[height - 1]
        invariant 1 <= height <= MAX_HEIGHT
        invariant forall i :: 0 <= i < height - 1 ==> coins[i]
      {
        height := height + 1;
      }
    }
  }
}
