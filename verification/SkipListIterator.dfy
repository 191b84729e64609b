/** SkipList::Iterator (leveldb/db/skiplist.h:35-55, 139-189): a cursor that refines an index into the
    sorted keys.  The index of an iterator that is not valid is one past the last key. */
module SkipListIterators {
  import opened SkipLists

  class Iterator<K(!new)> {
    const list: SkipList<K>
    var node: Node?<K>

    /** The iterator is unpositioned or stands on an inserted node. */
    ghost predicate Consistent()
      reads this, list, list.nodes
    {
      list.Valid() && (node != null ==> exists p :: 1 <= p < |list.nodes| && list.nodes[p] == node)
    }

    ghost function Index(): nat
      reads this, list, list.nodes
      requires list.Valid()
    {
      if node == null then |list.Keys()| else Rank(list.compare, list.Keys(), node.key)
    }

    constructor (list: SkipList<K>)
      requires list.Valid()
      ensures this.list == list && Consistent() && node == null
    {
      this.list := list;
      node := null;
    }

    predicate Valid()
      reads this
    {
      node != null
    }

    /** The rank of an inserted key is its own position. */
    static lemma IndexOfNode(list: SkipList<K>, p: nat)
      requires list.Valid() && 1 <= p < |list.nodes|
      ensures Rank(list.compare, list.Keys(), list.nodes[p].key) == p - 1
    {
      var keys := list.Keys();
      var key := keys[p - 1];
      RankSplits(list.compare, keys, key);
      Flip(list.compare, key, key);
      if p > 1 { assert list.compare(keys[p - 2], key) < 0; }
    }

    /** An iterator standing on position i + 1 of the list has index i. */
    lemma StandsAt(i: nat)
      requires list.Valid() && i <= |list.Keys()| && node == NodeAt(list.nodes, i + 1)
      ensures Consistent() && Index() == i
    {
      if i < |list.Keys()| { IndexOfNode(list, i + 1); }
    }

    lemma Standing()
      requires Consistent()
      ensures Index() <= |list.Keys()| && node == NodeAt(list.nodes, Index() + 1)
      ensures Valid() <==> Index() < |list.Keys()|
    {
      if node != null {
        var p :| 1 <= p < |list.nodes| && list.nodes[p] == node;
        IndexOfNode(list, p);
      }
    }

    method Key() returns (k: K)
      requires Consistent() && Valid()
      ensures Index() < |list.Keys()| && k == list.Keys()[Index()]
    {
      Standing();
      k := node.key;
    }

    method Next()
      requires Consistent() && Valid()
      modifies this
      ensures Consistent() && Index() == old(Index()) + 1
      ensures Valid() <==> Index() < |list.Keys()|
    {
      Standing();
      ghost var i := Index();
      list.ShapeAsValues();
      NextOnBottom(list.linked, i + 1);
      node := node.next[0];
      StandsAt(i + 1);
    }

    /** One step back; from the first key the iterator becomes invalid. */
    method Prev()
      requires Consistent() && Valid()
      modifies this
      ensures Consistent()
      ensures Index() == if old(Index()) == 0 then |list.Keys()| else old(Index()) - 1
    {
      Standing();
      ghost var i := Index();
      node := list.FindLessThan(node.key);
      if node == list.head {
        node := null;
        StandsAt(|list.Keys()|);
      } else {
        StandsAt(i - 1);
      }
    }

    /** With the test of line 241 as it stands, Prev never moves and always fails the assertion of line 239. */
    method PrevAsWritten() returns (tripped: bool)
      requires Consistent() && Valid()
      modifies this
      ensures node == old(node) && tripped
    {
      Standing();
      ghost var i := Index();
      Flip(list.compare, node.key, node.key);
      assert list.Keys()[i] == node.key;
      var x, failed := list.FindLessThanAsWritten(node.key);
      node, tripped := if x == list.head then null else x, failed;
    }

    method Seek(target: K)
      requires Consistent()
      modifies this
      ensures Consistent() && Index() == Rank(list.compare, list.Keys(), target)
    {
      ghost var i := Rank(list.compare, list.Keys(), target);
      node := list.FindGreaterOrEqual(target, null);
      StandsAt(i);
    }

    method SeekToFirst()
      requires Consistent()
      modifies this
      ensures Consistent() && Index() == 0
      ensures Valid() <==> 0 < |list.Keys()|
    {
      list.ShapeAsValues();
      NextOnBottom(list.linked, 0);
      node := list.head.next[0];
      StandsAt(0);
    }

    method SeekToLast()
      requires Consistent()
      modifies this
      ensures Consistent()
      ensures Index() == if list.Keys() == [] then 0 else |list.Keys()| - 1
    {
      node := list.FindLast();
      if node == list.head {
        node := null;
        StandsAt(|list.Keys()|);
      } else {
        StandsAt(|list.Keys()| - 1);
      }
    }

    /** Prev undoes Next whenever Next leaves the iterator valid. */
    method NextThenPrev()
      requires Consistent() && Valid()
      modifies this
      ensures Consistent()
      ensures old(Index()) + 1 < |list.Keys()| ==> node == old(node) && Index() == old(Index())
      ensures old(Index()) + 1 == |list.Keys()| ==> !Valid()
    {
      Standing();
      ghost var i := Index();
      Next();
      Standing();
      if Valid() {
        Prev();
        Standing();
      }
    }

    /** A full forward walk yields exactly the inserted keys in ascending order. */
    method ForwardWalk() returns (out: seq<K>)
      requires Consistent()
      modifies this
      ensures Consistent() && out == list.Keys()
    {
      hide list.Valid;
      out := [];
      ghost var keys := list.Keys();
      SeekToFirst();
      while node != null
        invariant Consistent() && Index() == |out| && out <= keys
        invariant Valid() <==> |out| < |keys|
        decreases |keys| - |out|
      {
        out := out + [node.key];
        Standing();
        Next();
      }
    }
  }
}
