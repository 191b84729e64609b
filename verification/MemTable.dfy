/** MemTable (leveldb/db/memtable.h) over the skip list of internal keys.  The bodies of Add and Get are
    not in the repository; Add inserts, Get seeks, and Get keeps the promise of the comment at lines
    43-46: the newest entry at or below the sequence number of the lookup key. */
module MemTables {
  import opened DbFormat
  import opened SkipLists
  import opened SkipListIterators
  import opened VersionReads

  /** KeyComparator: the order of internal keys. */
  function EntryCompare(a: Entry, b: Entry): int {
    Compare(InternalKey(a.key, a.sequence), InternalKey(b.key, b.sequence))
  }

  lemma EntryOrder()
    ensures TotalOrder(EntryCompare)
  {
    forall a, b, c | AtMost(EntryCompare, a, b) && AtMost(EntryCompare, b, c) ensures AtMost(EntryCompare, a, c) {
      assert EntryCompare(a, b) <= 0 && EntryCompare(b, c) <= 0;
    }
    forall a, b ensures EntryCompare(a, b) < 0 <==> EntryCompare(b, a) > 0 {}
  }

  ghost function AllOf(keys: seq<Entry>): set<Entry> {
    set e | e in keys
  }

  /** The entry at the rank of the lookup key is the answer, if it is an entry of the key at all. */
  lemma SeekFinds(keys: seq<Entry>, key: int, snapshot: nat)
    requires Sorted(EntryCompare, keys)
    ensures var r := Rank(EntryCompare, keys, Entry(key, snapshot, None));
            Answers(AllOf(keys), key, snapshot, if r < |keys| && keys[r].key == key then Some(keys[r]) else None)
  {
    var target := Entry(key, snapshot, None);
    var r := Rank(EntryCompare, keys, target);
    EntryOrder();
    RankSplits(EntryCompare, keys, target);
    forall d | d in keys && Visible(d, key, snapshot)
      ensures r < |keys| && keys[r].key == key && keys[r].sequence >= d.sequence
    {
      var j :| 0 <= j < |keys| && keys[j] == d;
      assert EntryCompare(d, target) >= 0;
      assert r < j ==> EntryCompare(keys[r], d) < 0;
    }
    if r < |keys| { assert EntryCompare(keys[r], target) >= 0; }
  }

  /** ... and the only one, if no sequence number occurs twice. */
  lemma SeekAnswers(keys: seq<Entry>, key: int, snapshot: nat, a: Option<Entry>)
    requires Sorted(EntryCompare, keys)
    requires var r := Rank(EntryCompare, keys, Entry(key, snapshot, None));
             a == if r < |keys| && keys[r].key == key then Some(keys[r]) else None
    ensures Answers(AllOf(keys), key, snapshot, a)
    ensures OneEach(AllOf(keys)) ==> a == Lookup(AllOf(keys), key, snapshot)
  {
    hide Sorted, Rank, AllOf;
    SeekFinds(keys, key, snapshot);
    if OneEach(AllOf(keys)) {
      AnswerUnique(AllOf(keys), key, snapshot, a, Lookup(AllOf(keys), key, snapshot));
    }
  }

  class MemTable {
    const table: SkipList<Entry>

    ghost predicate Valid()
      reads table, table.nodes
    {
      table.Valid() && table.compare == EntryCompare
    }

    ghost function Contents(): set<Entry>
      requires Valid()
      reads table, table.nodes
    {
      AllOf(table.Keys())
    }

    constructor ()
      ensures Valid() && Contents() == {} && fresh(table) && fresh(table.nodes)
    {
      EntryOrder();
      table := new SkipList<Entry>(EntryCompare, Entry(0, 0, None));
    }

    /** Insert one entry; no two entries of a key may have the same sequence number. */
    method Add(sequence: nat, key: int, value: Option<string>, height: nat)
      requires Valid() && 1 <= height <= MAX_HEIGHT
      requires forall e :: e in Contents() ==> !(e.key == key && e.sequence == sequence)
      modifies table, table.nodes
      ensures Valid() && Contents() == old(Contents()) + {Entry(key, sequence, value)}
    {
      var e := Entry(key, sequence, value);
      ghost var keys := table.Keys();
      assert !HasKey(EntryCompare, keys, e) by {
        assert forall i :: 0 <= i < |keys| ==> keys[i] in Contents();
      }
      ghost var r := Rank(EntryCompare, keys, e);
      InsertedMembers(keys, r, e);
      table.Insert(e, height);
    }

    /** The entry found for the key, or none. */
    method Get(key: int, snapshot: nat) returns (a: Option<Entry>)
      requires Valid()
      ensures Answers(Contents(), key, snapshot, a)
      ensures OneEach(Contents()) ==> a == Lookup(Contents(), key, snapshot)
    {
      hide Sorted, Rank, AllOf, Lookup, OneEach, Answers;
      a := Seek(key, snapshot);
      SeekAnswers(table.Keys(), key, snapshot, a);
    }

    /** The entry where a search for the lookup key stops, if it is one of the key. */
    method Seek(key: int, snapshot: nat) returns (a: Option<Entry>)
      requires Valid()
      ensures var r := Rank(EntryCompare, table.Keys(), Entry(key, snapshot, None));
              a == if r < |table.Keys()| && table.Keys()[r].key == key then Some(table.Keys()[r]) else None
    {
      hide Sorted, Rank, SkipList.Valid;
      var iter := new Iterator<Entry>(table);
      iter.Seek(Entry(key, snapshot, None));
      a := None;
      iter.Standing();
      if iter.Valid() {
        var e := iter.Key();
        if e.key == key {
          a := Some(e);
        }
      }
    }
  }

  lemma InsertedMembers(s: seq<Entry>, k: nat, x: Entry)
    requires k <= |s|
    ensures forall e :: e in Inserted<Entry>(s, k, x) <==> e in s || e == x
  {
    var s' := Inserted<Entry>(s, k, x);
    assert s' == s[..k] + [x] + s[k..];
    forall e ensures e in s' <==> e in s || e == x {
      assert s == s[..k] + s[k..];
      assert e in s <==> e in s[..k] || e in s[k..];
    }
  }
}
