/** The vocabulary of leveldb/db/dbformat.h: user keys, internal keys and entries.

    User keys are integers.  Nothing below depends on them beyond their order, and the keys of a
    finite run can be renamed to integers in an order-preserving way. */
module DbFormat {

  datatype Option<+T> = None | Some(value: T)

  datatype Status = OK | Failed

  const NUM_LEVELS: nat := 7

  datatype InternalKey = InternalKey(user: int, sequence: nat)

  /** An entry of a memtable or a table; no value means a deletion. */
  datatype Entry = Entry(key: int, sequence: nat, value: Option<string>)

  /** A log record: the entries of one write batch. */
  type Record = seq<Entry>

  /** Ascending user keys; newer entries of the same user key first. */
  function Compare(a: InternalKey, b: InternalKey): int {
    if a.user != b.user then a.user - b.user else b.sequence - a.sequence
  }
}
