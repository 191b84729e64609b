/** leveldb/db/version_edit.h: the edit language of versions, and the record an edit is stored as. */
module VersionEdits {
  import opened DbFormat

  datatype FileMeta = FileMeta(number: nat, fileSize: nat, smallest: InternalKey, largest: InternalKey)

  /** The content of one manifest record: an edit with its optional fields. */
  datatype Edit = Edit(
    comparator: Option<string>,
    logNumber: Option<nat>,
    prevLogNumber: Option<nat>,
    nextFile: Option<nat>,
    lastSequence: Option<nat>,
    compactPointers: seq<(nat, InternalKey)>,
    deleted: set<(nat, nat)>,
    added: seq<(nat, FileMeta)>)
  {
    /** The levels an edit names index the arrays of the builder. */
    predicate LevelsOk() {
      && (forall i :: 0 <= i < |compactPointers| ==> compactPointers[i].0 < NUM_LEVELS)
      && (forall d :: d in deleted ==> d.0 < NUM_LEVELS)
      && (forall i :: 0 <= i < |added| ==> added[i].0 < NUM_LEVELS)
    }
  }

  const EMPTY: Edit := Edit(None, None, None, None, None, [], {}, [])

  class VersionEdit {
    var comparator: string
    var logNumber: nat
    var prevLogNumber: nat
    var nextFileNumber: nat
    var lastSequence: nat
    var hasComparator: bool
    var hasLogNumber: bool
    var hasPrevLogNumber: bool
    var hasNextFileNumber: bool
    var hasLastSequence: bool
    var compactPointers: seq<(nat, InternalKey)>
    var deletedFiles: set<(nat, nat)>
    var newFiles: seq<(nat, FileMeta)>

    /** What EncodeTo writes and DecodeFrom reads back. */
    function Record(): Edit
      reads this
    {
      Edit(if hasComparator then Some(comparator) else None,
           if hasLogNumber then Some(logNumber) else None,
           if hasPrevLogNumber then Some(prevLogNumber) else None,
           if hasNextFileNumber then Some(nextFileNumber) else None,
           if hasLastSequence then Some(lastSequence) else None,
           compactPointers, deletedFiles, newFiles)
    }

    constructor ()
      ensures Record() == EMPTY
    {
      compactPointers := [];
      new;
      Clear();
    }

    /** Clear leaves the compaction pointers in place. */
    method Clear()
      modifies this
      ensures Record() == EMPTY.(compactPointers := old(compactPointers))
    {
      comparator := "";
      logNumber, prevLogNumber, lastSequence, nextFileNumber := 0, 0, 0, 0;
      hasLastSequence, hasLogNumber, hasPrevLogNumber := false, false, false;
      hasNextFileNumber, hasComparator := false, false;
      deletedFiles, newFiles := {}, [];
    }

    method SetComparatorName(name: string)
      modifies this
      ensures Record() == old(Record()).(comparator := Some(name))
    {
      hasComparator, comparator := true, name;
    }

    method SetLogNumber(num: nat)
      modifies this
      ensures Record() == old(Record()).(logNumber := Some(num))
    {
      hasLogNumber, logNumber := true, num;
    }

    method SetPrevLogNumber(num: nat)
      modifies this
      ensures Record() == old(Record()).(prevLogNumber := Some(num))
    {
      hasPrevLogNumber, prevLogNumber := true, num;
    }

    method SetNextFile(num: nat)
      modifies this
      ensures Record() == old(Record()).(nextFile := Some(num))
    {
      hasNextFileNumber, nextFileNumber := true, num;
    }

    method SetLastSequence(sequence: nat)
      modifies this
      ensures Record() == old(Record()).(lastSequence := Some(sequence))
    {
      hasLastSequence, lastSequence := true, sequence;
    }

    method SetCompactPointer(level: nat, key: InternalKey)
      modifies this
      ensures Record() == old(Record()).(compactPointers := old(compactPointers) + [(level, key)])
    {
      compactPointers := compactPointers + [(level, key)];
    }

    method AddFile(level: nat, file: nat, fileSize: nat, smallest: InternalKey, largest: InternalKey)
      modifies this
      ensures var f := FileMeta(file, fileSize, smallest, largest);
              Record() == old(Record()).(added := old(newFiles) + [(level, f)])
    {
      newFiles := newFiles + [(level, FileMeta(file, fileSize, smallest, largest))];
    }

    method RemoveFile(level: nat, file: nat)
      modifies this
      ensures Record() == old(Record()).(deleted := old(deletedFiles) + {(level, file)})
    {
      deletedFiles := deletedFiles + {(level, file)};
    }
  }
}
