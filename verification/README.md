# A LevelDB rewrite: write protocol, versions and skip list

The repository rewrites parts of LevelDB. Three of its components are written out and hold hard
properties; this project models them in Dafny and proves those properties.

* **Skip list** (`SkipList.dfy`, `SkipListIterator.dfy`, `SkipListConcurrency.dfy`, `MemTable.dfy`).
  A heap of linked towers with the search, insertion and iterator loops of the source. The ghost state
  is the level-0 list and, for every node, the number of levels on which it is reachable; a half-finished
  insertion satisfies the same invariant as a finished one. On top of it one search and one inserter
  are interleaved access by access under any schedule. `MemTable` uses the list for internal keys.
* **Versions and manifest** (`VersionEdit.dfy`, `BuilderSpec.dfy`, `Batching.dfy`, `BatchingRuns.dfy`,
  `VersionBuilder.dfy`, `FileNames.dfy`, `ManifestSpec.dfy`, `VersionSet.dfy`, `VersionReads.dfy`). Edits, the builder that
  batches them, reference-counted files, the circular list of versions, `LogAndApply` with all outcomes
  of its file operations, the switch of CURRENT, replay after a crash, and reading a version. Each class
  is proved against functions on values, and the theorems are about those functions.
* **Write, flush and read protocol** (`DbStore.dfy`, `DbQueue.dfy`, `Db.dfy`, `DbInvariants.dfy`,
  `DbSteps.dfy`, `DbBackground.dfy`, `DbTheorems.dfy`, `DbLogs.dfy`, `DbGroups.dfy`, `DbManifest.dfy`,
  `DbRuns.dfy`, `DbReads.dfy`, `DbWrites.dfy`, `DbTurns.dfy`, `DbWork.dfy`, `DbErrors.dfy`, `DbImpl.dfy`).
  A step machine: a step is what a thread does while it holds the mutex, or one access in a window in
  which the mutex is released. Any number of writers and readers and one background thread take steps
  in any order. The invariants are inductive, so the theorems hold in every reachable state; the last
  modules state them for whole runs. Where a theorem asks for the invariant `Inv`, `OpenedOk` and `RunKeeps`
  give it after every run. `DbImpl` is the class, whose methods are proved to be steps of the machine.

## Readings of the source

Where the text slips, the intended behaviour is modelled and, where the text has a behaviour of its own,
that is described exactly as well.

* `skiplist.h:241` tests `> 0`; the contract at lines 78-79 and the assertion at line 239 need `>= 0`.
  `FindLessThanAsWritten` and `PrevAsWritten` say what the text does.
* `db_impl.cc:268` leaves the loop when there is no error; it is read as leaving it when there is one, as
  at line 168. `AsWrittenExact` says when the two agree.
* `db_impl.cc:341` passes `&last_sequence` to `BuildBatchGroup`; it is read as setting `last_writer`,
  which line 375 uses.
* `version_set.cc:353` drops the status of `Sync`; appending and syncing are one step that succeeds or fails.
* `version_set.cc:186` is read as `->insert`.
* `builder.cc:16-60` never sets `file_size`; a table built from a non-empty memtable counts as non-empty.
* `Status::ok()` is read as its name says.
* A failed `LogAndApply` has already moved the compaction pointers (`ManifestSpec.Failing`); an edit that
  adds equivalent files to one level leaks an object (`VersionBuilders.LeakExact`); one builder for several
  edits is not equivalent to one version per edit when a file of the base is deleted and added again
  (`Batching.BatchingExact`), nor when a new file is added twice (`BatchingRuns.BatchingExactAlways`).
  These are properties of the code as it stands.

Bodies that the repository does not have enter as contracts: `ForEachOverlapping` visits the overlapping
files of level 0 newest first, then the deeper levels, and stops when the callback says so;
`PickLevelForMemTableOutput` returns 0 or a level such that no file there or above overlaps;
`BuildBatchGroup` takes any non-empty prefix of the queue in which all writers have batches;
`RecordBackgroundError` sets `bg_error_` and signals all waiters; `ReuseFileNumber` gives back the number
just taken; `NeedsCompaction` is true at least when level 0 has four files; `Unref` on a version deletes
it with the last reference; `RemoveObsoleteFiles` removes the logs before `log_number_`. The triggers 4, 8
and 12 and the seven levels are those of LevelDB's `config` namespace, which the repository uses but does
not define.

Parameters: outcomes of file operations, the memory use of memtables, the draws of the random generator,
the choices of `PickCompaction`, the schedule. User keys are integers, of which only the order matters.

## Model

| member | source | states |
|---|---|---|
| SkipLists.HasKeyAtRank | leveldb/db/skiplist.h:206-209 | a key is in a sorted list exactly when the element at its rank, where a search stops, compares equal to it |
| SkipLists.SkipList.constructor | leveldb/db/skiplist.h:273-282 | a new list satisfies the invariant and has no keys |
| SkipLists.SkipList.FindGreaterOrEqual | leveldb/db/skiplist.h:71-76 | returns the first level-0 node that is not below the key, or null; prev holds, for every level in use, the last node of that level in front of it, whatever the tower heights |
| SkipLists.SkipList.Descend | leveldb/db/skiplist.h:211-231 | the search loop, with the measure (level, nodes remaining); same promise as FindGreaterOrEqual |
| SkipLists.SkipList.FindLessThan | leveldb/db/skiplist.h:78-80 | returns the last node below the key, or the head (line 241 read as >= 0) |
| SkipLists.SkipList.FindLessThanAsWritten | leveldb/db/skiplist.h:235-251 | with the test as written: keeps the promise of lines 78-79 if and only if the key is absent, else returns the node of the key; the assertion of line 239 fails if and only if the key is present |
| SkipLists.SkipList.FindLast | leveldb/db/skiplist.h:254-270 | returns the last node, or the head of an empty list |
| SkipLists.SkipList.Contains | leveldb/db/skiplist.h:309-317 | true exactly when some key of the list compares equal |
| SkipLists.SkipList.Insert | leveldb/db/skiplist.h:285-306 | for every height 1..12: the invariant holds, the sorted keys are the old ones with the new key at its rank, the new tower is linked on exactly its own levels and all other towers as before, max_height_ is the larger of the two |
| SkipLists.SkipList.LevelLists | leveldb/db/skiplist.h:104-125 | every level is a strictly ascending list, leaves out no node linked there, is a sublist of the level below, and is empty from max_height_ on |
| SkipLists.SkipList.Publish | leveldb/db/skiplist.h:304 | the store to prev[i] keeps the invariant and makes the new tower reachable on exactly one more level |
| SkipLists.SkipList.StoreOwnLink | leveldb/db/skiplist.h:303 | a store into a level of the new tower that is not linked yet keeps the invariant |
| SkipLists.SkipList.StoreMaxHeight | leveldb/db/skiplist.h:298 | the early store to max_height_ keeps the invariant |
| SkipLists.SkipList.RaiseTo | leveldb/db/skiplist.h:294-299 | prev is completed with the head on the new levels before the height is stored |
| SkipLists.SkipList.RandomHeight | leveldb/db/skiplist.h:193-203 | a height in 1..12: one more than the number of leading hits of the generator, cut off at 12 |
| SkipListIterators.Iterator.Next | leveldb/db/skiplist.h:158-161 | the index into the sorted keys grows by one |
| SkipListIterators.Iterator.Prev | leveldb/db/skiplist.h:164-170 | the index shrinks by one; from the first key the iterator becomes invalid |
| SkipListIterators.Iterator.PrevAsWritten | leveldb/db/skiplist.h:164-170 | with line 241 as written Prev never moves and always fails the assertion of line 239 |
| SkipListIterators.Iterator.Seek | leveldb/db/skiplist.h:173-176 | the index becomes the rank of the target |
| SkipListIterators.Iterator.SeekToFirst | leveldb/db/skiplist.h:179-181 | the index becomes 0; valid exactly if there are keys |
| SkipListIterators.Iterator.SeekToLast | leveldb/db/skiplist.h:184-189 | the index becomes that of the last key; valid exactly if there are keys |
| SkipListIterators.Iterator.NextThenPrev | leveldb/db/skiplist.h:158-170 | Prev undoes Next whenever Next leaves the iterator valid |
| SkipListIterators.Iterator.ForwardWalk | leveldb/db/skiplist.h:139-189 | a full forward walk yields exactly the sorted keys |
| SkipListConcurrency.Search.Lookahead | leveldb/db/skiplist.h:216-230 | what one load tells a search that may have been overtaken by any stores: the node it moves to still reaches the answer, and at the end it has the answer |
| SkipListConcurrency.Search.LoadsBounded | leveldb/db/skiplist.h:216-230 | an unfinished search has made fewer loads than 12 plus the number of keys |
| SkipListConcurrency.SoundAfterLink | leveldb/db/skiplist.h:302-305 | the store that links a tower on one more level leaves a search in progress sound |
| SkipListConcurrency.Inserter.LinkPred | leveldb/db/skiplist.h:304 | from the first of these stores on, exactly the new key has been added; later ones change no key |
| SkipListConcurrency.Interleave | leveldb/db/skiplist.h:213-306 | for any insertions, any heights and any schedule of single loads and stores, in which the search may begin between any two stores (also after the early store to max_height_ or on a half-linked tower): the list stays valid and has exactly the keys linked so far; a finished search reports an inserted key at or above the target and goes past no such key that was linked when it read max_height_; after that load and 12 + the number of keys more it has finished |
| SkipListConcurrency.FirstLoad | leveldb/db/skiplist.h:211-215 | a search that begins in any state of an insertion is sound for all keys linked by then |
| VersionEdits.VersionEdit.Clear | leveldb/db/version_edit.cc:19-32 | all optional fields and files go, the compaction pointers stay |
| VersionEdits.VersionEdit.AddFile | leveldb/db/version_edit.h:62-70 | the record has one more added file at its end and is otherwise unchanged |
| VersionEdits.VersionEdit.RemoveFile | leveldb/db/version_edit.h:72-74 | the record has one more deleted pair and is otherwise unchanged |
| VersionEdits.VersionEdit.SetCompactPointer | leveldb/db/version_edit.h:55-57 | the record has one more pointer at its end and is otherwise unchanged |
| VersionEdits.VersionEdit.SetLogNumber | leveldb/db/version_edit.h:35-38 | the record has this log number and is otherwise unchanged |
| BuilderSpec.UpperBoundSplits | leveldb/db/version_set.cc:204-206 | in a sorted list upper_bound separates the files that do not come after the given one from those that do |
| BuilderSpec.SaveIsMerge | leveldb/db/version_set.cc:191-232 | on a sorted base each saved level is sorted and has every file as often as base and additions together, except the deleted numbers, which it does not have |
| BuilderSpec.AdjacentMeansPairwise | leveldb/db/version_set.cc:224-228 | in an ordered level the adjacent-overlap test passes if and only if all files are pairwise disjoint |
| BuilderSpec.StrictUnique | leveldb/db/version_set.cc:108-116 | BySmallestKey leaves one order: strictly sorted levels with the same files are equal |
| BuilderSpec.PointersAt | leveldb/db/version_set.cc:163-167 | each level has the last compaction pointer that the edit sets for it, and keeps its old one if the edit sets none |
| Batching.ApplyEditLevel | leveldb/db/version_set.cc:169-187 | on each level an edit adds exactly its files and deletes exactly the numbers it deletes and does not add |
| Batching.SaveLevelStrict | leveldb/db/version_set.cc:191-232 | a saved level has no file twice if and only if no file is in the base, among the additions and kept |
| Batching.SameFiles | leveldb/db/version_set.cc:161-217 | the builder after all edits and the versions edit by edit have the same files on every level; an addition survives if and only if the last edit that names it adds it |
| Batching.BatchingExact | leveldb/db/version_set.cc:99-101 | for every run of edits that never adds a number the version then holds on that level: one builder gives the version of one version per edit if and only if no file of the base is re-added and stays |
| Batching.BatchingFromEmpty | leveldb/db/version_set.cc:99-101 | from an empty version, as in a replay, batching always gives the version of one version per edit |
| Batching.BatchingFails | leveldb/db/version_set.cc:99-101 | deleting file 7 of the base and adding it again in a second edit lists it twice when batched |
| BatchingRuns.BatchingExactAlways | leveldb/db/version_set.cc:161-217 | for every run of edits, on versions that may list a file more than once: one builder gives the version of one version per edit if and only if each file that stays added is listed, edit by edit, exactly once more than in the base |
| BatchingRuns.OneByOneCopies | leveldb/db/version_set.cc:161-217 | edit by edit a level lists a file as often as the count says: one more for an edit that adds it, none after one that deletes and does not add it |
| BatchingRuns.AddingTwiceFails | leveldb/db/version_set.cc:99-101 | adding one new file in two edits lists it once when batched and twice edit by edit |
| VersionBuilders.Builder.constructor | leveldb/db/version_set.cc:131-138 | an empty builder; the base gets one reference |
| VersionBuilders.Builder.Apply | leveldb/db/version_set.cc:161-188 | the builder state becomes that of the edit applied to it, each level of the version set has at once the last pointer that the edit sets for it or else its old one, and as many new objects are leaked as the sorted sets refuse |
| VersionBuilders.Builder.MaybeAddFile | leveldb/db/version_set.cc:219-232 | pushes the file unless deleted, gives it a reference, and records whether the assertion fails |
| VersionBuilders.Builder.SaveLevelTo | leveldb/db/version_set.cc:195-215 | one level is the merge, other levels are untouched, each push is one more reference, and the assertion fails on some pair if and only if adjacent files of the result overlap |
| VersionBuilders.Builder.SaveTo | leveldb/db/version_set.cc:191-217 | the same for all levels: version, references and assertion |
| VersionBuilders.Builder.Destroy | leveldb/db/version_set.cc:140-158 | exactly the references of the builder go: what remains are those of versions and of leaked objects |
| VersionBuilders.FileTable.Release | leveldb/db/version_set.cc:150-154 | a counter equals the number of holders, and an object dies with its last holder |
| VersionBuilders.LeakExact | leveldb/db/version_set.cc:179-186 | no object is leaked if and only if the edit adds no two equivalent files (same smallest key and number) to one level |
| VersionBuilders.BuildVersion | leveldb/db/version_set.cc:319-324 | the new version is Next of the current one; references grow by exactly its listings plus leaked objects; the assertion fails if and only if a level above 0 has adjacent overlap |
| FileNames.PaddedReadsBack | leveldb/db/filename.cc:9-15 | the decimal number can be read back from its padded form |
| FileNames.NamesDistinct | leveldb/db/filename.cc:22-37 | manifests of different numbers, temporary files and CURRENT never share a name |
| FileNames.SetCurrentFile | leveldb/db/filename.cc:39-54 | the file system ends as specified, for every outcome of write and rename |
| FileNames.SetCurrentAtomic | leveldb/db/filename.cc:39-54 | at every moment CURRENT names the old manifest or the new one, the new one at the end exactly on success, and no manifest is touched |
| ManifestSpec.SnapshotRebuilds | leveldb/db/version_set.cc:276-302 | the snapshot record alone rebuilds the version it was taken from |
| ManifestSpec.SnapshotPointers | leveldb/db/version_set.cc:276-288 | the snapshot record alone brings all compaction pointers back; it names the comparator and no log |
| ManifestSpec.RebuildsStep | leveldb/db/version_set.cc:347-354 | one more admissible record rebuilds the next version |
| ManifestSpec.ReplayGivesCurrent | leveldb/db/version_set.cc:304-384 | the manifest named by CURRENT replays to the current version and log_number_ |
| ManifestSpec.NextKeeps | leveldb/db/version_set.cc:319-324 | an admissible edit keeps the version free of repetitions and its numbers below next_file_number_ |
| ManifestSpec.LogAndApplyAtomic | leveldb/db/version_set.cc:304-384 | for every combination of I/O outcomes: the invariant holds, the disk replays to the new version exactly on success and to the old one otherwise, and a crash at any moment inside finds the old or, on success, the new one; a failed call still moves the compaction pointers |
| ManifestSpec.LogAndApplyLeaves | leveldb/db/version_set.cc:304-384 | on success the manifest has one more record (a new manifest: the snapshot and this one), with the files and pointers of the edit, the next file number and last sequence number of the moment of the call, the log number of the edit or else the one in use, and the previous log number likewise; the version set then has these log numbers; on failure version and log numbers stay |
| ManifestSpec.ReplayAlways | leveldb/db/version_set.cc:276-384 | over all runs of calls, successes and failures mixed: once a manifest is installed a restart finds the current version and log number; its last record names a next file number, which is not above the counter and exceeds every table and log number in the manifest, as every record but the snapshot does for those before it; and a crash at any moment finds the state after some number of calls |
| VersionSets.LinkLast | leveldb/db/version_set.cc:245-249 | the circular list gets the version as its last element |
| VersionSets.VersionSet.AppendVersion | leveldb/db/version_set.cc:235-250 | v is current and last; the old current version leaves the list exactly if nobody else holds it; each file keeps one reference per listing in a live version |
| VersionSets.VersionSet.CurrentIsLast | leveldb/db/version_set.h:133-134 | current_ == dummy_versions_.prev_, and next_ visits the live versions in order |
| VersionSets.VersionSet.Unref | leveldb/db/version_set.h:31-32 | the last reference takes the version out of the list and frees exactly its listings |
| VersionSets.VersionSet.NewFileNumber | leveldb/db/version_set.h:96 | returns the counter and increments it |
| VersionSets.VersionSet.WriteSnapshot | leveldb/db/version_set.cc:276-302 | appends the record with comparator, set pointers and every file of every level, and no log number |
| VersionSets.VersionSet.LogAndApply | leveldb/db/version_set.cc:304-384 | fields, disk and status are those of LogAndApplyOn, with the record in the manifest as LogAndApplyLeaves has it, whatever the other threads do in the window: counters that advance, versions that gain and lose references and go with their last; list and reference counts stay right; no object is leaked if and only if the edit adds no equivalent files; on failure nothing is installed |
| VersionSets.VersionSet.Meanwhile | leveldb/db/version_set.cc:346-364 | references that readers take and give back in the window leave a version that is built and not yet installed as it is |
| VersionReads.SearchIsNewestFirst | leveldb/db/version_set.h:72-73 | in a sane version the search visits exactly the files whose range has the key, in descending file number over all levels |
| VersionReads.GetState.Match | leveldb/db/version_set.cc:39-76 | an unreadable file ends the search with an error, a value or deletion ends it, nothing found goes on |
| VersionReads.Get | leveldb/db/version_set.cc:22-97 | Error if and only if an unreadable file comes before every file with a visible entry; otherwise a value v if and only if the newest visible entry of the whole version has the value v, and NotFound if and only if there is no visible entry or the newest is a deletion |
| VersionReads.MoveLevels | leveldb/db/db_impl.cc:221-228 | the edit of a trivial move takes the file from its level, puts it one below and touches nothing else; it is admissible |
| VersionReads.MoveKeepsSane | leveldb/db/db_impl.cc:221-228 | a trivial move keeps sorting, disjointness and the order of ages |
| VersionReads.MoveKeepsReads | leveldb/db/db_impl.cc:221-228 | a trivial move changes the result of no Get, also with tables that cannot be read: the files are searched in the same order and have the same entries |
| VersionReads.FlushKeepsSane | leveldb/db/db_impl.cc:110-121 | adding the flushed table at a level the contract allows keeps the version sane and adds exactly its entries |
| MemTables.MemTable.Add | leveldb/db/memtable.h:37-41 | the contents grow by exactly the entry |
| MemTables.MemTable.Get | leveldb/db/memtable.h:43-47 | finds the newest entry of the key at or below the sequence number, if there is one |
| DbInvariants.MakeRoomContract | leveldb/db/db_impl.cc:262-319 | exactly when the loop reports an error, sleeps, waits, says OK and switches, as conditions on the state and the outcomes: at most one switch, none over a non-null imm_ or without a log file; after a switch imm_ is the old memtable, the new one is empty and has the new log, and a call is scheduled; otherwise nothing has changed |
| DbInvariants.AsWrittenExact | leveldb/db/db_impl.cc:268-270 | with line 268 as written the loop does what is intended if and only if there is no error, no delay, no force and room (or, with an error, if a log file is tried and fails) |
| DbStore.SwitchKeeps | leveldb/db/db_impl.cc:296-315 | a switch without imm_ loses nothing and keeps every needed log |
| DbStore.InstallKeeps | leveldb/db/db_impl.cc:145-156 | installing the flush and retiring all logs before logfile_number_ loses nothing |
| DbStore.Durable | leveldb/db/db_impl.cc:145-156 | every inserted entry is in a table of the current version or in a log numbered at or above log_number_ |
| DbQueue.RetireKeeps | leveldb/db/db_impl.cc:367-380 | the members of a group get the leader's status, followers are done and signalled, the next writer is signalled, and the groups stay in enqueue order with consecutive sequence numbers |
| DbQueue.OneGroup | leveldb/db/db_impl.cc:337-365 | a writer is in at most one group, at one place |
| DbGroups.BackInOneGroup | leveldb/db/db_impl.cc:321-383 | in every reachable state each writer that is back, with whatever status, is in exactly one group and has its status; a batch acknowledged with OK is in a group that was attempted, logged and inserted as a whole |
| DbGroups.LedOnce | leveldb/db/db_impl.cc:341-380 | whoever got past MakeRoomForWrite in some state and is back in a later one, with whatever status, was retired at the head of exactly one attempted group, with the members and the record with which it was formed; none of the members is in any other group |
| DbQueue.Contiguous | leveldb/db/db_impl.cc:338-364 | groups follow the enqueue order; their sequence numbers follow each other without gap or overlap up to last_sequence_ |
| DbSteps.ProceedKeeps | leveldb/db/db_impl.cc:337-345 | MakeRoomForWrite and the forming of the group keep all invariants |
| DbSteps.ConcludeStep | leveldb/db/db_impl.cc:357-380 | the end of the leader's window keeps all invariants |
| DbBackground.LogFlushStep | leveldb/db/db_impl.cc:141-149 | the step from the finished table to LogAndApply keeps all invariants |
| DbBackground.InstallStep | leveldb/db/db_impl.cc:149-160 | the installation of a version and the end of the background call keep all invariants |
| DbBackground.ReadKeeps | leveldb/db/db_impl.cc:407-419 | every step of a Get keeps: no hit so far where it has looked, or the newest entry of the history |
| DbBackground.StepKeeps | leveldb/db/db_impl.cc:87-428 | every step of every thread keeps all invariants |
| DbTheorems.RunKeeps | leveldb/db/db_impl.cc:87-428 | the invariants hold after every run, any number of writers and readers interleaved with the background thread |
| DbTheorems.OpenedOk | leveldb/db/db_impl.cc:41-75 | a database opened on any sane version satisfies the invariants |
| DbTheorems.Durability | leveldb/db/db_impl.cc:130-160 | in every reachable state each entry of each successful group is in a table of the current version or in a log numbered at or above log_number_ |
| DbTheorems.WriteDurable | leveldb/db/db_impl.cc:321-383 | in every reachable state each operation of each Write that returned OK is safe in that sense, as the very entry, with the sequence number, that its group made of it |
| DbTheorems.CrashSafe | leveldb/db/version_set.cc:345-371 | in any state, also between the manifest write and the installation, the version and the log number last written to the manifest lead to every inserted entry |
| DbLogs.RestartFinds | leveldb/db/db_impl.cc:145-156 | after every run what the manifest names has every inserted entry, and only entries that the database was opened with or that some group logged |
| DbManifest.RestartFromDisk | leveldb/db/version_set.cc:304-384 | for every run there is a run of admissible LogAndApply calls with the results of the machine's manifest writes, in order; replaying the disk that they leave finds the machine's manifest and with it every inserted entry, and a next file number above every table and log number in it |
| DbManifest.NeverTrips | leveldb/db/version_set.cc:224-228 | in no run of flushes and trivial moves does the assertion fail: the current version and the one to be installed have no adjacent overlap above level 0, if the files at the start have their smallest key first |
| DbRuns.SnapshotExact | leveldb/db/db_impl.cc:385-428 | in every reachable state a Get that has ended, and met no unreadable table, has returned the value of the newest entry at or below its snapshot in the history of inserted entries, and NotFound if and only if there is none or it is a deletion, whatever ran in between |
| DbReads.GetAnswers | leveldb/db/db_impl.cc:385-428 | for every call Get(key, snapshot) after any run and whatever runs until it ends: the answer is that of the newest entry of the key at or below the given snapshot, or without one at or below the last sequence number of that moment, among the entries inserted when it began, unless a visited table cannot be read |
| DbReads.GetEnds | leveldb/db/db_impl.cc:407-419 | a Get has ended after three accesses at most, and until then its next access is possible in every state |
| DbTheorems.ReadFails | leveldb/db/version_set.cc:52-58 | a read step reports an error only if a visited table cannot be read |
| DbRuns.InFlightHidden | leveldb/db/db_impl.cc:341-364 | in every reachable state a batch whose SetLastSequence has not happened is invisible as a whole to every reader |
| DbReads.AcknowledgedRead | leveldb/db/db_impl.cc:364-428 | a Get of the newest state that begins after a write was acknowledged returns its entry or a newer one of the key, whatever runs until it ends, unless a table it visits cannot be read |
| DbRuns.OneLeader | leveldb/db/db_impl.cc:327-345 | in every reachable state at most one writer is in the unlocked window, and it is writers_.front() |
| DbRuns.FrontAlert | leveldb/db/db_impl.cc:327-335 | in every reachable state a non-empty queue has a front that runs, is signalled, or waits for background work that has signalled it or is scheduled, unless the database is closing |
| DbRuns.FollowerDone | leveldb/db/db_impl.cc:367-375 | in every reachable state each popped follower is done, has the status of the leader of its group, and is signalled or back |
| DbRuns.LeaderKept | leveldb/db/db_impl.cc:344-357 | mem_ and log_ are not swapped under an active leader and its record stays, whatever step follows whatever run |
| DbRuns.GroupInOrder | leveldb/db/db_impl.cc:337-345 | after every run each group whose leader got past MakeRoomForWrite consists of the next writers in enqueue order, and its record is their batches in that order under the sequence numbers right behind those of the groups before, failed ones included |
| DbWrites.WindowFollowed | leveldb/db/db_impl.cc:345-365 | over every run, for each attempted group: its leader appended the record; synced the log if and only if it was called with sync and the append succeeded; inserted the entries one by one only if all that had succeeded; any failure ended the window; and the status is OK if and only if all of it succeeded, so a write with sync that returns OK has been synced |
| DbTurns.FirstTurnExact | leveldb/db/db_impl.cc:332-345 | a batch sleeps in its first turn if and only if there is no error and level 0 has eight files, and below that is written at once where there is room; a call without a batch never sleeps and switches memtables although there is room |
| DbTurns.NapsOnce | leveldb/db/db_impl.cc:271-281 | a Write whose sleep has ended never sleeps again, whatever runs |
| DbTurns.NoBatchSwitches | leveldb/db/db_impl.cc:337-340 | when a Write without a batch has returned OK, memtables have been switched since it was called |
| DbTurns.AnyGroup | leveldb/db/db_impl.cc:337-345 | in every reachable state the front that finds room may lead any prefix of the queue in which all have batches, with their operations stamped behind last_sequence_ |
| DbTurns.PoppedReturns | leveldb/db/db_impl.cc:329-334 | a follower that was popped returns when it runs, and changes nothing else |
| DbRuns.ExactlyOnce | leveldb/db/db_impl.cc:345-365 | whenever no leader is in the window: the logs, each as it was at the start followed by its own slice of the journal, have got exactly the records of the groups that logged, once and in order, the memtables the entries of those that inserted, none twice, and last_sequence_ grew by the entries of all groups |
| DbLogs.LogsAreSlices | leveldb/db/db_impl.cc:296-315 | in every reachable state the logs hold the journal cut into consecutive slices, one for each memtable, without gap or overlap; a log is dropped only when it is no longer needed |
| DbLogs.LoggedOnce | leveldb/db/db_impl.cc:345-350 | in every reachable state the record (if not empty) of a group that was logged stands at exactly one place of exactly one log until that log is dropped, and that of any other group nowhere; the logs at the start hold only entries of the version |
| DbTheorems.InsertedOnce | leveldb/db/db_impl.cc:354-356 | also while a leader inserts, no entry is inserted twice |
| DbRuns.WaitersServed | leveldb/db/db_impl.cc:162-200 | in every reachable state imm_, or a level 0 at its trigger, means a scheduled call unless there is an error or shutdown; at most one call is queued or running; who waits unwoken waits for a scheduled call |
| DbWork.CallsForWork | leveldb/db/db_impl.cc:162-177 | a step adds a call only if there is an immutable memtable, a full level 0 or another need for compaction, no error, and the database is not closing |
| DbWork.CallEnds | leveldb/db/db_impl.cc:194-199 | when a call ends all stalled writers are awake, and another call is scheduled if and only if there is work, no error and no shutdown |
| DbWork.SeekSchedules | leveldb/db/db_impl.cc:421-423 | a Get that asks for it gets a call scheduled, if there is work, no error and no shutdown |
| DbWork.StartExact | leveldb/db/db_impl.cc:183-228 | a call that starts does nothing if and only if the database is closing, has an error, or has neither imm_ nor a file to move; imm_ is flushed before any file is moved |
| DbWork.FlushGoesOn | leveldb/db/db_impl.cc:138-149 | a flush goes on to the manifest if and only if its table was built and the database is not closing; otherwise the error is recorded and the call ends |
| DbWork.FlushTarget | leveldb/db/db_impl.cc:110-121 | in every reachable state the version that a flush is about to install has exactly the files of the current one, and the new table on the level picked |
| DbWork.MoveTarget | leveldb/db/db_impl.cc:221-228 | in every reachable state the version that a trivial move is about to install has exactly the files of the current one, with the file one level below |
| DbWork.InstallsTarget | leveldb/db/db_impl.cc:149-159 | a version whose record was written becomes current with its log number, and imm_ goes if it was a flush; otherwise nothing changes and the error is recorded |
| DbWork.FlushRuns | leveldb/db/db_impl.cc:130-208 | in every reachable state with imm_, a queued call, no error and no shutdown, the flush can run through, for every table of imm_ and every level the contract allows, also for an empty imm_: then imm_ is null, its entries are in the tables of the current version, no log is older than the current one and the waiting writers are awake |
| DbWork.FlushDone | leveldb/db/db_impl.cc:130-208 | after at most seven steps of the background thread, in any interleaving with all other threads, the entries of an immutable memtable are in the tables of the current version, unless there is an error or shutdown |
| DbWork.FlushNeverStuck | leveldb/db/db_impl.cc:183-208 | in every reachable state with imm_, no error and no shutdown the background thread can take a step |
| DbWork.ClosingEnds | leveldb/db/db_impl.cc:162-192 | from the moment shutting_down_ is set the background thread takes at most two more steps, whatever runs; while a call is scheduled it can take the next, and after the last none is scheduled |
| DbErrors.FailedStays | leveldb/db/db_impl.cc:168-169 | bg_error_ is never cleared |
| DbErrors.SyncErrorRecorded | leveldb/db/db_impl.cc:348-365 | a failed sync is the status of its group, and bg_error_ is set when the group is retired |
| DbErrors.WorkErrorRecorded | leveldb/db/db_impl.cc:138-159 | when a call ends in which building the table or writing the manifest failed, bg_error_ is set |
| DbErrors.NoWriteAfterError | leveldb/db/db_impl.cc:268-270 | once bg_error_ is set, no group but the one in the window is attempted any more, all others fail without a record, and every Write called from then on fails |
| DbRuns.InstallUnchanged | leveldb/db/version_set.cc:319-371 | in every reachable state the version from which a LogAndApply under way started is current, and a flush still has its imm_ and its log |
| DbTheorems.FlushAdmissible | leveldb/db/version_set.cc:304-317 | the edit of a flush meets the assertions log_number_ <= edit.log_number_ < next_file_number_ and everything the manifest theorems ask |
| DbTheorems.MoveAdmissible | leveldb/db/version_set.cc:304-317 | so does the edit of a trivial move |
| DbTheorems.EmptyAdmissible | leveldb/db/db_impl.cc:110-113 | so does the edit of a flush of an empty memtable |
| DbRuns.NumbersApart | leveldb/db/db_impl.cc:87-93 | in every reachable state table numbers and log numbers in use are distinct and below next_file_number_ |
| DbTheorems.OneWriteRuns | leveldb/db/db_impl.cc:321-383 | on an idle database with room one write runs through and is acknowledged |
| DbImpls.DBImpl.MaybeScheduleCompaction | leveldb/db/db_impl.cc:162-177 | schedules exactly when the specification does |
| DbImpls.DBImpl.MakeRoomForWrite | leveldb/db/db_impl.cc:262-319 | the loop ends, with the measure imm_ == nullptr, and does what MakeRoom specifies |
| DbImpls.DBImpl.EnterWrite | leveldb/db/db_impl.cc:322-345 | one step Enqueue of the machine |
| DbImpls.DBImpl.ResumeWrite | leveldb/db/db_impl.cc:329-345 | one step Run of the machine |
| DbImpls.DBImpl.AddRecord | leveldb/db/db_impl.cc:346 | one step AppendLog of the machine |
| DbImpls.DBImpl.SyncLogfile | leveldb/db/db_impl.cc:347-353 | one step SyncLog of the machine |
| DbImpls.DBImpl.InsertEntry | leveldb/db/db_impl.cc:354-356 | one step InsertNext of the machine |
| DbImpls.DBImpl.RetireGroup | leveldb/db/db_impl.cc:367-380 | the pop loop retires exactly the group and wakes the next writer |
| DbImpls.DBImpl.FinishWrite | leveldb/db/db_impl.cc:357-383 | one step Conclude of the machine |
| DbImpls.DBImpl.BackgroundCall | leveldb/db/db_impl.cc:183-232 | one step Start of the machine |
| DbImpls.DBImpl.BuildTable | leveldb/db/db_impl.cc:97-101 | one step Build of the machine |
| DbImpls.DBImpl.TableDone | leveldb/db/db_impl.cc:110-149 | one step LogFlush of the machine |
| DbImpls.DBImpl.LogAndApplyDone | leveldb/db/db_impl.cc:149-160 | one step InstallVersion of the machine |
| DbImpls.DBImpl.BeginGet | leveldb/db/db_impl.cc:385-400 | one step BeginRead of the machine |
| DbImpls.DBImpl.LookInMemtable | leveldb/db/db_impl.cc:409-413 | one step ReadOne of the machine, in a memtable |
| DbImpls.DBImpl.LookInVersion | leveldb/db/db_impl.cc:414-415 | one step ReadOne of the machine, in the version |

## Left out

- Byte formats of records, tables and internal keys: a record is its edit or batch, a table the set of its entries.
- `DoCompactionWork`, `PickCompaction`, manual compaction and the other `Compaction` members: they have no bodies; background work is a flush or a trivial move.
- `Finallize`: floating-point scores that only choose the next compaction.
- The 56-bit width of sequence numbers and 64-bit file numbers: both are unbounded here.
- Seek charging and `UpdateStats`: a Get may end with a call of `MaybeScheduleCompaction`, for whatever reason.
- `pending_outputs_` and the removal of table files: no table file is ever removed in the model.
- Reference counts of memtables: a reader keeps the memtables it took.
- Hardware memory ordering: the atomic accesses of the skip list are sequentially consistent single steps.
- Arena allocation, logging, statistics, `env_posix.cc`, the LRU and table caches, block format, filters.
- `DB::Open`: everything after its first return is unreachable; a run starts from any sane version with an empty memtable.
- Lost or reordered writes below a successful `Sync`: a file operation happens or does not.
- Fairness: that the environment runs a scheduled call and goes on with its steps is up to it; `DbWork.FlushDone` and `DbReads.GetEnds` bound the steps that are then needed.
- Several inserters at once on one skip list: the source requires external synchronization of writers.
- SkipListConcurrency.Interleave: follows one search; searches do not write, so several do not influence each other.
- DbReads.GetAnswers: like `DbRuns.SnapshotExact` says nothing about a Get that met an unreadable table; `VersionReads.Get` says exactly when a search reports that.
- DbImpls.DBImpl.BackgroundCall: the branch with a real compaction (lines 237-246) is absent.
