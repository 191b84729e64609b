/** The data of a database (leveldb/db/db_impl.h:49-63): memtables, log files, tables and the version set,
    with the updates that writers and the background thread make to them under the mutex.

    `mems` lists every memtable there has been.  The last one is mem_; if imm_ is set it is the one
    before.  Earlier ones have been flushed and stay in the list for reasoning only. */
module DbStore {
  import opened DbFormat
  import opened VersionEdits
  import opened BuilderSpec
  import opened Batching
  import opened VersionReads
  import opened ManifestSpec

  datatype Mem = Mem(entries: set<Entry>, log: nat)

  datatype Store = Store(
    mems: seq<Mem>,
    imm: bool,
    current: Levels,
    logNumber: nat,
    nextFile: nat,
    lastSequence: nat,
    logs: map<nat, seq<Record>>,
    tables: Tables,
    names: map<nat, FileMeta>,
    manifest: Recovered)  // what a restart would find, see ManifestSpec.ReplayAlways
  {
    ghost predicate Shaped() {
      |mems| >= if imm then 2 else 1
    }

    function LogfileNumber(): nat
      requires mems != []
    {
      mems[|mems| - 1].log
    }

    /** The number of memtables whose entries are in tables. */
    function Flushed(): nat
      requires Shaped()
    {
      |mems| - if imm then 2 else 1
    }

    /** The immutable memtable. */
    function Imm(): Mem
      requires Shaped() && imm
    {
      mems[|mems| - 2]
    }
  }

  ghost function Union(mems: seq<Mem>): set<Entry> {
    set i, e | 0 <= i < |mems| && e in mems[i].entries :: e
  }

  ghost function Logged(rs: seq<Record>): set<Entry> {
    set i, j | 0 <= i < |rs| && 0 <= j < |rs[i]| :: rs[i][j]
  }

  /** Every entry that has been inserted. */
  ghost function History(st: Store): set<Entry> {
    Union(st.mems)
  }

  // ---------------------------------------------------------------- invariants

  ghost predicate AllBelow(m: Mem, bound: int) {
    forall e :: e in m.entries ==> e.sequence <= bound
  }

  ghost predicate Older(m: Mem, n: Mem) {
    m.log < n.log && forall d, e :: d in m.entries && e in n.entries ==> d.sequence < e.sequence
  }

  /** Memtables were filled one after the other, with fresh sequence numbers up to `bound`. */
  ghost predicate MemsOk(mems: seq<Mem>, bound: int) {
    && (forall i :: 0 <= i < |mems| ==> AllBelow(mems[i], bound) && OneEach(mems[i].entries))
    && (forall i, j :: 0 <= i < j < |mems| ==> Older(mems[i], mems[j]))
  }

  /** What is not yet in tables is in a log that is still needed. */
  ghost predicate LogsOk(st: Store)
    requires st.Shaped()
  {
    && (forall i :: st.Flushed() <= i < |st.mems| ==>
          st.mems[i].log in st.logs && st.mems[i].entries <= Logged(st.logs[st.mems[i].log]))
    && st.logNumber <= st.mems[st.Flushed()].log
  }

  /** File numbers are handed out once. */
  ghost predicate NumbersOk(st: Store)
    requires st.Shaped()
  {
    && st.LogfileNumber() < st.nextFile
    && (forall n :: n in st.names ==> n < st.nextFile && forall i :: 0 <= i < |st.mems| ==> st.mems[i].log != n)
  }

  /** The current version is sane and holds what has been flushed. */
  ghost predicate VersionOk(st: Store)
    requires st.Shaped()
  {
    Sane(st.names, st.current, st.tables) && Entries(st.current, st.tables) == Union(st.mems[..st.Flushed()])
  }

  ghost predicate StoreOk(st: Store, bound: int) {
    st.Shaped() && MemsOk(st.mems, bound) && LogsOk(st) && NumbersOk(st) && VersionOk(st)
  }

  /** All that a restart can bring back: the tables of the version in the manifest, and the log files
      that are not older than the log number in the manifest. */
  ghost function Recoverable(st: Store): set<Entry> {
    Entries(st.manifest.version, st.tables) +
    (set n, e | n in st.logs && n >= st.manifest.logNumber && e in Logged(st.logs[n]) :: e)
  }

  // ---------------------------------------------------------------- facts about unions

  lemma UnionSplit(mems: seq<Mem>, k: nat)
    requires k <= |mems|
    ensures Union(mems) == Union(mems[..k]) + Union(mems[k..])
  {
    forall e | e in Union(mems) ensures e in Union(mems[..k]) + Union(mems[k..]) {
      var i :| 0 <= i < |mems| && e in mems[i].entries;
      if i < k { assert mems[..k][i] == mems[i]; } else { assert mems[k..][i - k] == mems[i]; }
    }
    forall e | e in Union(mems[k..]) ensures e in Union(mems) {
      var i :| 0 <= i < |mems[k..]| && e in mems[k..][i].entries;
      assert mems[k + i] == mems[k..][i];
    }
    forall e | e in Union(mems[..k]) ensures e in Union(mems) {
      var i :| 0 <= i < |mems[..k]| && e in mems[..k][i].entries;
      assert mems[i] == mems[..k][i];
    }
  }

  lemma UnionAppend(mems: seq<Mem>, m: Mem)
    ensures Union(mems + [m]) == Union(mems) + m.entries
  {
    UnionSplit(mems + [m], |mems|);
    assert (mems + [m])[..|mems|] == mems && (mems + [m])[|mems|..] == [m];
    UnionOne(m);
  }

  lemma UnionOne(m: Mem)
    ensures Union([m]) == m.entries
  {
    forall e | e in m.entries ensures e in Union([m]) {
      assert [m][0] == m;
    }
  }

  lemma LoggedAppend(rs: seq<Record>, r: Record)
    ensures Logged(rs) <= Logged(rs + [r])
    ensures forall j :: 0 <= j < |r| ==> r[j] in Logged(rs + [r])
    ensures forall e :: e in Logged(rs + [r]) ==> e in Logged(rs) || e in r
  {
    var rs' := rs + [r];
    forall e | e in Logged(rs) ensures e in Logged(rs') {
      var i, j :| 0 <= i < |rs| && 0 <= j < |rs[i]| && rs[i][j] == e;
      assert rs'[i][j] == e;
    }
    forall j | 0 <= j < |r| ensures r[j] in Logged(rs') {
      assert rs'[|rs|][j] == r[j];
    }
    forall e | e in Logged(rs') ensures e in Logged(rs) || e in r {
      var i, j :| 0 <= i < |rs'| && 0 <= j < |rs'[i]| && rs'[i][j] == e;
      if i < |rs| { assert rs[i][j] == e; }
    }
  }

  /** All entries ever inserted have different sequence numbers. */
  lemma HistoryOneEach(mems: seq<Mem>, bound: int)
    requires MemsOk(mems, bound)
    ensures OneEach(Union(mems))
  {
    forall d, e | d in Union(mems) && e in Union(mems) && d.sequence == e.sequence ensures d == e {
      var i :| 0 <= i < |mems| && d in mems[i].entries;
      var j :| 0 <= j < |mems| && e in mems[j].entries;
      assert i < j ==> Older(mems[i], mems[j]);
      assert j < i ==> Older(mems[j], mems[i]);
    }
  }

  // ---------------------------------------------------------------- durability

  /** Every inserted entry is in a table of the current version, or in a log numbered at or above
      log_number_. */
  lemma Durable(st: Store, bound: int, e: Entry)
    requires StoreOk(st, bound) && e in History(st)
    ensures e in Entries(st.current, st.tables) ||
            exists n :: n in st.logs && n >= st.logNumber && e in Logged(st.logs[n])
  {
    var i :| 0 <= i < |st.mems| && e in st.mems[i].entries;
    if i < st.Flushed() {
      assert st.mems[..st.Flushed()][i] == st.mems[i];
    } else {
      assert st.Flushed() < i ==> Older(st.mems[st.Flushed()], st.mems[i]);
    }
  }

  /** ... so a restart finds it, when the manifest describes the current version. */
  lemma HistoryRecoverable(st: Store, bound: int)
    requires StoreOk(st, bound) && st.manifest == Recovered(st.current, st.logNumber)
    ensures History(st) <= Recoverable(st)
  {
    forall e | e in History(st) ensures e in Recoverable(st) {
      Durable(st, bound, e);
    }
  }

  // ---------------------------------------------------------------- updates by writers

  /** log_->AddRecord. */
  function Appended(st: Store, r: Record): Store
    requires st.mems != [] && st.LogfileNumber() in st.logs
  {
    st.(logs := st.logs[st.LogfileNumber() := st.logs[st.LogfileNumber()] + [r]])
  }

  lemma AppendKeeps(st: Store, bound: int, r: Record)
    requires StoreOk(st, bound)
    ensures StoreOk(Appended(st, r), bound)
  {
    LoggedAppend(st.logs[st.LogfileNumber()], r);
  }

  /** One entry goes into mem_. */
  function WithEntry(st: Store, e: Entry): Store
    requires st.mems != []
  {
    var m := st.mems[|st.mems| - 1];
    st.(mems := st.mems[|st.mems| - 1 := m.(entries := m.entries + {e})])
  }

  lemma InsertKeepsMems(mems: seq<Mem>, bound: int, m: Mem, e: Entry)
    requires MemsOk(mems + [m], bound) && e.sequence > bound
    ensures MemsOk(mems + [m.(entries := m.entries + {e})], e.sequence)
  {
    var before, after := mems + [m], mems + [m.(entries := m.entries + {e})];
    forall i | 0 <= i < |after| ensures AllBelow(after[i], e.sequence) && OneEach(after[i].entries) {
      assert AllBelow(before[i], bound);
    }
    forall i, j | 0 <= i < j < |after| ensures Older(after[i], after[j]) {
      assert Older(before[i], before[j]) && AllBelow(before[i], bound);
    }
  }

  lemma InsertKeeps(st: Store, bound: int, e: Entry)
    requires StoreOk(st, bound) && e.sequence > bound
    requires e in Logged(st.logs[st.LogfileNumber()])
    ensures StoreOk(WithEntry(st, e), e.sequence)
    ensures History(WithEntry(st, e)) == History(st) + {e}
  {
    hide MemsOk, Sane, Entries, Union, Logged;
    var st' := WithEntry(st, e);
    var n := |st.mems| - 1;
    var init, m, m' := st.mems[..n], st.mems[n], st'.mems[n];
    assert st.mems == init + [m] && st'.mems == init + [m'];
    InsertKeepsMems(init, bound, m, e);
    UnionAppend(init, m);
    UnionAppend(init, m');
    assert st'.mems[..st.Flushed()] == st.mems[..st.Flushed()];
  }

  // ---------------------------------------------------------------- switching memtables

  /** Lines 297-313 of MakeRoomForWrite: a new log and a new memtable; the old one becomes immutable. */
  function Switched(st: Store): Store {
    st.(mems := st.mems + [Mem({}, st.nextFile)], imm := true, nextFile := st.nextFile + 1,
        logs := st.logs[st.nextFile := []])
  }

  lemma SwitchKeepsMems(mems: seq<Mem>, bound: int, log: nat)
    requires MemsOk(mems, bound) && forall i :: 0 <= i < |mems| ==> mems[i].log < log
    ensures MemsOk(mems + [Mem({}, log)], bound)
  {
    var after := mems + [Mem({}, log)];
    forall i, j | 0 <= i < j < |after| ensures Older(after[i], after[j]) {
      assert j < |mems| ==> Older(mems[i], mems[j]);
    }
    forall i | 0 <= i < |after| ensures AllBelow(after[i], bound) && OneEach(after[i].entries) {
      assert i < |mems| ==> AllBelow(mems[i], bound);
    }
  }

  lemma LogsBelow(st: Store, bound: int)
    requires StoreOk(st, bound)
    ensures forall i :: 0 <= i < |st.mems| ==> st.mems[i].log < st.nextFile
  {
    forall i | 0 <= i < |st.mems| ensures st.mems[i].log < st.nextFile {
      assert i < |st.mems| - 1 ==> Older(st.mems[i], st.mems[|st.mems| - 1]);
    }
  }

  /** Only without an immutable memtable does a switch lose nothing. */
  lemma SwitchKeeps(st: Store, bound: int)
    requires StoreOk(st, bound) && !st.imm
    ensures StoreOk(Switched(st), bound) && History(Switched(st)) == History(st)
  {
    LogsBelow(st, bound);
    hide MemsOk, Sane, Entries, Union, Logged;
    var st' := Switched(st);
    SwitchKeepsMems(st.mems, bound, st.nextFile);
    UnionAppend(st.mems, Mem({}, st.nextFile));
    assert st'.mems[..st'.Flushed()] == st.mems[..st.Flushed()];
    assert st'.mems[st.Flushed()] == st.mems[st.Flushed()];
  }

  // ---------------------------------------------------------------- updates by the background thread

  function NewNumber(st: Store): Store {
    st.(nextFile := st.nextFile + 1)
  }

  /** The flush has written a table under a number it had taken before. */
  function Built(st: Store, f: FileMeta, es: set<Entry>): Store {
    st.(names := st.names[f.number := f], tables := st.tables[f.number := es])
  }

  /** A new version is installed; a flushed memtable goes, and so do the logs that are no longer needed. */
  function WithVersion(st: Store, target: Levels, log: nat, flush: bool): Store {
    var st' := st.(current := target, logNumber := log);
    if flush then st'.(imm := false, logs := map n | n in st.logs && n >= log :: st.logs[n]) else st'
  }

  lemma NumberKeeps(st: Store, bound: int)
    requires StoreOk(st, bound)
    ensures StoreOk(NewNumber(st), bound)
  {
  }

  /** Names and tables of other files do not matter to a version. */
  lemma SaneGrows(names: map<nat, FileMeta>, v: Levels, tables: Tables, f: FileMeta, es: set<Entry>)
    requires Sane(names, v, tables) && f.number !in names
    ensures Sane(names[f.number := f], v, tables[f.number := es])
    ensures Entries(v, tables[f.number := es]) == Entries(v, tables)
  {
    var names', tables' := names[f.number := f], tables[f.number := es];
    forall l: nat, g | HasFile(v, l, g)
      ensures g.number != f.number && g.number in tables && tables'[g.number] == tables[g.number]
    {
      assert g in Elems(v[l]);
    }
    assert Proper(names', v) by {
      forall l | 0 <= l < NUM_LEVELS ensures Named(names', Elems(v[l])) {
        assert Named(names, Elems(v[l]));
      }
    }
    forall l, m, g, h | HasFile(v, l, g) && HasFile(v, m, h) && g.number > h.number ensures Ordered(tables', g, h) {
      assert Ordered(tables, g, h);
    }
    forall l, g, e | HasFile(v, l, g) && e in tables'[g.number] ensures e in Entries(v, tables) {
      EntryIn(v, tables, l, g, e);
    }
    forall l, g, e | HasFile(v, l, g) && g.number in tables && e in tables[g.number] ensures e in Entries(v, tables') {
      EntryIn(v, tables', l, g, e);
    }
    assert forall l, g :: 0 <= l < NUM_LEVELS && g in v[l] ==> HasFile(v, l, g);
  }

  /** The number of a table under construction: taken, and not used for anything else. */
  ghost predicate Taken(st: Store, number: nat) {
    && number < st.nextFile && number !in st.names
    && (forall i :: 0 <= i < |st.mems| ==> st.mems[i].log != number)
    && (forall n :: n in st.names ==> n < number)
  }

  lemma BuildKeeps(st: Store, bound: int, f: FileMeta, es: set<Entry>)
    requires StoreOk(st, bound) && Taken(st, f.number)
    ensures StoreOk(Built(st, f, es), bound)
    ensures History(Built(st, f, es)) == History(st)
  {
    SaneGrows(st.names, st.current, st.tables, f, es);
    hide Sane, Entries, Union, MemsOk;
  }

  /** What a new version has to hold. */
  ghost predicate Replaces(st: Store, target: Levels, flush: bool)
    requires st.Shaped()
  {
    && (flush ==> st.imm) && Sane(st.names, target, st.tables)
    && Entries(target, st.tables) == Entries(st.current, st.tables) + if flush then st.Imm().entries else {}
  }

  /** Installing the flush of imm_ retires all logs but the current one, and loses nothing. */
  lemma InstallKeeps(st: Store, bound: int, target: Levels, log: nat, flush: bool)
    requires StoreOk(st, bound) && Replaces(st, target, flush)
    requires log == if flush then st.LogfileNumber() else st.logNumber
    ensures StoreOk(WithVersion(st, target, log, flush), bound)
    ensures History(WithVersion(st, target, log, flush)) == History(st)
  {
    hide Sane, Entries, Union, MemsOk;
    var n := |st.mems| - 1;
    if flush {
      assert st.mems[..n] == st.mems[..n - 1] + [st.Imm()] && st.mems[..n][..n - 1] == st.mems[..n - 1];
      UnionAppend(st.mems[..n - 1], st.Imm());
    }
  }
}
