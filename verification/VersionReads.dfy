/** Reading a version (leveldb/db/version_set.cc:22-97), and the two edits that background work makes:
    adding a flushed table and moving a table one level down (leveldb/db/db_impl.cc:110-121, 221-228).

    A table is the set of its entries.  Two bodies are not in the repository and enter as stated
    contracts: the order in which files are visited (`SearchOrder`: the overlapping files of level 0,
    newest first, then deeper levels) and the level picked for a flushed table (`Placeable`). */
module VersionReads {
  import opened DbFormat
  import opened VersionEdits
  import opened BuilderSpec
  import opened Batching

  type Tables = map<nat, set<Entry>>

  // ---------------------------------------------------------------- the newest visible entry

  predicate Visible(e: Entry, key: int, snapshot: nat) {
    e.key == key && e.sequence <= snapshot
  }

  /** e is the newest entry of its key that the snapshot sees. */
  ghost predicate Newest(es: set<Entry>, key: int, snapshot: nat, e: Entry) {
    && e in es && Visible(e, key, snapshot)
    && forall d :: d in es && Visible(d, key, snapshot) ==> d.sequence <= e.sequence
  }

  /** The entry that a lookup in this set has to return; none if the snapshot sees no entry of the key. */
  ghost predicate Answers(es: set<Entry>, key: int, snapshot: nat, a: Option<Entry>) {
    if a.Some? then Newest(es, key, snapshot, a.value)
    else forall e :: e in es ==> !Visible(e, key, snapshot)
  }

  /** No sequence number is used twice. */
  ghost predicate OneEach(es: set<Entry>) {
    forall d, e :: d in es && e in es && d.sequence == e.sequence ==> d == e
  }

  lemma AnswerUnique(es: set<Entry>, key: int, snapshot: nat, a: Option<Entry>, b: Option<Entry>)
    requires OneEach(es) && Answers(es, key, snapshot, a) && Answers(es, key, snapshot, b)
    ensures a == b
  {
  }

  lemma {:induction false} AnswerExists(es: set<Entry>, key: int, snapshot: nat)
    ensures exists a :: Answers(es, key, snapshot, a)
    decreases |es|
  {
    if forall e :: e in es ==> !Visible(e, key, snapshot) {
      assert Answers(es, key, snapshot, None);
    } else {
      var e :| e in es && Visible(e, key, snapshot);
      AnswerExists(es - {e}, key, snapshot);
      var a :| Answers(es - {e}, key, snapshot, a);
      var best := if a.Some? && a.value.sequence > e.sequence then a.value else e;
      assert Answers(es, key, snapshot, Some(best));
    }
  }

  /** What a lookup returns. */
  ghost function Lookup(es: set<Entry>, key: int, snapshot: nat): (a: Option<Entry>)
    ensures Answers(es, key, snapshot, a)
  {
    AnswerExists(es, key, snapshot);
    var a :| Answers(es, key, snapshot, a);
    a
  }

  // ---------------------------------------------------------------- versions over tables

  predicate Overlap(f: FileMeta, g: FileMeta) {
    f.smallest.user <= g.largest.user && g.smallest.user <= f.largest.user
  }

  predicate InRange(f: FileMeta, key: int) {
    f.smallest.user <= key <= f.largest.user
  }

  ghost predicate Covers(f: FileMeta, es: set<Entry>) {
    forall e :: e in es ==> InRange(f, e.key)
  }

  /** All the entries of a version. */
  ghost function Entries(v: Levels, tables: Tables): set<Entry> {
    set l, f, e | 0 <= l < NUM_LEVELS && f in v[l] && f.number in tables && e in tables[f.number] :: e
  }

  /** The newer table has the newer entries. */
  ghost predicate Ordered(tables: Tables, f: FileMeta, g: FileMeta)
    requires f.number in tables && g.number in tables
  {
    forall d, e :: d in tables[f.number] && e in tables[g.number] ==> d.sequence > e.sequence
  }

  ghost predicate HasFile(v: Levels, l: nat, f: FileMeta) {
    l < NUM_LEVELS && f in v[l]
  }

  /** What background work keeps: files have their tables; the file with the larger number has the
      newer entries; levels above 0 do not overlap inside; of overlapping files on two levels the
      upper one is newer. */
  ghost predicate Sane(names: map<nat, FileMeta>, v: Levels, tables: Tables) {
    && Proper(names, v)
    && (forall l, f :: HasFile(v, l, f) ==>
         f.number in tables && Covers(f, tables[f.number]) && OneEach(tables[f.number]))
    && (forall l, m, f, g :: HasFile(v, l, f) && HasFile(v, m, g) && l != m ==> f.number != g.number)
    && (forall l, m, f, g :: HasFile(v, l, f) && HasFile(v, m, g) && f.number > g.number ==> Ordered(tables, f, g))
    && (forall l, f, g :: 0 < l && HasFile(v, l, f) && HasFile(v, l, g) && f != g ==> !Overlap(f, g))
    && (forall l, m, f, g :: l < m && HasFile(v, l, f) && HasFile(v, m, g) && Overlap(f, g) ==> f.number > g.number)
  }

  lemma FileOf(names: map<nat, FileMeta>, v: Levels, tables: Tables, e: Entry) returns (l: nat, f: FileMeta)
    requires Sane(names, v, tables) && e in Entries(v, tables)
    ensures HasFile(v, l, f) && f.number in tables && e in tables[f.number] && InRange(f, e.key)
  {
    var m, g :| 0 <= m < NUM_LEVELS && g in v[m] && g.number in tables && e in tables[g.number];
    l, f := m, g;
    assert HasFile(v, l, f);
  }

  lemma EntryIn(v: Levels, tables: Tables, l: nat, f: FileMeta, e: Entry)
    requires HasFile(v, l, f) && f.number in tables && e in tables[f.number]
    ensures e in Entries(v, tables)
  {
  }

  lemma HasTable(names: map<nat, FileMeta>, v: Levels, tables: Tables, l: nat, f: FileMeta)
    requires Sane(names, v, tables) && HasFile(v, l, f)
    ensures f.number in tables && OneEach(tables[f.number]) && tables[f.number] <= Entries(v, tables)
  {
  }

  lemma LargerIsNewer(names: map<nat, FileMeta>, v: Levels, tables: Tables, l: nat, f: FileMeta, m: nat, g: FileMeta)
    requires Sane(names, v, tables) && HasFile(v, l, f) && HasFile(v, m, g) && f.number > g.number
    ensures f.number in tables && g.number in tables && Ordered(tables, f, g)
  {
  }

  /** A number belongs to one file. */
  lemma SameNumber(names: map<nat, FileMeta>, v: Levels, tables: Tables, l: nat, f: FileMeta, m: nat, g: FileMeta)
    requires Sane(names, v, tables) && HasFile(v, l, f) && HasFile(v, m, g) && f.number == g.number
    ensures f == g && l == m
  {
    assert f in Elems(v[l]) && g in Elems(v[m]);
  }

  // ---------------------------------------------------------------- the order of the search

  function Filter(s: Files, key: int): Files {
    if s == [] then [] else (if InRange(s[0], key) then [s[0]] else []) + Filter(s[1..], key)
  }

  /** Insert by descending number. */
  function InsertNewest(s: Files, f: FileMeta): Files {
    if s == [] || f.number > s[0].number then [f] + s else [s[0]] + InsertNewest(s[1..], f)
  }

  function NewestFirst(s: Files): Files {
    if s == [] then [] else InsertNewest(NewestFirst(s[1..]), s[0])
  }

  function Deeper(v: Levels, l: nat, key: int): Files
    requires l <= NUM_LEVELS
    decreases NUM_LEVELS - l
  {
    if l == NUM_LEVELS then [] else Filter(v[l], key) + Deeper(v, l + 1, key)
  }

  /** The files that ForEachOverlapping visits. */
  function SearchOrder(v: Levels, key: int): Files {
    NewestFirst(Filter(v[0], key)) + Deeper(v, 1, key)
  }

  ghost predicate Descending(s: Files) {
    forall i, j :: 0 <= i < j < |s| ==> s[i].number > s[j].number
  }

  lemma {:induction false} FilterMembers(s: Files, key: int)
    ensures forall f :: f in Filter(s, key) <==> f in s && InRange(f, key)
  {
    if s != [] {
      FilterMembers(s[1..], key);
      assert s == [s[0]] + s[1..];
    }
  }

  lemma {:induction false} InsertNewestMembers(s: Files, f: FileMeta)
    ensures forall g :: g in InsertNewest(s, f) <==> g in s || g == f
    ensures Descending(s) && (forall g :: g in s ==> g.number != f.number) ==> Descending(InsertNewest(s, f))
  {
    if s != [] && f.number <= s[0].number {
      InsertNewestMembers(s[1..], f);
      assert s == [s[0]] + s[1..];
      var rest := InsertNewest(s[1..], f);
      assert InsertNewest(s, f) == [s[0]] + rest;
      if Descending(s) && (forall g :: g in s ==> g.number != f.number) {
        forall i | 0 <= i < |rest| ensures s[0].number > rest[i].number {
          assert rest[i] in rest;
        }
      }
    }
  }

  /** Files of one level have different numbers. */
  ghost predicate DistinctNumbers(s: Files) {
    forall i, j :: 0 <= i < j < |s| ==> s[i].number != s[j].number
  }

  lemma {:induction false} NewestFirstSorts(s: Files)
    ensures forall g :: g in NewestFirst(s) <==> g in s
    ensures DistinctNumbers(s) ==> Descending(NewestFirst(s))
  {
    if s != [] {
      NewestFirstSorts(s[1..]);
      InsertNewestMembers(NewestFirst(s[1..]), s[0]);
      assert s == [s[0]] + s[1..];
    }
  }

  lemma {:induction false} FilterNumbers(s: Files, key: int)
    requires DistinctNumbers(s)
    ensures DistinctNumbers(Filter(s, key))
  {
    if s != [] {
      FilterNumbers(s[1..], key);
      FilterMembers(s[1..], key);
      var rest := Filter(s[1..], key);
      forall i | 0 <= i < |rest| ensures rest[i].number != s[0].number {
        assert rest[i] in rest;
      }
    }
  }

  lemma ProperNumbers(names: map<nat, FileMeta>, s: Files)
    requires Strict(s) && Named(names, Elems(s))
    ensures DistinctNumbers(s)
  {
    forall i, j | 0 <= i < j < |s| ensures s[i].number != s[j].number {
      assert s[i] in Elems(s) && s[j] in Elems(s) && Before(s[i], s[j]);
    }
  }

  lemma DescendingConcat(a: Files, b: Files)
    requires Descending(a) && Descending(b)
    requires forall i, j :: 0 <= i < |a| && 0 <= j < |b| ==> a[i].number > b[j].number
    ensures Descending(a + b)
  {
  }

  /** Above level 0 at most one file of a level can hold the key. */
  lemma AtMostOne(names: map<nat, FileMeta>, v: Levels, tables: Tables, l: nat, key: int)
    requires Sane(names, v, tables) && 0 < l < NUM_LEVELS
    ensures |Filter(v[l], key)| <= 1
  {
    var here := Filter(v[l], key);
    FilterMembers(v[l], key);
    ProperNumbers(names, v[l]);
    FilterNumbers(v[l], key);
    if |here| > 1 {
      assert here[0] in here && here[1] in here;
      assert HasFile(v, l, here[0]) && HasFile(v, l, here[1]);
    }
  }

  lemma UpperIsNewer(names: map<nat, FileMeta>, v: Levels, tables: Tables, l: nat, m: nat, f: FileMeta, g: FileMeta,
                     key: int)
    requires Sane(names, v, tables) && l < m && HasFile(v, l, f) && HasFile(v, m, g) && InRange(f, key)
    requires InRange(g, key)
    ensures f.number > g.number
  {
    assert Overlap(f, g);
  }

  lemma {:induction false} DeeperOrder(names: map<nat, FileMeta>, v: Levels, tables: Tables, l: nat, key: int)
    requires Sane(names, v, tables) && 0 < l <= NUM_LEVELS
    ensures forall f :: f in Deeper(v, l, key) <==> InRange(f, key) && exists m :: l <= m && HasFile(v, m, f)
    ensures Descending(Deeper(v, l, key))
    decreases NUM_LEVELS - l
  {
    if l < NUM_LEVELS {
      var here, rest := Filter(v[l], key), Deeper(v, l + 1, key);
      assert Deeper(v, l, key) == here + rest;
      hide Sane, Filter, Deeper;
      DeeperOrder(names, v, tables, l + 1, key);
      FilterMembers(v[l], key);
      AtMostOne(names, v, tables, l, key);
      forall i, j | 0 <= i < |here| && 0 <= j < |rest| ensures here[i].number > rest[j].number {
        assert here[i] in here && rest[j] in rest;
        var m :| l + 1 <= m && HasFile(v, m, rest[j]);
        UpperIsNewer(names, v, tables, l, m, here[i], rest[j], key);
      }
      DescendingConcat(here, rest);
      forall f ensures f in here + rest <==> InRange(f, key) && exists m :: l <= m && HasFile(v, m, f) {
        assert f in here ==> HasFile(v, l, f);
      }
    }
  }

  /** The search visits exactly the files whose range contains the key, newest first over all levels. */
  lemma SearchIsNewestFirst(names: map<nat, FileMeta>, v: Levels, tables: Tables, key: int)
    requires Sane(names, v, tables)
    ensures Descending(SearchOrder(v, key))
    ensures forall f :: f in SearchOrder(v, key) <==> InRange(f, key) && exists l :: HasFile(v, l, f)
  {
    var here, rest := NewestFirst(Filter(v[0], key)), Deeper(v, 1, key);
    assert Strict(v[0]) && Named(names, Elems(v[0]));
    hide Sane, Filter, Deeper, NewestFirst, Strict, Named;
    DeeperOrder(names, v, tables, 1, key);
    FilterMembers(v[0], key);
    ProperNumbers(names, v[0]);
    FilterNumbers(v[0], key);
    NewestFirstSorts(Filter(v[0], key));
    forall i, j | 0 <= i < |here| && 0 <= j < |rest| ensures here[i].number > rest[j].number {
      assert here[i] in here && rest[j] in rest;
      assert HasFile(v, 0, here[i]);
      var m :| 1 <= m && HasFile(v, m, rest[j]);
      UpperIsNewer(names, v, tables, 0, m, here[i], rest[j], key);
    }
    DescendingConcat(here, rest);
    forall f ensures f in here + rest <==> InRange(f, key) && exists m :: HasFile(v, m, f) {
      assert f in here ==> HasFile(v, 0, f);
      if InRange(f, key) && exists m :: HasFile(v, m, f) {
        var m :| HasFile(v, m, f);
        assert m == 0 || (1 <= m && HasFile(v, m, f));
      }
    }
  }

  // ---------------------------------------------------------------- Version::Get

  datatype GetResult = Value(value: string) | NotFound | Error

  /** How reading a table ends: an I/O error, a corrupted key, or an answer. */
  datatype Outcome = Fine | IOError | Corruption

  function ResultOf(a: Option<Entry>): GetResult {
    if a.Some? && a.value.value.Some? then Value(a.value.value.value) else NotFound
  }

  /** r is what these entries say about the key at this snapshot: the value of the newest visible entry,
      and NotFound if that is a deletion or if there is none. */
  ghost predicate GivesNewest(r: GetResult, es: set<Entry>, key: int, snapshot: nat) {
    && (forall v :: r == Value(v) <==> exists e :: Newest(es, key, snapshot, e) && e.value == Some(v))
    && (r == NotFound <==>
          (forall e :: e in es ==> !Visible(e, key, snapshot)) ||
          exists e :: Newest(es, key, snapshot, e) && e.value == None)
  }

  lemma ResultGives(es: set<Entry>, key: int, snapshot: nat)
    requires OneEach(es)
    ensures GivesNewest(ResultOf(Lookup(es, key, snapshot)), es, key, snapshot)
  {
    var a := Lookup(es, key, snapshot);
    forall e | Newest(es, key, snapshot, e) ensures a == Some(e) {
      assert Answers(es, key, snapshot, Some(e));
      AnswerUnique(es, key, snapshot, a, Some(e));
    }
  }

  function OutcomeOf(outcomes: map<nat, Outcome>, f: FileMeta): Outcome {
    if f.number in outcomes then outcomes[f.number] else Fine
  }

  /** Some unreadable file comes in the search before every file that holds a visible entry of the key. */
  ghost predicate Fails(order: Files, tables: Tables, key: int, snapshot: nat, outcomes: map<nat, Outcome>) {
    exists i :: 0 <= i < |order| && OutcomeOf(outcomes, order[i]) != Fine && NoneBefore(order, i, tables, key, snapshot)
  }

  ghost predicate NoneBefore(order: Files, n: nat, tables: Tables, key: int, snapshot: nat) {
    n <= |order| && forall j :: 0 <= j < n ==>
      order[j].number in tables && Answers(tables[order[j].number], key, snapshot, None)
  }

  datatype SaverState = SaverNotFound | SaverFound(value: string) | SaverDeleted | SaverCorrupt

  /** TableCache::Get with SaveValue: seek to the first entry at or after the lookup key. */
  method TableGet(es: set<Entry>, key: int, snapshot: nat, outcome: Outcome) returns (s: Status, saver: SaverState)
    ensures s == if outcome == IOError then Failed else OK
    ensures outcome == Corruption ==> saver == SaverCorrupt
    ensures outcome == Fine && OneEach(es) ==> saver == Saved(Lookup(es, key, snapshot))
  {
    s, saver := if outcome == IOError then Failed else OK, SaverCorrupt;
    if outcome == Fine {
      var best, rest := None, es;
      while rest != {}
        invariant rest <= es && Answers(es - rest, key, snapshot, best)
        decreases rest
      {
        var e :| e in rest;
        if Visible(e, key, snapshot) && (best == None || best.value.sequence < e.sequence) {
          best := Some(e);
        }
        rest := rest - {e};
      }
      assert es - rest == es;
      if OneEach(es) { AnswerUnique(es, key, snapshot, best, Lookup(es, key, snapshot)); }
      saver := Saved(best);
    }
  }

  function Saved(a: Option<Entry>): SaverState {
    if a == None then SaverNotFound else if a.value.value.Some? then SaverFound(a.value.value.value) else SaverDeleted
  }

  /** The state that Version::Get hands to its callback. */
  class GetState {
    var saver: SaverState
    var status: Status
    var found: bool

    constructor ()
      ensures saver == SaverNotFound && status == OK && !found
    {
      saver, status, found := SaverNotFound, OK, false;
    }

    /** The callback: look into one file; the result says whether to go on. */
    method Match(es: set<Entry>, key: int, snapshot: nat, outcome: Outcome) returns (more: bool)
      requires OneEach(es)
      modifies this
      ensures outcome != Fine ==> !more && found && status == Failed
      ensures outcome == Fine ==> saver == Saved(Lookup(es, key, snapshot)) && status == OK
      ensures outcome == Fine ==> more == saver.SaverNotFound? && found == (old(found) || saver.SaverFound?)
    {
      status, saver := TableGet(es, key, snapshot, outcome);
      if status != OK {
        found := true;
        return false;
      }
      match saver
      case SaverNotFound => return true;
      case SaverFound(_) => found := true; return false;
      case SaverDeleted => return false;
      case SaverCorrupt => status, found := Failed, true; return false;
    }
  }

  /** The newest visible entry of all tables of the version, or an error if an unreadable table comes first. */
  ghost function GetOf(v: Levels, tables: Tables, key: int, snapshot: nat, outcomes: map<nat, Outcome>): GetResult {
    if Fails(SearchOrder(v, key), tables, key, snapshot, outcomes) then Error
    else ResultOf(Lookup(Entries(v, tables), key, snapshot))
  }

  /** Version::Get: an error exactly if an unreadable file comes first, else what the newest visible entry
      of the whole version says. */
  method Get(ghost names: map<nat, FileMeta>, v: Levels, tables: Tables, key: int, snapshot: nat, outcomes: map<nat,
             Outcome>)
    returns (r: GetResult)
    requires Sane(names, v, tables)
    ensures r == GetOf(v, tables, key, snapshot, outcomes)
    ensures r == Error <==> Fails(SearchOrder(v, key), tables, key, snapshot, outcomes)
    ensures r != Error ==> GivesNewest(r, Entries(v, tables), key, snapshot)
  {
    hide Sane, SearchOrder, Entries, Lookup, OneEach, OutcomeOf, GivesNewest;
    EntriesOneEach(names, v, tables);
    ResultGives(Entries(v, tables), key, snapshot);
    var order := SearchOrder(v, key);
    SearchHasTables(names, v, tables, key);
    var state := new GetState();
    var more, i: nat := true, 0;
    while i < |order| && more
      invariant i <= |order| && (more ==> NoneBefore(order, i, tables, key, snapshot) && !state.found)
      invariant !more ==>
                  i > 0 && Stopped(order, i - 1, tables, key, snapshot, outcomes, state.saver, state.status,
                                   state.found)
      invariant forall j :: 0 <= j < (if more then i else i - 1) ==> OutcomeOf(outcomes, order[j]) == Fine
    {
      more := state.Match(tables[order[i].number], key, snapshot, OutcomeOf(outcomes, order[i]));
      i := i + 1;
    }
    if more {
      NoHit(names, v, tables, key, snapshot);
    } else {
      StopMeans(names, v, tables, key, snapshot, outcomes, i - 1);
    }
    r := if !state.found then NotFound else if state.status != OK then Error else Value(state.saver.value);
  }

  /** The search ended at file i. */
  ghost predicate Stopped(order: Files, i: nat, tables: Tables, key: int, snapshot: nat, outcomes: map<nat, Outcome>,
                          saver: SaverState, status: Status, found: bool) {
    && i < |order| && NoneBefore(order, i, tables, key, snapshot) && order[i].number in tables
    && if OutcomeOf(outcomes, order[i]) != Fine then found && status == Failed
       else
         var a := Lookup(tables[order[i].number], key, snapshot);
         a.Some? && saver == Saved(a) && status == OK && found == saver.SaverFound?
  }

  lemma SearchHasTables(names: map<nat, FileMeta>, v: Levels, tables: Tables, key: int)
    requires Sane(names, v, tables)
    ensures forall i :: 0 <= i < |SearchOrder(v, key)| ==>
              SearchOrder(v, key)[i].number in tables && OneEach(tables[SearchOrder(v, key)[i].number])
  {
    hide Sane, SearchOrder;
    SearchIsNewestFirst(names, v, tables, key);
    var order := SearchOrder(v, key);
    forall i | 0 <= i < |order| ensures order[i].number in tables && OneEach(tables[order[i].number]) {
      assert order[i] in order;
      var l :| HasFile(v, l, order[i]);
      HasTable(names, v, tables, l, order[i]);
    }
  }

  lemma EntriesOneEach(names: map<nat, FileMeta>, v: Levels, tables: Tables)
    requires Sane(names, v, tables)
    ensures OneEach(Entries(v, tables))
  {
    hide Sane, Entries;
    forall d, e | d in Entries(v, tables) && e in Entries(v, tables) && d.sequence == e.sequence ensures d == e {
      var l, f := FileOf(names, v, tables, d);
      var m, g := FileOf(names, v, tables, e);
      if f.number > g.number { LargerIsNewer(names, v, tables, l, f, m, g); }
      if g.number > f.number { LargerIsNewer(names, v, tables, m, g, l, f); }
      if g.number == f.number { HasTable(names, v, tables, l, f); }
    }
  }

  /** Nothing in any visited file: nothing in the version. */
  lemma NoHit(names: map<nat, FileMeta>, v: Levels, tables: Tables, key: int, snapshot: nat)
    requires Sane(names, v, tables) && NoneBefore(SearchOrder(v, key), |SearchOrder(v, key)|, tables, key, snapshot)
    ensures Answers(Entries(v, tables), key, snapshot, None)
    ensures Lookup(Entries(v, tables), key, snapshot) == None
  {
    hide Sane, SearchOrder, Entries;
    var order := SearchOrder(v, key);
    SearchIsNewestFirst(names, v, tables, key);
    forall e | e in Entries(v, tables) ensures !Visible(e, key, snapshot) {
      var l, f := FileOf(names, v, tables, e);
      if InRange(f, key) {
        assert f in order;
        var j :| 0 <= j < |order| && order[j] == f;
      }
    }
  }

  /** The first hit of the search is the newest entry of the version. */
  lemma FirstHitIsNewest(names: map<nat, FileMeta>, v: Levels, tables: Tables, key: int, snapshot: nat, i: nat,
                         e: Entry)
    requires Sane(names, v, tables) && i < |SearchOrder(v, key)|
    requires NoneBefore(SearchOrder(v, key), i, tables, key, snapshot)
    requires SearchOrder(v, key)[i].number in tables && Newest(tables[SearchOrder(v, key)[i].number], key, snapshot, e)
    ensures Newest(Entries(v, tables), key, snapshot, e)
  {
    hide Sane, SearchOrder, Entries;
    var order := SearchOrder(v, key);
    var g := order[i];
    SearchIsNewestFirst(names, v, tables, key);
    assert g in order;
    var m :| HasFile(v, m, g);
    HasTable(names, v, tables, m, g);
    forall d | d in Entries(v, tables) && Visible(d, key, snapshot) ensures d.sequence <= e.sequence {
      var l, f := FileOf(names, v, tables, d);
      assert InRange(f, key);
      assert f in order;
      var j :| 0 <= j < |order| && order[j] == f;
      if j > i { LargerIsNewer(names, v, tables, m, g, l, f); }
    }
  }

  lemma StopMeans(names: map<nat, FileMeta>, v: Levels, tables: Tables, key: int, snapshot: nat, outcomes: map<nat,
                  Outcome>, i: nat)
    requires var order := SearchOrder(v, key);
             && Sane(names, v, tables) && i < |order| && order[i].number in tables
             && NoneBefore(order, i, tables, key, snapshot)
             && (forall j :: 0 <= j < i ==> OutcomeOf(outcomes, order[j]) == Fine)
             && (OutcomeOf(outcomes, order[i]) == Fine ==> Lookup(tables[order[i].number], key, snapshot).Some?)
    ensures var order := SearchOrder(v, key);
            && Fails(order, tables, key, snapshot, outcomes) == (OutcomeOf(outcomes, order[i]) != Fine)
            && (OutcomeOf(outcomes, order[i]) == Fine ==>
                  Lookup(Entries(v, tables), key, snapshot) == Lookup(tables[order[i].number], key, snapshot))
  {
    hide Sane, SearchOrder, Entries, Lookup;
    var order := SearchOrder(v, key);
    if OutcomeOf(outcomes, order[i]) == Fine {
      var a := Lookup(tables[order[i].number], key, snapshot);
      FirstHitIsNewest(names, v, tables, key, snapshot, i, a.value);
      EntriesOneEach(names, v, tables);
      AnswerUnique(Entries(v, tables), key, snapshot, a, Lookup(Entries(v, tables), key, snapshot));
    }
  }

  // ---------------------------------------------------------------- moving a file one level down

  /** Lines 225-227 of leveldb/db/db_impl.cc. */
  function MoveEdit(level: nat, f: FileMeta): Edit {
    EMPTY.(deleted := {(level, f.number)}, added := [(level + 1, f)])
  }

  /** A compaction with one input file, whose inputs from its own level are all the files there that overlap. */
  ghost predicate Movable(v: Levels, level: nat, f: FileMeta) {
    && level + 1 < NUM_LEVELS && HasFile(v, level, f)
    && (forall g :: HasFile(v, level + 1, g) ==> !Overlap(f, g))
    && (level == 0 ==> forall g :: HasFile(v, 0, g) && g != f ==> !Overlap(f, g))
  }

  lemma MoveLevels(names: map<nat, FileMeta>, v: Levels, tables: Tables, level: nat, f: FileMeta)
    requires Sane(names, v, tables) && Movable(v, level, f)
    ensures var e := MoveEdit(level, f);
            && e.LevelsOk() && NamedEdit(names, e) && FreshAdds(v, e)
            && forall l, g :: HasFile(Next(v, e), l, g) <==>
                 (HasFile(v, l, g) && !(l == level && g == f)) || (l == level + 1 && g == f)
  {
    var e := MoveEdit(level, f);
    assert f in Elems(v[level]) && Named(names, {f});
    forall l | 0 <= l < NUM_LEVELS
      ensures AddedAt(e.added, l) == if l == level + 1 then {f} else {}
      ensures DeletedAt(e.deleted, l) == if l == level then {f.number} else {}
    {
      AddedAtOne(level + 1, f, l);
      assert (level, f.number) in e.deleted;
    }
    assert FreshAdds(v, e) by {
      if HasFile(v, level + 1, f) { SameNumber(names, v, tables, level, f, level + 1, f); }
    }
    forall l: nat, g ensures HasFile(Next(v, e), l, g) <==>
        (HasFile(v, l, g) && !(l == level && g == f)) || (l == level + 1 && g == f)
    {
      if l < NUM_LEVELS {
        NextLevel(names, v, e, l);
        assert g in Next(v, e)[l] <==> g in Elems(Next(v, e)[l]);
        assert g in v[l] <==> g in Elems(v[l]);
        if l == level && HasFile(v, l, g) && g.number == f.number { SameNumber(names, v, tables, l, g, level, f); }
      }
    }
  }

  /** Moving a file keeps the version sane ... */
  lemma MoveKeepsSane(names: map<nat, FileMeta>, v: Levels, tables: Tables, level: nat, f: FileMeta)
    requires Sane(names, v, tables) && Movable(v, level, f)
    ensures Sane(names, Next(v, MoveEdit(level, f)), tables)
  {
    MoveLevels(names, v, tables, level, f);
    var v' := Next(v, MoveEdit(level, f));
    NextProper(names, v, MoveEdit(level, f));
    hide Next, Proper, NamedEdit, FreshAdds;
    forall l, m, g, h | HasFile(v', l, g) && HasFile(v', m, h)
      ensures l != m ==> g.number != h.number
      ensures g.number > h.number ==> Ordered(tables, g, h)
      ensures 0 < l && l == m && g != h ==> !Overlap(g, h)
      ensures l < m && Overlap(g, h) ==> g.number > h.number
    {
      MovePair(names, v, v', tables, level, f, l, m, g, h);
    }
    assert forall l, g :: HasFile(v', l, g) ==> exists m :: HasFile(v, m, g);
  }

  lemma MovePair(names: map<nat, FileMeta>, v: Levels, v': Levels, tables: Tables, level: nat, f: FileMeta,
                 l: nat, m: nat, g: FileMeta, h: FileMeta)
    requires Sane(names, v, tables) && Movable(v, level, f) && HasFile(v', l, g) && HasFile(v', m, h)
    requires forall l, g :: HasFile(v', l, g) <==>
               (HasFile(v, l, g) && !(l == level && g == f)) || (l == level + 1 && g == f)
    ensures l != m ==> g.number != h.number
    ensures g.number > h.number ==> Ordered(tables, g, h)
    ensures 0 < l && l == m && g != h ==> !Overlap(g, h)
    ensures l < m && Overlap(g, h) ==> g.number > h.number
  {
    var l0 := if l == level + 1 && g == f then level else l;
    var m0 := if m == level + 1 && h == f then level else m;
    assert HasFile(v, l0, g) && HasFile(v, m0, h);
    if g.number == h.number { SameNumber(names, v, tables, l0, g, m0, h); }
    if g.number > h.number { LargerIsNewer(names, v, tables, l0, g, m0, h); }
    if 0 < l && l == m && g != h {
      if g == f && l == level + 1 {
        assert HasFile(v, level + 1, h);
      } else if h == f && l == level + 1 {
        assert HasFile(v, level + 1, g) && !Overlap(f, g);
      } else {
        assert HasFile(v, l, g) && HasFile(v, l, h);
      }
    }
  }

  /** ... and the entries of the version. */
  lemma MoveKeepsEntries(names: map<nat, FileMeta>, v: Levels, tables: Tables, level: nat, f: FileMeta)
    requires Sane(names, v, tables) && Movable(v, level, f)
    ensures Entries(Next(v, MoveEdit(level, f)), tables) == Entries(v, tables)
  {
    MoveLevels(names, v, tables, level, f);
    var v' := Next(v, MoveEdit(level, f));
    hide Next, Sane, NamedEdit, FreshAdds, Movable;
    forall l, g, e | HasFile(v, l, g) && g.number in tables && e in tables[g.number] ensures e in Entries(v', tables) {
      assert HasFile(v', if l == level && g == f then level + 1 else l, g);
    }
    forall l, g, e | HasFile(v', l, g) && g.number in tables && e in tables[g.number] ensures e in Entries(v, tables) {
      assert HasFile(v, l, g) || HasFile(v, level, g);
    }
    assert forall l, g :: 0 <= l < NUM_LEVELS && g in v[l] ==> HasFile(v, l, g);
    assert forall l, g :: 0 <= l < NUM_LEVELS && g in v'[l] ==> HasFile(v', l, g);
  }

  lemma DescendingHead(a: Files, b: Files)
    requires Descending(a) && Descending(b) && a != [] && b != []
    requires forall f :: f in a <==> f in b
    ensures a[0] == b[0]
  {
    HeadLargest(a);
    HeadLargest(b);
    assert a[0] in a && b[0] in b;
  }

  lemma HeadLargest(a: Files)
    requires Descending(a) && a != []
    ensures forall f :: f in a ==> f.number <= a[0].number && (f.number == a[0].number ==> f == a[0])
  {
  }

  lemma DescendingTail(a: Files, f: FileMeta)
    requires Descending(a) && a != []
    ensures Descending(a[1..]) && (f in a[1..] <==> f in a && f != a[0])
  {
    assert a == [a[0]] + a[1..];
    if i :| 0 <= i < |a[1..]| && a[1..][i] == f { assert a[0].number > a[i + 1].number; }
  }

  /** Files in descending order of their numbers stand in one order only. */
  lemma {:induction false} DescendingUnique(a: Files, b: Files)
    requires Descending(a) && Descending(b) && forall f :: f in a <==> f in b
    ensures a == b
  {
    hide Descending;
    HasMember(a);
    HasMember(b);
    if a != [] && b != [] {
      DescendingHead(a, b);
      DescendingTail(a, a[0]);
      DescendingTail(b, b[0]);
      forall f ensures f in a[1..] <==> f in b[1..] {
        DescendingTail(a, f);
        DescendingTail(b, f);
      }
      DescendingUnique(a[1..], b[1..]);
      assert a == [a[0]] + a[1..] && b == [b[0]] + b[1..];
    }
  }

  lemma MoveKeepsOrder(names: map<nat, FileMeta>, v: Levels, tables: Tables, level: nat, f: FileMeta, key: int)
    requires Sane(names, v, tables) && Movable(v, level, f)
    ensures SearchOrder(Next(v, MoveEdit(level, f)), key) == SearchOrder(v, key)
  {
    hide Sane, Next, MoveEdit, SearchOrder, Descending, NamedEdit, FreshAdds;
    MoveLevels(names, v, tables, level, f);
    MoveKeepsSane(names, v, tables, level, f);
    var v' := Next(v, MoveEdit(level, f));
    SearchIsNewestFirst(names, v, tables, key);
    SearchIsNewestFirst(names, v', tables, key);
    forall g ensures g in SearchOrder(v', key) <==> g in SearchOrder(v, key) {
      if l :| HasFile(v, l, g) { assert HasFile(v', if l == level && g == f then level + 1 else l, g); }
      if l :| HasFile(v', l, g) { assert HasFile(v, if l == level + 1 && g == f then level else l, g); }
    }
    DescendingUnique(SearchOrder(v', key), SearchOrder(v, key));
  }

  /** ... so every Get gives the same result, also when tables cannot be read. */
  lemma MoveKeepsReads(names: map<nat, FileMeta>, v: Levels, tables: Tables, level: nat, f: FileMeta)
    requires Sane(names, v, tables) && Movable(v, level, f)
    ensures forall key, snapshot, outcomes ::
              GetOf(Next(v, MoveEdit(level, f)), tables, key, snapshot, outcomes) ==
              GetOf(v, tables, key, snapshot, outcomes)
  {
    MoveKeepsEntries(names, v, tables, level, f);
    hide Sane, Movable, Next, MoveEdit, SearchOrder, Entries, Fails, Lookup;
    forall key { MoveKeepsOrder(names, v, tables, level, f, key); }
  }

  // ---------------------------------------------------------------- adding a flushed table

  /** Line 119 of leveldb/db/db_impl.cc. */
  function FlushEdit(level: nat, f: FileMeta): Edit {
    EMPTY.(added := [(level, f)])
  }

  /** A level that PickLevelForMemTableOutput may choose: 0, or one such that no file there or above overlaps. */
  ghost predicate Placeable(v: Levels, level: nat, f: FileMeta) {
    && level < NUM_LEVELS
    && (level > 0 ==> forall l: nat, g :: l <= level && HasFile(v, l, g) ==> !Overlap(f, g))
  }

  /** A table of entries newer than all the version has, under a number larger than all it has. */
  ghost predicate NewTable(names: map<nat, FileMeta>, v: Levels, tables: Tables, f: FileMeta, es: set<Entry>) {
    && f.number in names && names[f.number] == f && Covers(f, es) && OneEach(es)
    && (forall l, g :: HasFile(v, l, g) ==> g.number < f.number)
    && (forall d, e :: d in es && e in Entries(v, tables) ==> d.sequence > e.sequence)
  }

  lemma FlushLevels(names: map<nat, FileMeta>, v: Levels, tables: Tables, level: nat, f: FileMeta, es: set<Entry>)
    requires Sane(names, v, tables) && Placeable(v, level, f) && NewTable(names, v, tables, f, es)
    ensures var e := FlushEdit(level, f);
            && e.LevelsOk() && NamedEdit(names, e) && FreshAdds(v, e)
            && forall l, g :: HasFile(Next(v, e), l, g) <==> HasFile(v, l, g) || (l == level && g == f)
  {
    var e := FlushEdit(level, f);
    assert Named(names, {f});
    forall l | 0 <= l < NUM_LEVELS
      ensures AddedAt(e.added, l) == if l == level then {f} else {}
    {
      AddedAtOne(level, f, l);
    }
    assert FreshAdds(v, e) by {
      assert !HasFile(v, level, f);
    }
    forall l: nat, g ensures HasFile(Next(v, e), l, g) <==> HasFile(v, l, g) || (l == level && g == f) {
      if l < NUM_LEVELS {
        NextLevel(names, v, e, l);
        assert g in Next(v, e)[l] <==> g in Elems(Next(v, e)[l]);
        assert g in v[l] <==> g in Elems(v[l]);
      }
    }
  }

  lemma FlushKeepsSane(names: map<nat, FileMeta>, v: Levels, tables: Tables, level: nat, f: FileMeta, es: set<Entry>)
    requires Sane(names, v, tables) && Placeable(v, level, f) && NewTable(names, v, tables, f, es)
    ensures Sane(names, Next(v, FlushEdit(level, f)), tables[f.number := es])
    ensures Entries(Next(v, FlushEdit(level, f)), tables[f.number := es]) == Entries(v, tables) + es
  {
    FlushLevels(names, v, tables, level, f, es);
    var v', tables' := Next(v, FlushEdit(level, f)), tables[f.number := es];
    NextProper(names, v, FlushEdit(level, f));
    hide Next, Proper, NamedEdit, FreshAdds;
    forall l, m, g, h | HasFile(v', l, g) && HasFile(v', m, h)
      ensures g.number in tables' && h.number in tables'
      ensures l != m ==> g.number != h.number
      ensures g.number > h.number ==> Ordered(tables', g, h)
      ensures 0 < l && l == m && g != h ==> !Overlap(g, h)
      ensures l < m && Overlap(g, h) ==> g.number > h.number
    {
      FlushPair(names, v, v', tables, level, f, es, l, m, g, h);
    }
    FlushEntries(names, v, v', tables, level, f, es);
  }

  lemma FlushPair(names: map<nat, FileMeta>, v: Levels, v': Levels, tables: Tables, level: nat, f: FileMeta,
                  es: set<Entry>,
                  l: nat, m: nat, g: FileMeta, h: FileMeta)
    requires Sane(names, v, tables) && Placeable(v, level, f) && NewTable(names, v, tables, f, es)
    requires forall l, g :: HasFile(v', l, g) <==> HasFile(v, l, g) || (l == level && g == f)
    requires HasFile(v', l, g) && HasFile(v', m, h)
    ensures var tables' := tables[f.number := es];
            && g.number in tables' && h.number in tables'
            && (l != m ==> g.number != h.number)
            && (g.number > h.number ==> Ordered(tables', g, h))
            && (0 < l && l == m && g != h ==> !Overlap(g, h))
            && (l < m && Overlap(g, h) ==> g.number > h.number)
  {
    if HasFile(v, l, g) { HasTable(names, v, tables, l, g); }
    if HasFile(v, m, h) { HasTable(names, v, tables, m, h); }
    if HasFile(v, l, g) && HasFile(v, m, h) && g.number > h.number {
      LargerIsNewer(names, v, tables, l, g, m, h);
    }
  }

  lemma FlushEntries(names: map<nat, FileMeta>, v: Levels, v': Levels, tables: Tables, level: nat, f: FileMeta,
                     es: set<Entry>)
    requires Sane(names, v, tables) && NewTable(names, v, tables, f, es) && level < NUM_LEVELS
    requires forall l, g :: HasFile(v', l, g) <==> HasFile(v, l, g) || (l == level && g == f)
    ensures Entries(v', tables[f.number := es]) == Entries(v, tables) + es
  {
    hide Sane;
    var tables' := tables[f.number := es];
    forall l, g, e | HasFile(v, l, g) && g.number in tables && e in tables[g.number] ensures e in Entries(v', tables') {
      assert HasFile(v', l, g) && g.number != f.number;
      EntryIn(v', tables', l, g, e);
    }
    forall e | e in es ensures e in Entries(v', tables') {
      assert HasFile(v', level, f);
      EntryIn(v', tables', level, f, e);
    }
    forall l, g, e | HasFile(v', l, g) && g.number in tables' && e in tables'[g.number]
      ensures e in Entries(v, tables) + es
    {
      assert HasFile(v, l, g) || g == f;
    }
    assert forall l, g :: 0 <= l < NUM_LEVELS && g in v[l] ==> HasFile(v, l, g);
    assert forall l, g :: 0 <= l < NUM_LEVELS && g in v'[l] ==> HasFile(v', l, g);
  }
}
