/** File names and the CURRENT switch of leveldb/db/filename.cc, over a file system that remembers
    every state the disk has passed through. */
module FileNames {
  import opened DbFormat
  import opened VersionEdits

  // ---------------------------------------------------------------- names

  const DIGITS := "0123456789"

  function Decimal(n: nat): (s: string)
    ensures |s| > 0 && forall i :: 0 <= i < |s| ==> s[i] in DIGITS
  {
    if n < 10 then [DIGITS[n]] else Decimal(n / 10) + [DIGITS[n % 10]]
  }

  /** printf's %06llu. */
  function Padded(n: nat): (s: string)
    ensures |s| > 0 && forall i :: 0 <= i < |s| ==> s[i] in DIGITS
  {
    var d := Decimal(n);
    if |d| >= 6 then d else "000000"[..6 - |d|] + d
  }

  function MakeFileName(dbname: string, number: nat, suffix: string): string {
    dbname + "/" + Padded(number) + "." + suffix
  }

  function DescriptorFileName(dbname: string, number: nat): string {
    dbname + "/MANIFEST-" + Padded(number)
  }

  function TempFileName(dbname: string, number: nat): string {
    MakeFileName(dbname, number, "dbtmp")
  }

  function CurrentFileName(dbname: string): string {
    dbname + "/CURRENT"
  }

  function DigitValue(c: char): nat {
    if c in DIGITS then (c - '0') as nat else 0
  }

  function Value(s: string): nat {
    if s == [] then 0 else 10 * Value(s[..|s| - 1]) + DigitValue(s[|s| - 1])
  }

  lemma {:induction false} DecimalReadsBack(n: nat)
    ensures Value(Decimal(n)) == n
  {
    var s := Decimal(n);
    if n >= 10 {
      DecimalReadsBack(n / 10);
      assert s[..|s| - 1] == Decimal(n / 10);
    } else {
      assert s[..|s| - 1] == [];
    }
    assert forall d: nat :: d < 10 ==> DigitValue(DIGITS[d]) == d;
  }

  lemma {:induction false} LeadingZeros(z: string, s: string)
    requires forall i :: 0 <= i < |z| ==> z[i] == '0'
    ensures Value(z + s) == Value(s)
  {
    if s == [] {
      ZerosOnly(z);
      assert z + s == z;
    } else {
      LeadingZeros(z, s[..|s| - 1]);
      assert (z + s)[..|z + s| - 1] == z + s[..|s| - 1];
    }
  }

  lemma {:induction false} ZerosOnly(z: string)
    requires forall i :: 0 <= i < |z| ==> z[i] == '0'
    ensures Value(z) == 0
  {
    if z != [] { ZerosOnly(z[..|z| - 1]); }
  }

  /** The number can be read back from its padded form, so different numbers are named differently. */
  lemma PaddedReadsBack(n: nat)
    ensures Value(Padded(n)) == n
  {
    DecimalReadsBack(n);
    var d := Decimal(n);
    if |d| < 6 { LeadingZeros("000000"[..6 - |d|], d); }
  }

  /** Manifests of different numbers, temporary files and CURRENT never share a name. */
  lemma NamesDistinct(dbname: string, m: nat, n: nat)
    ensures DescriptorFileName(dbname, m) == DescriptorFileName(dbname, n) ==> m == n
    ensures DescriptorFileName(dbname, m) != TempFileName(dbname, n)
    ensures DescriptorFileName(dbname, m) != CurrentFileName(dbname)
    ensures TempFileName(dbname, n) != CurrentFileName(dbname)
  {
    PaddedReadsBack(m);
    PaddedReadsBack(n);
    var k := |dbname| + 1;
    var pre := dbname + "/MANIFEST-";
    assert DescriptorFileName(dbname, m)[|pre|..] == Padded(m);
    assert DescriptorFileName(dbname, n)[|pre|..] == Padded(n);
    assert DescriptorFileName(dbname, m)[k] == 'M';
    assert CurrentFileName(dbname)[k] == 'C';
    assert TempFileName(dbname, n)[k] == Padded(n)[0];
  }

  // ---------------------------------------------------------------- the disk

  datatype Content = Records(records: seq<Edit>) | Text(text: string)

  type Files = map<string, Content>

  /** The files of the database directory and, for reasoning about crashes, all their earlier states. */
  datatype Disk = Disk(files: Files, trace: seq<Files>) {
    function Becomes(files': Files): Disk {
      Disk(files', trace + [files'])
    }
  }

  /** The outcomes of the file operations of one LogAndApply. */
  datatype Io = Io(create: bool, snapshot: bool, append: bool, writeTemp: bool, written: nat, rename: bool)

  class Env {
    var disk: Disk

    constructor (disk: Disk)
      ensures this.disk == disk
    {
      this.disk := disk;
    }

    method NewWritableFile(name: string, ok: bool) returns (s: Status)
      modifies this
      ensures s == if ok then OK else Failed
      ensures disk == if ok then old(disk).Becomes(old(disk).files[name := Records([])]) else old(disk)
    {
      s := Failed;
      if ok {
        disk := disk.Becomes(disk.files[name := Records([])]);
        s := OK;
      }
    }

    /** AddRecord followed by Sync: the record is in the file if and only if both succeed. */
    method AddRecord(name: string, e: Edit, ok: bool) returns (s: Status)
      requires name in disk.files && disk.files[name].Records?
      modifies this
      ensures s == if ok then OK else Failed
      ensures disk ==
              if ok then old(disk).Becomes(old(disk).files[name := Records(old(disk).files[name].records + [e])])
              else old(disk)
    {
      s := Failed;
      if ok {
        disk := disk.Becomes(disk.files[name := Records(disk.files[name].records + [e])]);
        s := OK;
      }
    }

    /** WriteStringToFileSync; a failed write leaves some prefix of the data behind. */
    method WriteStringToFileSync(data: string, name: string, ok: bool, written: nat) returns (s: Status)
      modifies this
      ensures s == if ok then OK else Failed
      ensures disk == old(disk).Becomes(old(disk).files[name := Text(Written(data, ok, written))])
    {
      disk := disk.Becomes(disk.files[name := Text(Written(data, ok, written))]);
      s := if ok then OK else Failed;
    }

    method RenameFile(src: string, dst: string, ok: bool) returns (s: Status)
      requires src in disk.files
      modifies this
      ensures s == if ok then OK else Failed
      ensures disk ==
              if ok then old(disk).Becomes((old(disk).files - {src})[dst := old(disk).files[src]]) else old(disk)
    {
      s := Failed;
      if ok {
        disk := disk.Becomes((disk.files - {src})[dst := disk.files[src]]);
        s := OK;
      }
    }

    method RemoveFile(name: string)
      modifies this
      ensures disk == old(disk).Becomes(old(disk).files - {name})
    {
      disk := disk.Becomes(disk.files - {name});
    }
  }

  function Written(data: string, ok: bool, written: nat): string {
    if ok || written > |data| then data else data[..written]
  }

  // ---------------------------------------------------------------- SetCurrentFile

  /** The text of a CURRENT file that points to the manifest with this number. */
  function CurrentText(number: nat): string {
    "MANIFEST-" + Padded(number) + "\n"
  }

  function SetCurrentOn(disk: Disk, dbname: string, number: nat, io: Io): (Disk, Status) {
    var tmp := TempFileName(dbname, number);
    var text := Text(Written(CurrentText(number), io.writeTemp, io.written));
    var d1 := disk.Becomes(disk.files[tmp := text]);
    if io.writeTemp && io.rename then (d1.Becomes((d1.files - {tmp})[CurrentFileName(dbname) := text]), OK)
    else (d1.Becomes(d1.files - {tmp}), Failed)
  }

  /** Write a temporary file, then rename it: the commit point of a new manifest. */
  method SetCurrentFile(env: Env, dbname: string, number: nat, io: Io) returns (s: Status)
    requires number > 0
    modifies env
    ensures (env.disk, s) == SetCurrentOn(old(env.disk), dbname, number, io)
  {
    var manifest := DescriptorFileName(dbname, number);
    var contents := manifest[|dbname| + 1..];
    assert manifest[..|dbname| + 1] == dbname + "/";
    assert contents + "\n" == CurrentText(number);
    var tmp := TempFileName(dbname, number);
    s := env.WriteStringToFileSync(contents + "\n", tmp, io.writeTemp, io.written);
    if s == OK {
      s := env.RenameFile(tmp, CurrentFileName(dbname), io.rename);
    }
    if s != OK {
      env.RemoveFile(tmp);
    }
  }

  /** The manifest that CURRENT names, if it names one. */
  function CurrentManifest(files: Files, dbname: string): Option<string> {
    if CurrentFileName(dbname) in files && files[CurrentFileName(dbname)].Text? then
      var t := files[CurrentFileName(dbname)].text;
      if t != [] && t[|t| - 1] == '\n' then Some(dbname + "/" + t[..|t| - 1]) else None
    else None
  }

  lemma CurrentTextNames(files: Files, dbname: string, number: nat)
    requires CurrentFileName(dbname) in files && files[CurrentFileName(dbname)] == Text(CurrentText(number))
    ensures CurrentManifest(files, dbname) == Some(DescriptorFileName(dbname, number))
  {
    var t := CurrentText(number);
    assert t[..|t| - 1] == "MANIFEST-" + Padded(number);
    assert dbname + "/" + ("MANIFEST-" + Padded(number)) == DescriptorFileName(dbname, number);
  }

  /** SetCurrentFile is atomic: at every point of it CURRENT names the old manifest or the new one,
      the new one at the end exactly when it reports success, and no other manifest is touched. */
  lemma SetCurrentAtomic(disk: Disk, dbname: string, number: nat, io: Io, name: string)
    requires name == DescriptorFileName(dbname, number)
    ensures var (d, s) := SetCurrentOn(disk, dbname, number, io);
            && d.trace[..|disk.trace|] == disk.trace && |d.trace| == |disk.trace| + 2
            && d.files == d.trace[|d.trace| - 1]
            && CurrentManifest(d.trace[|disk.trace|], dbname) == CurrentManifest(disk.files, dbname)
            && CurrentManifest(d.files, dbname) ==
                 (if s == OK then Some(name) else CurrentManifest(disk.files, dbname))
            && forall m: nat, i :: |disk.trace| <= i < |d.trace| ==>
                 SameFile(disk.files, d.trace[i], DescriptorFileName(dbname, m))
  {
    var (d, s) := SetCurrentOn(disk, dbname, number, io);
    NamesDistinct(dbname, number, number);
    if s == OK { CurrentTextNames(d.files, dbname, number); }
    forall m: nat, i | |disk.trace| <= i < |d.trace|
      ensures SameFile(disk.files, d.trace[i], DescriptorFileName(dbname, m))
    {
      NamesDistinct(dbname, m, number);
    }
  }

  ghost predicate SameFile(a: Files, b: Files, name: string) {
    (name in a <==> name in b) && (name in a ==> a[name] == b[name])
  }
}
