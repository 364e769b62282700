/** The consolidator's file handling: which simulation outputs it expects,
    how a file's name decides the label of its rows, how the globbed files
    split into valid, skipped and missing, and the concatenation of the
    labelled files. Reading a file is a function parameter. */
module Dataset {
  import opened Wrappers
  import opened Faults
  import opened Sorting

  /** The columns of a simulation output that the consolidator reads. */
  datatype Record = Record(
    timestampPs: int,
    link: string,
    qber: real,
    keyRateSifted: real,
    darkCountRate: real,
    backReflectionPower: real)

  /** A record with the label its file's name gives it. */
  datatype Row = Row(rec: Record, faultId: nat, faultName: string)

  const FilePrefix: string := "dataset_"
  const FileSuffix: string := ".csv"

  /** The output file expected for one scenario. */
  function ExpectedFile(name: string): string
  {
    FilePrefix + name + FileSuffix
  }

  /** One expected file per scenario of the label table. */
  const ExpectedFiles: set<string> := set n | n in FaultNames :: ExpectedFile(n)

  /** Different scenarios expect different files, so there is exactly one
      expected file per scenario. */
  lemma ExpectedFileInjective(a: string, b: string)
    requires ExpectedFile(a) == ExpectedFile(b)
    ensures a == b
  {
    assert a == ExpectedFile(a)[|FilePrefix|..|ExpectedFile(a)| - |FileSuffix|];
    assert b == ExpectedFile(b)[|FilePrefix|..|ExpectedFile(b)| - |FileSuffix|];
  }

  /** The final component of a path: what follows the last '/'. */
  function Name(path: string): (n: string)
    ensures '/' !in n
  {
    if path == [] || path[|path| - 1] == '/' then []
    else Name(path[..|path| - 1]) + [path[|path| - 1]]
  }

  /** The name is a suffix of the path, preceded by a '/' unless it is the
      whole path. */
  lemma {:induction false} NameIsSuffix(path: string)
    ensures var n := Name(path);
            && |n| <= |path|
            && (forall k :: 0 <= k < |n| ==> n[k] == path[|path| - |n| + k])
            && (|n| < |path| ==> path[|path| - |n| - 1] == '/')
  {
    if path != [] && path[|path| - 1] != '/' {
      var init := path[..|path| - 1];
      NameIsSuffix(init);
      var m := Name(init);
      var n := Name(path);
      assert n == m + [path[|path| - 1]];
      forall k | 0 <= k < |n|
        ensures n[k] == path[|path| - |n| + k]
      {
        if k < |m| {
          assert n[k] == init[|init| - |m| + k];
        }
      }
    }
  }

  /** A file in a directory is named by its own name. */
  lemma {:induction false} NameOfJoin(dir: string, file: string)
    requires '/' !in file
    ensures Name(dir + "/" + file) == file
  {
    if file != [] {
      var init := file[..|file| - 1];
      assert dir + "/" + file == (dir + "/" + init) + [file[|file| - 1]];
      NameOfJoin(dir, init);
      assert init + [file[|file| - 1]] == file;
    } else {
      assert (dir + "/" + file)[|dir + "/" + file| - 1] == '/';
    }
  }

  /** The index of the last '.', or -1 when there is none. */
  function LastDot(s: string): (i: int)
    ensures -1 <= i < |s|
    ensures i >= 0 ==> s[i] == '.'
    ensures forall k :: i < k < |s| ==> s[k] != '.'
  {
    if s == [] then -1
    else if s[|s| - 1] == '.' then |s| - 1
    else LastDot(s[..|s| - 1])
  }

  /** The stem of a file name: the name without its final suffix. A dot
      at the very start or the very end does not start a suffix. */
  function Stem(name: string): (s: string)
    ensures var i := LastDot(name);
            (0 < i < |name| - 1 ==> s == name[..i]) &&
            (!(0 < i < |name| - 1) ==> s == name)
  {
    var i := LastDot(name);
    if 0 < i < |name| - 1 then name[..i] else name
  }

  /** The stem of an expected file is the prefix and the scenario name. */
  lemma StemOfExpected(name: string)
    requires '.' !in name
    ensures Stem(ExpectedFile(name)) == FilePrefix + name
  {
    var f := ExpectedFile(name);
    var i := |FilePrefix + name|;
    assert f[i] == '.';
    assert forall k :: i < k < |f| ==> f[k] != '.' by {
      assert f[i + 1..] == "csv";
    }
    assert LastDot(f) == i;
    assert f[..i] == FilePrefix + name;
  }

  /** No canonical scenario name holds a '.' or a '/'. */
  lemma PlainFaultNames(name: string)
    requires name in FaultNames
    ensures '.' !in name && '/' !in name && |name| >= 2
  {
    assert name == "normal" || name == "qber" || name == "degrade" ||
           name == "node_fail" || name == "blinding" || name == "trojan";
  }

  /** The position, from i on, of the first scenario of the label table
      whose file stem is exactly stem. */
  function MatchStem(stem: string, i: nat): Option<nat>
    requires i <= |FaultNames|
    decreases |FaultNames| - i
  {
    if i == |FaultNames| then None
    else if stem == FilePrefix + FaultNames[i] then Some(i)
    else MatchStem(stem, i + 1)
  }

  /** MatchStem finds a scenario exactly when one from i on has stem as its
      file stem, and then the first such. */
  lemma {:induction false} MatchStemExact(stem: string, i: nat)
    requires i <= |FaultNames|
    ensures var r := MatchStem(stem, i);
            && (r.None? ==> forall k :: i <= k < |FaultNames| ==> stem != FilePrefix + FaultNames[k])
            && (r.Some? ==> i <= r.value < |FaultNames| && stem == FilePrefix + FaultNames[r.value])
    decreases |FaultNames| - i
  {
    if i < |FaultNames| && stem != FilePrefix + FaultNames[i] {
      MatchStemExact(stem, i + 1);
    }
  }

  /** The label a stem gives: the first scenario of the label table whose
      file stem it equals, with its id; normal with id 0 when there is none. */
  function StemLabel(stem: string): (string, nat)
  {
    var m := MatchStem(stem, 0);
    if m.None? then (Normal, 0) else (FaultNames[m.value], m.value)
  }

  /** A stem that equals a scenario's file stem exactly gets that scenario
      and its id; any other stem gets normal and id 0. The id always
      matches the name. */
  lemma StemLabelExact(stem: string)
    ensures var r := StemLabel(stem);
            && r.0 in FaultNames && r.1 == FaultId(r.0)
            && (forall i :: 0 <= i < |FaultNames| && stem == FilePrefix + FaultNames[i] ==> r.0 == FaultNames[i])
            && ((forall i :: 0 <= i < |FaultNames| ==> stem != FilePrefix + FaultNames[i]) ==> r == (Normal, 0))
  {
    var m := MatchStem(stem, 0);
    MatchStemExact(stem, 0);
    if m.Some? {
      FaultIdOfName(m.value);
      forall i | 0 <= i < |FaultNames| && stem == FilePrefix + FaultNames[i]
        ensures FaultNames[i] == FaultNames[m.value]
      {
        assert FaultNames[i] == stem[|FilePrefix|..];
        assert FaultNames[m.value] == stem[|FilePrefix|..];
      }
    } else {
      FaultIdOfName(0);
    }
  }

  /** The label a file's path gives its rows. */
  function FileLabel(path: string): (string, nat)
  {
    StemLabel(Stem(Name(path)))
  }

  /** Whatever the path, its label is a canonical scenario with its own id. */
  lemma FileLabelCanonical(path: string)
    ensures var lbl := FileLabel(path);
            lbl.0 in FaultNames && lbl.1 == FaultId(lbl.0)
  {
    StemLabelExact(Stem(Name(path)));
  }

  /** load_and_label: the file's rows, in order, each labelled by the file's stem. */
  function LoadAndLabel(path: string, records: seq<Record>): (rows: seq<Row>)
    ensures |rows| == |records|
    ensures forall k :: 0 <= k < |rows| ==>
      rows[k] == Row(records[k], FileLabel(path).1, FileLabel(path).0)
  {
    var lbl := FileLabel(path);
    seq(|records|, k requires 0 <= k < |records| => Row(records[k], lbl.1, lbl.0))
  }

  /** Every row of an expected file carries that file's scenario and id. */
  lemma LoadExpectedFile(dir: string, name: string, records: seq<Record>)
    requires name in FaultNames
    ensures forall row :: row in LoadAndLabel(dir + "/" + ExpectedFile(name), records) ==>
      row.faultName == name && row.faultId == FaultId(name)
  {
    PlainFaultNames(name);
    assert '/' !in ExpectedFile(name);
    NameOfJoin(dir, ExpectedFile(name));
    StemOfExpected(name);
    StemLabelExact(FilePrefix + name);
  }

  /** No scenario name has five letters. */
  lemma FaultNameLengths(name: string)
    requires name in FaultNames
    ensures |name| != 5
  {
    assert name == "normal" || name == "qber" || name == "degrade" ||
           name == "node_fail" || name == "blinding" || name == "trojan";
  }

  /** An exact match, not a substring: dataset_qbert.csv is labelled normal
      even though it starts like dataset_qber, and it is not expected. */
  lemma QbertIsNormal(dir: string, records: seq<Record>)
    ensures forall row :: row in LoadAndLabel(dir + "/dataset_qbert.csv", records) ==>
      row.faultName == Normal && row.faultId == 0
    ensures "dataset_qbert.csv" !in ExpectedFiles
  {
    NameOfJoin(dir, "dataset_qbert.csv");
    assert dir + "/dataset_qbert.csv" == dir + "/" + "dataset_qbert.csv";
    assert ExpectedFile("qbert") == "dataset_qbert.csv";
    StemOfExpected("qbert");
    assert Stem(Name(dir + "/dataset_qbert.csv")) == FilePrefix + "qbert";
    forall i | 0 <= i < |FaultNames|
      ensures FilePrefix + "qbert" != FilePrefix + FaultNames[i]
      ensures "dataset_qbert.csv" != ExpectedFile(FaultNames[i])
    {
      FaultNameLengths(FaultNames[i]);
    }
    StemLabelExact(FilePrefix + "qbert");
    assert FileLabel(dir + "/dataset_qbert.csv") == (Normal, 0);
  }

  /** The harness's default output name for a scenario is never an
      expected file, so such a file is skipped. */
  lemma HarnessDefaultOutputSkipped(faultType: string)
    ensures "dataset_tokyo_qkd_" + faultType + ".csv" !in ExpectedFiles
  {
    var f := "dataset_tokyo_qkd_" + faultType + ".csv";
    forall i | 0 <= i < |FaultNames|
      ensures f != ExpectedFile(FaultNames[i])
    {
      var n := FaultNames[i];
      PlainFaultNames(n);
      var e := ExpectedFile(n);
      assert e[8] == n[0] && e[9] == n[1];
      assert f[8] == 't' && f[9] == 'o';
      assert n[0] != 't' || n[1] != 'o' by {
        assert n == "normal" || n == "qber" || n == "degrade" ||
               n == "node_fail" || n == "blinding" || n == "trojan";
      }
    }
  }

  /** The globbed files whose name is expected, in glob order. */
  function ValidFiles(paths: seq<string>, expected: set<string>): (v: seq<string>)
    ensures forall c :: c in v <==> c in paths && Name(c) in expected
    ensures |v| <= |paths|
  {
    if paths == [] then []
    else
      var rest := ValidFiles(paths[..|paths| - 1], expected);
      var c := paths[|paths| - 1];
      if Name(c) in expected then rest + [c] else rest
  }

  /** The names of the globbed files that are not expected, in glob order. */
  function SkippedNames(paths: seq<string>, expected: set<string>): (s: seq<string>)
    ensures forall x :: x in s ==> x !in expected
    ensures forall c :: c in paths && Name(c) !in expected ==> Name(c) in s
    ensures forall x :: x in s ==> exists c :: c in paths && Name(c) == x
  {
    if paths == [] then []
    else
      var init := paths[..|paths| - 1];
      var rest := SkippedNames(init, expected);
      var c := paths[|paths| - 1];
      assert forall d :: d in init ==> d in paths;
      assert c in paths;
      if Name(c) !in expected then rest + [Name(c)] else rest
  }

  /** Every globbed file is counted once: valid or skipped, never both. */
  lemma {:induction false} PartitionCounts(paths: seq<string>, expected: set<string>)
    ensures |ValidFiles(paths, expected)| + |SkippedNames(paths, expected)| == |paths|
    ensures forall c :: c in ValidFiles(paths, expected) ==> Name(c) !in SkippedNames(paths, expected)
  {
    if paths != [] {
      PartitionCounts(paths[..|paths| - 1], expected);
    }
  }

  /** The expected files that no valid file provides. */
  function Missing(valid: seq<string>, expected: set<string>): (m: set<string>)
    ensures m <= expected
    ensures forall f :: f in expected ==> (f in m <==> forall c :: c in valid ==> Name(c) != f)
  {
    expected - set c | c in valid :: Name(c)
  }

  /** Nothing is missing exactly when every expected file was globbed. */
  lemma MissingEmptyIff(paths: seq<string>, expected: set<string>)
    ensures Missing(ValidFiles(paths, expected), expected) == {} <==>
      forall f :: f in expected ==> exists c :: c in paths && Name(c) == f
  {
    var valid := ValidFiles(paths, expected);
    if Missing(valid, expected) == {} {
      forall f | f in expected
        ensures exists c :: c in paths && Name(c) == f
      {
        assert f !in Missing(valid, expected);
        var c :| c in valid && Name(c) == f;
      }
    } else {
      var f :| f in Missing(valid, expected);
    }
  }

  /** The first n frames, concatenated in order. */
  function FlattenFirst<T>(fs: seq<seq<T>>, n: nat): seq<T>
    requires n <= |fs|
  {
    if n == 0 then [] else FlattenFirst(fs, n - 1) + fs[n - 1]
  }

  /** The total length of the first n frames. */
  function SizeFirst<T>(fs: seq<seq<T>>, n: nat): nat
    requires n <= |fs|
  {
    if n == 0 then 0 else SizeFirst(fs, n - 1) + |fs[n - 1]|
  }

  lemma {:induction false} FlattenFirstLength<T>(fs: seq<seq<T>>, n: nat)
    requires n <= |fs|
    ensures |FlattenFirst(fs, n)| == SizeFirst(fs, n)
  {
    if n > 0 {
      FlattenFirstLength(fs, n - 1);
    }
  }

  /** Frame k of a concatenation sits, in order, right after the frames before it. */
  lemma {:induction false} FlattenFirstSlice<T>(fs: seq<seq<T>>, n: nat, k: nat)
    requires k < n <= |fs|
    ensures |FlattenFirst(fs, n)| == SizeFirst(fs, n)
    ensures SizeFirst(fs, k) + |fs[k]| <= SizeFirst(fs, n)
    ensures var lo := SizeFirst(fs, k);
            forall j :: 0 <= j < |fs[k]| ==> FlattenFirst(fs, n)[lo + j] == fs[k][j]
  {
    FlattenFirstLength(fs, n);
    FlattenFirstLength(fs, n - 1);
    if k < n - 1 {
      FlattenFirstSlice(fs, n - 1, k);
    }
  }

  /** The labelled frames of the given files, in the given order. */
  function Frames(paths: seq<string>, read: string -> seq<Record>): (fs: seq<seq<Row>>)
    ensures |fs| == |paths|
    ensures forall k :: 0 <= k < |fs| ==> |fs[k]| == |read(paths[k])|
  {
    seq(|paths|, k requires 0 <= k < |paths| => LoadAndLabel(paths[k], read(paths[k])))
  }

  /** Frame k is file k's records under file k's label. */
  lemma FramesAt(paths: seq<string>, read: string -> seq<Record>, k: nat, j: nat)
    requires k < |paths| && j < |read(paths[k])|
    ensures Frames(paths, read)[k][j] == Row(read(paths[k])[j], FileLabel(paths[k]).1, FileLabel(paths[k]).0)
  {
  }

  /** Element j of frame k, in the concatenation of all the frames. */
  lemma FlattenAt<T>(fs: seq<seq<T>>, k: nat, j: nat)
    requires k < |fs| && j < |fs[k]|
    ensures SizeFirst(fs, k) + j < |FlattenFirst(fs, |fs|)|
    ensures FlattenFirst(fs, |fs|)[SizeFirst(fs, k) + j] == fs[k][j]
  {
    FlattenFirstSlice(fs, |fs|, k);
  }

  /** The number of records all the given files hold together. */
  function TotalRecords(paths: seq<string>, read: string -> seq<Record>): nat
  {
    if paths == [] then 0 else TotalRecords(paths[..|paths| - 1], read) + |read(paths[|paths| - 1])|
  }

  /** The number of records the first n files hold together. */
  function RecordsIn(paths: seq<string>, read: string -> seq<Record>, n: nat): nat
    requires n <= |paths|
  {
    if n == 0 then 0 else RecordsIn(paths, read, n - 1) + |read(paths[n - 1])|
  }

  lemma {:induction false} RecordsInAgree(a: seq<string>, b: seq<string>, read: string -> seq<Record>, n: nat)
    requires n <= |a| && n <= |b|
    requires forall i :: 0 <= i < n ==> a[i] == b[i]
    ensures RecordsIn(a, read, n) == RecordsIn(b, read, n)
  {
    if n > 0 {
      RecordsInAgree(a, b, read, n - 1);
    }
  }

  lemma {:induction false} RecordsInPrefix(paths: seq<string>, read: string -> seq<Record>, n: nat)
    requires n <= |paths|
    ensures RecordsIn(paths, read, n) == TotalRecords(paths[..n], read)
  {
    if n > 0 {
      var init := paths[..n - 1];
      assert paths[..n][..n - 1] == init;
      RecordsInPrefix(paths, read, n - 1);
      RecordsInAgree(paths[..n], paths, read, n - 1);
      RecordsInAgree(init, paths, read, n - 1);
      RecordsInPrefix(init, read, n - 1);
      assert init[..n - 1] == init;
    }
  }

  /** The frames of the first n files hold as many rows as those files hold records. */
  lemma FramesSize(paths: seq<string>, read: string -> seq<Record>, n: nat)
    requires n <= |paths|
    ensures SizeFirst(Frames(paths, read), n) == RecordsIn(paths, read, n)
  {
    SizesMatch(Frames(paths, read), paths, read, n);
  }

  lemma {:induction false} SizesMatch(fs: seq<seq<Row>>, paths: seq<string>, read: string -> seq<Record>, n: nat)
    requires n <= |fs| == |paths|
    requires forall k :: 0 <= k < |fs| ==> |fs[k]| == |read(paths[k])|
    ensures SizeFirst(fs, n) == RecordsIn(paths, read, n)
  {
    if n > 0 {
      SizesMatch(fs, paths, read, n - 1);
    }
  }

  /** The record count does not depend on the order of the files. */
  lemma {:induction false} TotalRecordsPermutation(a: seq<string>, b: seq<string>, read: string -> seq<Record>)
    requires multiset(a) == multiset(b)
    ensures TotalRecords(a, read) == TotalRecords(b, read)
    decreases |a|
  {
    if a != [] {
      var x := a[|a| - 1];
      assert x in multiset(b);
      var i :| 0 <= i < |b| && b[i] == x;
      var b' := b[..i] + b[i + 1..];
      assert a == a[..|a| - 1] + [x];
      assert multiset(a[..|a| - 1]) == multiset(a) - multiset{x};
      assert multiset(b') == multiset(b) - multiset{x} by {
        assert b == b[..i] + [x] + b[i + 1..];
      }
      TotalRecordsPermutation(a[..|a| - 1], b', read);
      TotalRecordsRemove(b, i, read);
    }
  }

  /** Taking one file out of the list takes its records out of the count. */
  lemma TotalRecordsRemove(b: seq<string>, i: nat, read: string -> seq<Record>)
    requires i < |b|
    ensures TotalRecords(b, read) == TotalRecords(b[..i] + b[i + 1..], read) + |read(b[i])|
  {
    TotalRecordsSplit(b[..i], [b[i]] + b[i + 1..], read);
    TotalRecordsSplit(b[..i], b[i + 1..], read);
    TotalRecordsSplit([b[i]], b[i + 1..], read);
    assert b == b[..i] + ([b[i]] + b[i + 1..]);
    assert TotalRecords([b[i]], read) == |read(b[i])| by {
      assert [b[i]][..0] == [];
    }
  }

  lemma {:induction false} TotalRecordsSplit(a: seq<string>, b: seq<string>, read: string -> seq<Record>)
    ensures TotalRecords(a + b, read) == TotalRecords(a, read) + TotalRecords(b, read)
    decreases |b|
  {
    if b != [] {
      assert (a + b)[..|a + b| - 1] == a + b[..|b| - 1];
      TotalRecordsSplit(a, b[..|b| - 1], read);
    } else {
      assert a + b == a;
    }
  }

  /** The files in the order they are loaded: sorted by path. */
  function LoadOrder(valid: seq<string>): (sorted: seq<string>)
    ensures multiset(sorted) == multiset(valid) && |sorted| == |valid|
    ensures SortedBy(sorted, StrLe)
  {
    StrLeOrders();
    SortBySorted(valid, StrLe);
    SortBy(valid, StrLe)
  }

  lemma StrLeOrders()
    ensures TotalPreorder(StrLe)
  {
    forall a, b ensures StrLe(a, b) || StrLe(b, a) {
      StrLeTotal(a, b);
    }
    forall a, b, c | StrLe(a, b) && StrLe(b, c) ensures StrLe(a, c) {
      StrLeTransitive(a, b, c);
    }
  }

  /** pd.concat of the labelled frames of the files, in the given order. */
  function LoadAll(order: seq<string>, read: string -> seq<Record>): (rows: seq<Row>)
    ensures |rows| == TotalRecords(order, read)
  {
    var fs := Frames(order, read);
    FlattenFirstLength(fs, |fs|);
    FramesSize(order, read, |order|);
    RecordsInPrefix(order, read, |order|);
    assert order[..|order|] == order;
    FlattenFirst(fs, |fs|)
  }

  /** In the concatenation, the k-th file contributes its records, in order
      and under its own label, right after the records of the files before it. */
  lemma LoadAllRows(order: seq<string>, read: string -> seq<Record>, k: nat, j: nat)
    requires k < |order| && j < |read(order[k])|
    ensures var lo := RecordsIn(order, read, k);
            lo + j < |LoadAll(order, read)| &&
            LoadAll(order, read)[lo + j] == Frames(order, read)[k][j]
  {
    FramesSize(order, read, k);
    FlattenAt(Frames(order, read), k, j);
  }

  /** The labelled rows of the valid files, loaded in path order. */
  function Combine(valid: seq<string>, read: string -> seq<Record>): (rows: seq<Row>)
    ensures |rows| == TotalRecords(valid, read)
  {
    var order := LoadOrder(valid);
    TotalRecordsPermutation(order, valid, read);
    LoadAll(order, read)
  }

  /** In the combined rows, the k-th file in path order contributes its
      records, in order and under its own label, right after the records of
      the files before it. */
  lemma CombineRows(valid: seq<string>, read: string -> seq<Record>, k: nat, j: nat)
    requires k < |valid| && j < |read(LoadOrder(valid)[k])|
    ensures var order := LoadOrder(valid);
            var lo := RecordsIn(order, read, k);
            lo + j < |Combine(valid, read)| &&
            Combine(valid, read)[lo + j] == Row(read(order[k])[j], FileLabel(order[k]).1, FileLabel(order[k]).0)
  {
    LoadAllRows(LoadOrder(valid), read, k, j);
    FramesAt(LoadOrder(valid), read, k, j);
  }
}
