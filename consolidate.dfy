/** The consolidator's main flow: keep only the expected dataset files
    among those globbed, give up when none is left, load the rest in path
    order, concatenate, engineer the features and report the expected
    files that were not found. The glob, the CSV reading and writing and
    the console output are outside the model: the globbed paths and the
    records each file holds are parameters. */
module Consolidator {
  import opened Wrappers
  import opened Faults
  import opened Dataset
  import opened Features

  /** How a consolidation run ends. Loading a file that holds no record
      fails when its first label is reported, which ends the run before
      anything is written. */
  datatype Outcome =
    | NoValidFiles(skipped: seq<string>)
    | EmptyFile(skipped: seq<string>, path: string)
    | Written(skipped: seq<string>, missing: set<string>, rows: seq<FeatureRow>)

  /** The first file, from index i on in load order, that holds no record. */
  function FirstEmpty(order: seq<string>, read: string -> seq<Record>, i: nat): Option<string>
    requires i <= |order|
    decreases |order| - i
  {
    if i == |order| then None
    else if |read(order[i])| == 0 then Some(order[i])
    else FirstEmpty(order, read, i + 1)
  }

  /** FirstEmpty finds a file exactly when one from i on holds no record,
      and the file it finds is the first such one in load order. */
  lemma {:induction false} FirstEmptyExact(order: seq<string>, read: string -> seq<Record>, i: nat)
    requires i <= |order|
    ensures var r := FirstEmpty(order, read, i);
            && (r.Some? ==> r.value in order && |read(r.value)| == 0)
            && (r.Some? ==> exists j :: i <= j < |order| && order[j] == r.value && |read(order[j])| == 0 &&
                                        forall k :: i <= k < j ==> |read(order[k])| > 0)
            && (r.None? <==> forall k :: i <= k < |order| ==> |read(order[k])| > 0)
    decreases |order| - i
  {
    if i < |order| {
      if |read(order[i])| > 0 {
        FirstEmptyExact(order, read, i + 1);
        var r := FirstEmpty(order, read, i + 1);
        if r.Some? {
          var j :| i + 1 <= j < |order| && order[j] == r.value && |read(order[j])| == 0 &&
                   forall k :: i + 1 <= k < j ==> |read(order[k])| > 0;
          assert forall k :: i <= k < j ==> |read(order[k])| > 0;
        }
      }
    }
  }

  /** A row labelled with a canonical scenario and that scenario's id. */
  predicate Canonical(r: Row)
  {
    r.faultName in FaultNames && r.faultId == FaultId(r.faultName)
  }

  /** The loading loop of main: the labelled frame of each file, in the
      given order, stopping at the first file that holds no record. */
  method LoadFrames(order: seq<string>, read: string -> seq<Record>)
    returns (frames: seq<seq<Row>>, empty: Option<string>)
    ensures empty == FirstEmpty(order, read, 0)
    ensures empty.None? ==> |frames| == |order|
    ensures empty.None? ==> forall k :: 0 <= k < |order| ==> frames[k] == LoadAndLabel(order[k], read(order[k]))
  {
    frames := [];
    var i := 0;
    while i < |order|
      invariant 0 <= i <= |order|
      invariant |frames| == i
      invariant forall k :: 0 <= k < i ==> frames[k] == LoadAndLabel(order[k], read(order[k]))
      invariant FirstEmpty(order, read, 0) == FirstEmpty(order, read, i)
    {
      var df := LoadAndLabel(order[i], read(order[i]));
      if |df| == 0 {
        return frames, Some(order[i]);
      }
      forall k | 0 <= k < i + 1
        ensures (frames + [df])[k] == LoadAndLabel(order[k], read(order[k]))
      {
        if k < i {
          assert (frames + [df])[k] == frames[k];
        }
      }
      frames := frames + [df];
      i := i + 1;
    }
    empty := None;
  }

  /** main: the outcome of consolidating the globbed files allCsvs, where
      read(c) is the records file c holds. The names of the unexpected
      files are reported in every outcome; the run stops when no expected
      file was globbed, or at the first (in path order) expected file with
      no record; otherwise the features of all the valid files' rows are
      written and the expected files not globbed are reported, which does
      not stop the run. */
  method Consolidate(allCsvs: seq<string>, read: string -> seq<Record>) returns (out: Outcome)
    ensures out.skipped == SkippedNames(allCsvs, ExpectedFiles)
    ensures var valid := ValidFiles(allCsvs, ExpectedFiles);
            && (out.NoValidFiles? <==> valid == [])
            && (out.EmptyFile? <==> valid != [] && FirstEmpty(LoadOrder(valid), read, 0).Some?)
            && (out.EmptyFile? ==> out.path == FirstEmpty(LoadOrder(valid), read, 0).value)
            && (out.Written? ==>
                  && out.missing == Missing(valid, ExpectedFiles)
                  && out.rows == EngineerFeatures(Combine(valid, read))
                  && |out.rows| == TotalRecords(valid, read))
  {
    var valid := ValidFiles(allCsvs, ExpectedFiles);
    var skipped := SkippedNames(allCsvs, ExpectedFiles);
    if valid == [] {
      return NoValidFiles(skipped);
    }
    var order := LoadOrder(valid);
    var frames, empty := LoadFrames(order, read);
    if empty.Some? {
      return EmptyFile(skipped, empty.value);
    }
    assert frames == Frames(order, read);
    var rows := FlattenFirst(frames, |frames|);
    assert rows == LoadAll(order, read);
    out := Written(skipped, Missing(valid, ExpectedFiles), EngineerFeatures(rows));
  }

  /** Every row of a concatenation of canonically labelled frames is
      canonically labelled. */
  lemma {:induction false} FlattenCanonical(fs: seq<seq<Row>>, n: nat)
    requires n <= |fs|
    requires forall k, j :: 0 <= k < |fs| && 0 <= j < |fs[k]| ==> Canonical(fs[k][j])
    ensures forall r :: r in FlattenFirst(fs, n) ==> Canonical(r)
  {
    if n > 0 {
      FlattenCanonical(fs, n - 1);
      assert forall r :: r in fs[n - 1] ==> Canonical(r);
    }
  }

  /** Every written row carries a canonical scenario name and that
      scenario's id, whatever the file names were. */
  lemma WrittenRowsCanonical(valid: seq<string>, read: string -> seq<Record>)
    ensures forall f :: f in EngineerFeatures(Combine(valid, read)) ==> Canonical(f.row)
  {
    var order := LoadOrder(valid);
    var fs := Frames(order, read);
    forall k, j | 0 <= k < |fs| && 0 <= j < |fs[k]|
      ensures Canonical(fs[k][j])
    {
      FramesAt(order, read, k, j);
      FileLabelCanonical(order[k]);
    }
    FlattenCanonical(fs, |fs|);
    var rows := Combine(valid, read);
    var out := EngineerFeatures(rows);
    forall f | f in out
      ensures Canonical(f.row)
    {
      var k :| 0 <= k < |out| && out[k] == f;
      assert RowsOf(out)[k] == f.row;
      assert f.row in multiset(RowsOf(out));
    }
  }

  /** Each row of the file of an expected scenario is written under that
      scenario: an expected file is loaded whenever it was globbed. */
  lemma ExpectedFileLoaded(allCsvs: seq<string>, c: string)
    requires c in allCsvs && Name(c) in ExpectedFiles
    ensures c in ValidFiles(allCsvs, ExpectedFiles)
    ensures Name(c) !in Missing(ValidFiles(allCsvs, ExpectedFiles), ExpectedFiles)
  {
  }
}
