/** The consolidator's feature engineering: the labelled rows are sorted
    by (fault name, link, timestamp) and every row gets features computed
    over the earlier rows of its (fault name, link) group: first
    differences, a trailing window of five for the mean and the sample
    variance, a clipped relative change of the sifted key rate, and two
    threshold flags. */
module Features {
  import opened Numeric
  import opened Sorting
  import opened Dataset

  const Window: nat := 5
  /** The QBER above which the classic alarm fires (5 %). */
  const QberThreshold: real := 0.05
  /** The reverse optical power (W) above which a Trojan-horse probe is flagged. */
  const ReflectionThreshold: real := 0.000001

  /** A labelled row with its engineered features. */
  datatype FeatureRow = FeatureRow(
    row: Row,
    qberDelta: real,
    qberMa5: real,
    qberVar5: real,
    keyRateDrop: real,
    darkCountDelta: real,
    backReflectionAlert: nat,
    qberAlert: nat)

  /** The group a row belongs to. */
  function Key(r: Row): (string, string)
  {
    (r.faultName, r.rec.link)
  }

  /** The sort order: by fault name, then link, then timestamp. */
  predicate RowLe(a: Row, b: Row)
  {
    if a.faultName != b.faultName then StrLe(a.faultName, b.faultName)
    else if a.rec.link != b.rec.link then StrLe(a.rec.link, b.rec.link)
    else a.rec.timestampPs <= b.rec.timestampPs
  }

  /** RowLe orders every sequence of rows. */
  lemma RowLeOrders()
    ensures TotalPreorder(RowLe)
  {
    forall a, b ensures RowLe(a, b) || RowLe(b, a) {
      StrLeTotal(a.faultName, b.faultName);
      StrLeTotal(a.rec.link, b.rec.link);
    }
    forall a, b, c | RowLe(a, b) && RowLe(b, c) ensures RowLe(a, c) {
      RowLeTransitive(a, b, c);
    }
  }

  lemma RowLeTransitive(a: Row, b: Row, c: Row)
    requires RowLe(a, b) && RowLe(b, c)
    ensures RowLe(a, c)
  {
    if a.faultName != c.faultName {
      if a.faultName != b.faultName && b.faultName != c.faultName {
        StrLeTransitive(a.faultName, b.faultName, c.faultName);
      }
    } else if a.faultName != b.faultName {
      StrLeAntisymmetric(a.faultName, b.faultName);
    } else if a.rec.link != c.rec.link {
      if a.rec.link != b.rec.link && b.rec.link != c.rec.link {
        StrLeTransitive(a.rec.link, b.rec.link, c.rec.link);
      }
    } else if a.rec.link != b.rec.link {
      StrLeAntisymmetric(a.rec.link, b.rec.link);
    }
  }

  /** A row ordered between two rows of one group is in that group. */
  lemma BetweenSameGroup(a: Row, b: Row, c: Row)
    requires RowLe(a, b) && RowLe(b, c) && Key(a) == Key(c)
    ensures Key(b) == Key(a)
  {
    if a.faultName != b.faultName {
      StrLeAntisymmetric(a.faultName, b.faultName);
    } else if a.rec.link != b.rec.link {
      StrLeAntisymmetric(a.rec.link, b.rec.link);
    }
  }

  /** The rows among the first n of s that belong to the given group, in order. */
  function GroupBefore(s: seq<Row>, n: nat, key: (string, string)): (g: seq<Row>)
    requires n <= |s|
    ensures forall k :: 0 <= k < |g| ==> Key(g[k]) == key
  {
    if n == 0 then []
    else GroupBefore(s, n - 1, key) + (if Key(s[n - 1]) == key then [s[n - 1]] else [])
  }

  /** Row i's group as the group-by sees it: every row of its group up to
      and including row i, in frame order; row i comes last. */
  function History(s: seq<Row>, i: nat): (h: seq<Row>)
    requires i < |s|
    ensures |h| > 0 && h[|h| - 1] == s[i]
    ensures forall k :: 0 <= k < |h| ==> Key(h[k]) == Key(s[i])
  {
    GroupBefore(s, i + 1, Key(s[i]))
  }

  function Qbers(h: seq<Row>): (xs: seq<real>)
    ensures |xs| == |h| && forall k :: 0 <= k < |h| ==> xs[k] == h[k].rec.qber
  {
    seq(|h|, k requires 0 <= k < |h| => h[k].rec.qber)
  }

  function KeyRates(h: seq<Row>): (xs: seq<real>)
    ensures |xs| == |h| && forall k :: 0 <= k < |h| ==> xs[k] == h[k].rec.keyRateSifted
  {
    seq(|h|, k requires 0 <= k < |h| => h[k].rec.keyRateSifted)
  }

  function DarkCounts(h: seq<Row>): (xs: seq<real>)
    ensures |xs| == |h| && forall k :: 0 <= k < |h| ==> xs[k] == h[k].rec.darkCountRate
  {
    seq(|h|, k requires 0 <= k < |h| => h[k].rec.darkCountRate)
  }

  /** diff().fillna(0) at the last value of a group's history: the change
      from the previous value, or 0 for the group's first value. */
  function LastDelta(xs: seq<real>): (d: real)
    ensures |xs| < 2 ==> d == 0.0
    ensures |xs| >= 2 ==> xs[|xs| - 2] + d == xs[|xs| - 1]
  {
    if |xs| < 2 then 0.0 else xs[|xs| - 1] - xs[|xs| - 2]
  }

  /** pct_change().fillna(0).clip(-1, 1) from prev to cur: the relative
      change clipped to [-1, 1]; from 0, no change counts as 0 and any
      change as the clipped infinity of its sign. */
  function ClippedChange(prev: real, cur: real): (r: real)
    ensures -1.0 <= r <= 1.0
    ensures cur == prev ==> r == 0.0
    ensures prev > 0.0 ==> (r < 0.0 <==> cur < prev) && (r > 0.0 <==> cur > prev)
    ensures prev > 0.0 && 0.0 <= cur <= 2.0 * prev ==> r * prev == cur - prev
  {
    if prev == 0.0 then
      (if cur == 0.0 then 0.0 else if cur > 0.0 then 1.0 else -1.0)
    else if prev > 0.0 && 0.0 <= cur <= 2.0 * prev then
      RatioSign(cur - prev, prev);
      RatioBound(cur - prev, prev);
      Clamp((cur - prev) / prev, -1.0, 1.0)
    else
      RatioSign(cur - prev, prev);
      Clamp((cur - prev) / prev, -1.0, 1.0)
  }

  lemma RatioSign(x: real, p: real)
    requires p != 0.0
    ensures p > 0.0 ==> (x / p < 0.0 <==> x < 0.0) && (x / p > 0.0 <==> x > 0.0)
    ensures (x / p) * p == x
  {
  }

  lemma RatioBound(x: real, p: real)
    requires p > 0.0 && -p <= x <= p
    ensures -1.0 <= x / p <= 1.0
  {
  }

  /** The relative key-rate change at the last value of a group's history;
      0 for the group's first value. */
  function LastChange(xs: seq<real>): (r: real)
    ensures -1.0 <= r <= 1.0
    ensures |xs| < 2 ==> r == 0.0
  {
    if |xs| < 2 then 0.0 else ClippedChange(xs[|xs| - 2], xs[|xs| - 1])
  }

  /** A 0/1 flag. */
  function Flag(b: bool): (f: nat)
    ensures f <= 1 && (f == 1 <==> b)
  {
    if b then 1 else 0
  }

  /** rolling(5, min_periods=1) on the QBER column: the QBERs of the last
      (at most five) rows of row i's group history. */
  function QberWindow(s: seq<Row>, i: nat): (w: seq<real>)
    requires i < |s|
    ensures 0 < |w| <= Window && w[|w| - 1] == s[i].rec.qber
  {
    Qbers(Tail(History(s, i), Window))
  }

  /** The features of row i of the sorted frame s. */
  function FeaturesAt(s: seq<Row>, i: nat): FeatureRow
    requires i < |s|
  {
    var h := History(s, i);
    var w := QberWindow(s, i);
    FeatureRow(
      s[i],
      LastDelta(Qbers(h)),
      Mean(w),
      WindowVariance(w),
      LastChange(KeyRates(h)),
      LastDelta(DarkCounts(h)),
      Flag(s[i].rec.backReflectionPower > ReflectionThreshold),
      Flag(s[i].rec.qber > QberThreshold))
  }

  /** The rows a feature frame carries. */
  function RowsOf(fs: seq<FeatureRow>): (rs: seq<Row>)
    ensures |rs| == |fs| && forall k :: 0 <= k < |fs| ==> rs[k] == fs[k].row
  {
    seq(|fs|, k requires 0 <= k < |fs| => fs[k].row)
  }

  /** The frame sorted by (fault name, link, timestamp). */
  function SortRows(rows: seq<Row>): (s: seq<Row>)
    ensures multiset(s) == multiset(rows) && |s| == |rows|
    ensures SortedBy(s, RowLe)
  {
    RowLeOrders();
    SortBySorted(rows, RowLe);
    SortBy(rows, RowLe)
  }

  /** engineer_features: the same rows, sorted, each with its features. */
  function EngineerFeatures(rows: seq<Row>): (fs: seq<FeatureRow>)
    ensures |fs| == |rows|
    ensures RowsOf(fs) == SortRows(rows)
    ensures multiset(RowsOf(fs)) == multiset(rows) && SortedBy(RowsOf(fs), RowLe)
    ensures forall i :: 0 <= i < |fs| ==> fs[i] == FeaturesAt(SortRows(rows), i)
  {
    var s := SortRows(rows);
    seq(|s|, i requires 0 <= i < |s| => FeaturesAt(s, i))
  }

  /** The index where row i's run of same-group rows begins. */
  function GroupStart(s: seq<Row>, i: nat): (g: nat)
    requires i < |s|
    ensures g <= i
    ensures forall k :: g <= k <= i ==> Key(s[k]) == Key(s[i])
  {
    if i > 0 && Key(s[i - 1]) == Key(s[i]) then GroupStart(s, i - 1) else i
  }

  lemma {:induction false} GroupBeforeNone(s: seq<Row>, n: nat, key: (string, string))
    requires n <= |s|
    requires forall k :: 0 <= k < n ==> Key(s[k]) != key
    ensures GroupBefore(s, n, key) == []
  {
    if n > 0 {
      GroupBeforeNone(s, n - 1, key);
    }
  }

  /** Following a row of the same group, a row's history is that row's
      history and the row itself. */
  lemma HistoryStep(s: seq<Row>, i: nat)
    requires 0 < i < |s| && Key(s[i - 1]) == Key(s[i])
    ensures History(s, i) == History(s, i - 1) + [s[i]]
  {
  }

  /** In a sorted frame, a row that does not follow a row of its own group
      is the first of its group. */
  lemma HistoryFirst(s: seq<Row>, i: nat)
    requires SortedBy(s, RowLe)
    requires i < |s| && (i == 0 || Key(s[i - 1]) != Key(s[i]))
    ensures History(s, i) == [s[i]]
  {
    var key := Key(s[i]);
    forall k | 0 <= k < i
      ensures Key(s[k]) != key
    {
      if Key(s[k]) == key {
        BetweenSameGroup(s[k], s[i - 1], s[i]);
      }
    }
    GroupBeforeNone(s, i, key);
  }

  /** Groups of a sorted frame are contiguous: row i's group history is
      exactly the run of rows from its group's start to i. So the group
      operations never reach across a group boundary. */
  lemma {:induction false} HistoryContiguous(s: seq<Row>, i: nat)
    requires SortedBy(s, RowLe)
    requires i < |s|
    ensures History(s, i) == s[GroupStart(s, i)..i + 1]
  {
    if i > 0 && Key(s[i - 1]) == Key(s[i]) {
      HistoryContiguous(s, i - 1);
      HistoryStep(s, i);
      var g := GroupStart(s, i);
      assert s[g..i + 1] == s[g..i] + [s[i]];
    } else {
      HistoryFirst(s, i);
    }
  }

  /** At the first row of a group in a sorted frame, the differences and
      the relative change are 0, the moving mean is the row's own QBER and
      the moving variance is 0. */
  lemma FirstOfGroup(s: seq<Row>, i: nat)
    requires SortedBy(s, RowLe)
    requires i < |s| && (i == 0 || Key(s[i - 1]) != Key(s[i]))
    ensures var f := FeaturesAt(s, i);
            f.qberDelta == 0.0 && f.darkCountDelta == 0.0 && f.keyRateDrop == 0.0 &&
            f.qberMa5 == s[i].rec.qber && f.qberVar5 == 0.0
  {
    HistoryContiguous(s, i);
    var w := QberWindow(s, i);
    assert |w| == 1;
    ConstantMean(w, s[i].rec.qber);
  }

  /** At a later row of a group, the differences are taken from the row
      just before it and the relative change compares the two key rates. */
  lemma WithinGroup(s: seq<Row>, i: nat)
    requires 0 < i < |s| && Key(s[i - 1]) == Key(s[i])
    ensures var f := FeaturesAt(s, i);
            && f.qberDelta == s[i].rec.qber - s[i - 1].rec.qber
            && f.darkCountDelta == s[i].rec.darkCountRate - s[i - 1].rec.darkCountRate
            && f.keyRateDrop == ClippedChange(s[i - 1].rec.keyRateSifted, s[i].rec.keyRateSifted)
  {
    HistoryStep(s, i);
  }

  /** In a sorted frame the moving window is the trailing run of at most
      five QBERs of the row's own group, ending at the row: the window
      never reaches into another group. */
  lemma WindowInGroup(s: seq<Row>, i: nat)
    requires SortedBy(s, RowLe)
    requires i < |s|
    ensures var g := GroupStart(s, i);
            var n := if i + 1 - g < Window then i + 1 - g else Window;
            QberWindow(s, i) == Qbers(s[i + 1 - n..i + 1])
  {
    var g := GroupStart(s, i);
    var n := if i + 1 - g < Window then i + 1 - g else Window;
    assert Tail(History(s, i), Window) == s[i + 1 - n..i + 1] by {
      HistoryContiguous(s, i);
      TailOfSlice(s, g, i + 1, Window);
    }
  }

  /** So the moving mean and variance of a row are those of its group's
      last (at most five) QBERs. */
  lemma WindowFeatures(s: seq<Row>, i: nat)
    requires SortedBy(s, RowLe)
    requires i < |s|
    ensures var g := GroupStart(s, i);
            var n := if i + 1 - g < Window then i + 1 - g else Window;
            var f := FeaturesAt(s, i);
            f.qberMa5 == Mean(Qbers(s[i + 1 - n..i + 1])) &&
            f.qberVar5 == WindowVariance(Qbers(s[i + 1 - n..i + 1]))
  {
    WindowInGroup(s, i);
  }

  /** The feature ranges: the relative change lies in [-1, 1], the moving
      mean between the window's extremes, the variance is never negative,
      and each flag is 1 exactly when its threshold is exceeded. */
  lemma FeatureRanges(s: seq<Row>, i: nat)
    requires i < |s|
    ensures var f := FeaturesAt(s, i);
            var w := QberWindow(s, i);
            && -1.0 <= f.keyRateDrop <= 1.0
            && |w| > 0 && Min(w) <= f.qberMa5 <= Max(w)
            && f.qberVar5 >= 0.0
            && (f.backReflectionAlert == 1 <==> s[i].rec.backReflectionPower > ReflectionThreshold)
            && (f.backReflectionAlert == 0 <==> s[i].rec.backReflectionPower <= ReflectionThreshold)
            && (f.qberAlert == 1 <==> s[i].rec.qber > QberThreshold)
            && (f.qberAlert == 0 <==> s[i].rec.qber <= QberThreshold)
  {
  }
}
