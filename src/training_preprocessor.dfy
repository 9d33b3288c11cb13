/**
 * The training preprocessor: a recorded CSV file becomes a list of
 * fixed-size windows of the four electrode columns, each carrying the
 * one-hot encoding of the class named by the file's path.
 */
module TrainingPreprocessor {
  import opened Wrappers
  import Text
  import Inference

  /** The electrode columns the model is trained on, in order. */
  const FeatureColumns: seq<string> := ["T3", "T4", "O1", "O2"]

  /** The class named by a path: the first of "red", "green", "trash" found in it, ignoring case. */
  function ClassLabel(path: string): (cls: string)
    ensures cls in {"red", "green", "trash", "unknown"}
    ensures cls == "red" <==> Text.Contains(Text.Lower(path), "red")
    ensures cls == "green" <==> !Text.Contains(Text.Lower(path), "red") && Text.Contains(Text.Lower(path), "green")
    ensures cls == "trash" <==>
      !Text.Contains(Text.Lower(path), "red") && !Text.Contains(Text.Lower(path), "green") &&
      Text.Contains(Text.Lower(path), "trash")
    ensures cls == "unknown" <==>
      !Text.Contains(Text.Lower(path), "red") && !Text.Contains(Text.Lower(path), "green") &&
      !Text.Contains(Text.Lower(path), "trash")
  {
    var lower := Text.Lower(path);
    if Text.Contains(lower, "red") then "red"
    else if Text.Contains(lower, "green") then "green"
    else if Text.Contains(lower, "trash") then "trash"
    else "unknown"
  }

  lemma {:induction false} LowerIdempotent(s: string)
    ensures Text.Lower(Text.Lower(s)) == Text.Lower(s)
  {
    if s != [] {
      LowerIdempotent(s[1..]);
    }
  }

  /** Only the letters of the path matter, not their case. */
  lemma ClassLabelIgnoresCase(path: string)
    ensures ClassLabel(Text.Lower(path)) == ClassLabel(path)
  {
    LowerIdempotent(path);
  }

  /** The one-hot vector of a class; an unknown class gets the two-element zero vector. */
  function OneHot(cls: string): (v: seq<int>)
    ensures cls !in Inference.ColorMap ==> v == [0, 0]
  {
    if cls == "red" then [1, 0, 0]
    else if cls == "green" then [0, 1, 0]
    else if cls == "trash" then [0, 0, 1]
    else [0, 0]
  }

  /**
   * A known class gets three entries with a single 1, at the class's
   * position in the inference service's colour table, so the service's
   * argmax and label lookup read a one-hot vector back as its class.
   */
  lemma OneHotDecodes(k: nat)
    requires k < |Inference.ColorMap|
    ensures var v := OneHot(Inference.ColorMap[k]);
      && |v| == 3
      && v[k] == 1
      && (forall i :: 0 <= i < 3 && i != k ==> v[i] == 0)
    ensures var v := OneHot(Inference.ColorMap[k]);
      var probs := seq(3, i requires 0 <= i < 3 => v[i] as real);
      Inference.FirstArgMax(probs) == k && Inference.Label(Inference.FirstArgMax(probs)) == Ok(Inference.ColorMap[k])
  {
    var v := OneHot(Inference.ColorMap[k]);
    var probs := seq(3, i requires 0 <= i < 3 => v[i] as real);
    Inference.FirstArgMaxUnique(probs, k);
  }

  /** Distinct known classes get distinct vectors. */
  lemma OneHotInjective(a: string, b: string)
    requires a in Inference.ColorMap && b in Inference.ColorMap
    requires OneHot(a) == OneHot(b)
    ensures a == b
  {
  }

  /** A CSV row: a value, or nothing when missing, for each of the file's columns. */
  type CsvRow = map<string, Option<real>>

  /** A CSV file as read: its columns and its rows. */
  datatype CsvTable = CsvTable(columns: set<string>, rows: seq<CsvRow>)
  {
    /** Every row has exactly the table's columns. */
    predicate Rectangular()
    {
      forall i :: 0 <= i < |rows| ==> rows[i].Keys == columns
    }
  }

  /** A row kept after dropping missing values: its original row number and its four features. */
  datatype IndexedRow = IndexedRow(index: nat, values: seq<real>)

  /** A training example: consecutive rows of features and the one-hot class. */
  datatype Window = Window(features: seq<seq<real>>, encoding: seq<int>)

  predicate HasFeatures(r: CsvRow)
  {
    "T3" in r && "T4" in r && "O1" in r && "O2" in r
  }

  /** The feature columns are exactly the ones `HasFeatures` asks for. */
  lemma HasFeaturesMeansColumns(r: CsvRow)
    ensures HasFeatures(r) <==> forall c :: c in FeatureColumns ==> c in r
  {
  }

  predicate Complete(r: CsvRow)
    requires HasFeatures(r)
  {
    r["T3"].Some? && r["T4"].Some? && r["O1"].Some? && r["O2"].Some?
  }

  function Features(r: CsvRow): (v: seq<real>)
    requires HasFeatures(r) && Complete(r)
    ensures |v| == |FeatureColumns|
    ensures forall j :: 0 <= j < |v| ==> Some(v[j]) == r[FeatureColumns[j]]
  {
    [r["T3"].value, r["T4"].value, r["O1"].value, r["O2"].value]
  }

  /** A row's four features, or nothing when one of them is missing. */
  function Project(r: CsvRow): (p: Option<seq<real>>)
    requires HasFeatures(r)
    ensures p.Some? <==> Complete(r)
  {
    if Complete(r) then Some(Features(r)) else None
  }

  /**
   * The present entries of `cells`, each with its position in the file
   * (counted from `start`).
   */
  function Kept(cells: seq<Option<seq<real>>>, start: nat): (r: seq<IndexedRow>)
    ensures |r| <= |cells|
    decreases |cells|
  {
    if cells == [] then []
    else
      (if cells[0].Some? then [IndexedRow(start, cells[0].value)] else []) + Kept(cells[1..], start + 1)
  }

  /** The rows with all four features present, keeping their row numbers and only the feature columns. */
  function Filtered(rows: seq<CsvRow>): (r: seq<IndexedRow>)
    requires forall i :: 0 <= i < |rows| ==> HasFeatures(rows[i])
  {
    Kept(seq(|rows|, i requires 0 <= i < |rows| => Project(rows[i])), 0)
  }

  /** Each kept entry is a present cell, at its own position, with its own value. */
  lemma {:induction false} KeptSources(cells: seq<Option<seq<real>>>, start: nat)
    ensures forall k :: 0 <= k < |Kept(cells, start)| ==>
      start <= Kept(cells, start)[k].index < start + |cells| &&
      cells[Kept(cells, start)[k].index - start] == Some(Kept(cells, start)[k].values)
    decreases |cells|
  {
    if cells != [] {
      KeptSources(cells[1..], start + 1);
      var r := Kept(cells, start);
      var tail := Kept(cells[1..], start + 1);
      var h := if cells[0].Some? then [IndexedRow(start, cells[0].value)] else [];
      assert r == h + tail;
      forall k | |h| <= k < |r|
        ensures start <= r[k].index < start + |cells| && cells[r[k].index - start] == Some(r[k].values)
      {
        var t := tail[k - |h|];
        assert r[k] == t;
        assert cells[1..][t.index - (start + 1)] == cells[t.index - start];
      }
    }
  }

  /** Kept entries keep the file's order. */
  lemma {:induction false} KeptOrdered(cells: seq<Option<seq<real>>>, start: nat)
    ensures forall k, l :: 0 <= k < l < |Kept(cells, start)| ==>
      Kept(cells, start)[k].index < Kept(cells, start)[l].index
    decreases |cells|
  {
    if cells != [] {
      KeptOrdered(cells[1..], start + 1);
      KeptSources(cells[1..], start + 1);
      var r := Kept(cells, start);
      var tail := Kept(cells[1..], start + 1);
      var h := if cells[0].Some? then [IndexedRow(start, cells[0].value)] else [];
      assert r == h + tail;
      forall k, l | 0 <= k < l < |r|
        ensures r[k].index < r[l].index
      {
        assert r[l] == tail[l - |h|];
        if k >= |h| {
          assert r[k] == tail[k - |h|];
        }
      }
    }
  }

  /** Every present cell is kept. */
  lemma {:induction false} KeptComplete(cells: seq<Option<seq<real>>>, start: nat)
    ensures forall i :: 0 <= i < |cells| && cells[i].Some? ==>
      exists k :: 0 <= k < |Kept(cells, start)| && Kept(cells, start)[k].index == start + i
    decreases |cells|
  {
    if cells != [] {
      KeptComplete(cells[1..], start + 1);
      var r := Kept(cells, start);
      var tail := Kept(cells[1..], start + 1);
      var h := if cells[0].Some? then [IndexedRow(start, cells[0].value)] else [];
      assert r == h + tail;
      forall i | 0 <= i < |cells| && cells[i].Some?
        ensures exists k :: 0 <= k < |r| && r[k].index == start + i
      {
        if i == 0 {
          assert r[0].index == start;
        } else {
          assert cells[1..][i - 1] == cells[i];
          var k :| 0 <= k < |tail| && tail[k].index == start + 1 + (i - 1);
          assert r[|h| + k].index == start + i;
        }
      }
      assert r == Kept(cells, start);
    }
  }

  /** A kept row is a complete row of the file with its own features, and every complete row is kept. */
  lemma FilteredRows(rows: seq<CsvRow>)
    requires forall i :: 0 <= i < |rows| ==> HasFeatures(rows[i])
    ensures forall k :: 0 <= k < |Filtered(rows)| ==>
      var i := Filtered(rows)[k].index;
      i < |rows| && Complete(rows[i]) && Filtered(rows)[k].values == Features(rows[i])
    ensures forall k, l :: 0 <= k < l < |Filtered(rows)| ==> Filtered(rows)[k].index < Filtered(rows)[l].index
    ensures forall i :: 0 <= i < |rows| && Complete(rows[i]) ==>
      exists k :: 0 <= k < |Filtered(rows)| && Filtered(rows)[k].index == i
  {
    var cells := seq(|rows|, i requires 0 <= i < |rows| => Project(rows[i]));
    assert Filtered(rows) == Kept(cells, 0);
    KeptSources(cells, 0);
    KeptOrdered(cells, 0);
    KeptComplete(cells, 0);
    forall i | 0 <= i < |rows|
      ensures cells[i] == Project(rows[i])
    {
    }
  }

  /** Windows in a frame of `n` rows: max(0, n - size + 1). */
  function WindowCount(n: nat, size: nat): (c: nat)
    ensures size <= n ==> c + size == n + 1
    ensures size > n ==> c == 0
  {
    if n + 1 > size then n + 1 - size else 0
  }

  /** The features of consecutive rows. */
  function Values(rows: seq<IndexedRow>): (v: seq<seq<real>>)
    ensures |v| == |rows|
    ensures forall k :: 0 <= k < |rows| ==> v[k] == rows[k].values
  {
    seq(|rows|, k requires 0 <= k < |rows| => rows[k].values)
  }

  /** A frame whose every row holds the four features. */
  predicate FourFeatures(rows: seq<IndexedRow>)
  {
    forall k :: 0 <= k < |rows| ==> |rows[k].values| == |FeatureColumns|
  }

  /** The smallest value of feature column `j` over a non-empty frame. */
  function ColumnMin(rows: seq<IndexedRow>, j: nat): (m: real)
    requires rows != [] && FourFeatures(rows) && j < |FeatureColumns|
    ensures forall k :: 0 <= k < |rows| ==> m <= rows[k].values[j]
    ensures exists k :: 0 <= k < |rows| && m == rows[k].values[j]
    decreases |rows|
  {
    if |rows| == 1 then rows[0].values[j]
    else
      var rest := ColumnMin(rows[1..], j);
      assert forall k :: 1 <= k < |rows| ==> rows[k] == rows[1..][k - 1];
      if rows[0].values[j] <= rest then rows[0].values[j] else rest
  }

  /** The largest value of feature column `j` over a non-empty frame. */
  function ColumnMax(rows: seq<IndexedRow>, j: nat): (m: real)
    requires rows != [] && FourFeatures(rows) && j < |FeatureColumns|
    ensures forall k :: 0 <= k < |rows| ==> rows[k].values[j] <= m
    ensures exists k :: 0 <= k < |rows| && m == rows[k].values[j]
    decreases |rows|
  {
    if |rows| == 1 then rows[0].values[j]
    else
      var rest := ColumnMax(rows[1..], j);
      assert forall k :: 1 <= k < |rows| ==> rows[k] == rows[1..][k - 1];
      if rows[0].values[j] >= rest then rows[0].values[j] else rest
  }

  /**
   * One value scaled to [0, 1] by a column's minimum and maximum, as
   * `MinMaxScaler` does; a constant column (zero range) is divided by 1,
   * so its values become 0.
   */
  function MinMaxScale(x: real, lo: real, hi: real): (y: real)
    requires lo <= x <= hi
    ensures 0.0 <= y <= 1.0
    ensures x == lo ==> y == 0.0
    ensures lo < hi && x == hi ==> y == 1.0
  {
    if hi == lo then x - lo
    else
      QuotientInUnit(x - lo, hi - lo);
      (x - lo) / (hi - lo)
  }

  lemma QuotientInUnit(a: real, b: real)
    requires 0.0 <= a <= b && b > 0.0
    ensures 0.0 <= a / b <= 1.0
    ensures a == b ==> a / b == 1.0
  {
    assert a / b * b == a;
  }

  /** Scaling keeps the order of two values of the same column. */
  lemma MinMaxScaleMonotone(x: real, x': real, lo: real, hi: real)
    requires lo <= x <= x' <= hi
    ensures MinMaxScale(x, lo, hi) <= MinMaxScale(x', lo, hi)
  {
    if hi != lo {
      var d := hi - lo;
      assert (x' - lo) / d - (x - lo) / d == (x' - x) / d;
      QuotientInUnit(0.0, d);
      assert (x' - x) / d >= 0.0 by {
        assert (x' - x) / d * d == x' - x;
      }
    }
  }

  /**
   * `normalize_features`: a `MinMaxScaler` fitted on the whole frame and
   * applied to it, column by column. Rows keep their row numbers.
   */
  function MinMaxScaled(rows: seq<IndexedRow>): (s: seq<IndexedRow>)
    requires rows != [] && FourFeatures(rows)
    ensures |s| == |rows| && FourFeatures(s)
    ensures forall k :: 0 <= k < |rows| ==> s[k].index == rows[k].index
  {
    seq(|rows|, k requires 0 <= k < |rows| =>
      IndexedRow(rows[k].index, seq(|FeatureColumns|, j requires 0 <= j < |FeatureColumns| =>
        MinMaxScale(rows[k].values[j], ColumnMin(rows, j), ColumnMax(rows, j)))))
  }

  /**
   * After scaling, every feature lies in [0, 1], the order of values within
   * a column is kept, and a column that is not constant reaches both 0 and 1.
   */
  lemma MinMaxScaledRange(rows: seq<IndexedRow>, j: nat)
    requires rows != [] && FourFeatures(rows) && j < |FeatureColumns|
    ensures forall k :: 0 <= k < |rows| ==> 0.0 <= MinMaxScaled(rows)[k].values[j] <= 1.0
    ensures forall k, l :: 0 <= k < |rows| && 0 <= l < |rows| && rows[k].values[j] <= rows[l].values[j] ==>
      MinMaxScaled(rows)[k].values[j] <= MinMaxScaled(rows)[l].values[j]
    ensures exists k :: 0 <= k < |rows| && MinMaxScaled(rows)[k].values[j] == 0.0
    ensures ColumnMin(rows, j) < ColumnMax(rows, j) ==>
      exists k :: 0 <= k < |rows| && MinMaxScaled(rows)[k].values[j] == 1.0
  {
    var s := MinMaxScaled(rows);
    var lo, hi := ColumnMin(rows, j), ColumnMax(rows, j);
    forall k, l | 0 <= k < |rows| && 0 <= l < |rows| && rows[k].values[j] <= rows[l].values[j]
      ensures s[k].values[j] <= s[l].values[j]
    {
      MinMaxScaleMonotone(rows[k].values[j], rows[l].values[j], lo, hi);
    }
    var kMin :| 0 <= kMin < |rows| && lo == rows[kMin].values[j];
    assert s[kMin].values[j] == 0.0;
    if lo < hi {
      var kMax :| 0 <= kMax < |rows| && hi == rows[kMax].values[j];
      assert s[kMax].values[j] == 1.0;
    }
  }

  /** Why the windows of a frame cannot be cut: the scaler refuses an empty frame. */
  datatype PreprocessError =
    | MissingFeatureColumns(columns: seq<string>)
    | NoSamples

  /**
   * `create_present_sliding_windows`: scale the frame, then window i holds
   * rows i .. i + size - 1 of it, by position, each window carrying the
   * class's encoding. An empty frame cannot be scaled.
   */
  method SlidingWindows(rows: seq<IndexedRow>, size: nat, cls: string) returns (r: Result<seq<Window>, PreprocessError>)
    requires FourFeatures(rows)
    ensures rows == [] <==> r.Err?
    ensures r.Err? ==> r.error == NoSamples
    ensures r.Ok? ==> |r.value| == WindowCount(|rows|, size)
    ensures r.Ok? ==> forall i :: 0 <= i < |r.value| ==>
      i + size <= |rows| && r.value[i] == Window(Values(MinMaxScaled(rows)[i..i + size]), OneHot(cls))
  {
    if rows == [] {
      return Err(NoSamples);
    }
    var scaled := MinMaxScaled(rows);
    var windows := [];
    var i := 0;
    while i < WindowCount(|rows|, size)
      invariant 0 <= i <= WindowCount(|rows|, size)
      invariant |windows| == i
      invariant forall k :: 0 <= k < i ==>
        k + size <= |rows| && windows[k] == Window(Values(scaled[k..k + size]), OneHot(cls))
    {
      windows := windows + [Window(Values(scaled[i..i + size]), OneHot(cls))];
      i := i + 1;
    }
    r := Ok(windows);
  }

  /** The feature columns missing from a table, in order. */
  function MissingColumns(columns: set<string>): (m: seq<string>)
    ensures forall c :: c in m <==> c in FeatureColumns && c !in columns
  {
    Missing(FeatureColumns, columns)
  }

  function Missing(cs: seq<string>, columns: set<string>): (m: seq<string>)
    ensures forall c :: c in m <==> c in cs && c !in columns
  {
    if cs == [] then []
    else (if cs[0] in columns then [] else [cs[0]]) + Missing(cs[1..], columns)
  }

  /** Every kept row holds the four features. */
  lemma FilteredFourFeatures(rows: seq<CsvRow>)
    requires forall i :: 0 <= i < |rows| ==> HasFeatures(rows[i])
    ensures FourFeatures(Filtered(rows))
  {
    FilteredRows(rows);
  }

  /**
   * The whole preprocessing of one file: drop the rows missing a feature,
   * keep the four feature columns, label by path, scale and cut windows. A
   * file lacking a feature column fails, naming the missing columns; a
   * file with no complete row fails in the scaler.
   */
  method Preprocess(table: CsvTable, path: string, size: nat) returns (r: Result<seq<Window>, PreprocessError>)
    requires table.Rectangular()
    ensures (exists c :: c in FeatureColumns && c !in table.columns) ==>
      r == Err(MissingFeatureColumns(MissingColumns(table.columns)))
    ensures (forall c :: c in FeatureColumns ==> c in table.columns) ==>
      var kept := Filtered(table.rows);
      && FourFeatures(kept)
      && (kept == [] <==> r.Err?)
      && (r.Err? ==> r.error == NoSamples)
      && (r.Ok? ==> |r.value| == WindowCount(|kept|, size))
      && (r.Ok? ==> forall i :: 0 <= i < |r.value| ==>
           i + size <= |kept| &&
           r.value[i] == Window(Values(MinMaxScaled(kept)[i..i + size]), OneHot(ClassLabel(path))))
  {
    var missing := MissingColumns(table.columns);
    if missing != [] {
      assert missing[0] in missing;
      return Err(MissingFeatureColumns(missing));
    }
    var kept := Filtered(table.rows);
    FilteredFourFeatures(table.rows);
    r := SlidingWindows(kept, size, ClassLabel(path));
  }

  // The windows as the source slices them: by row label, inclusive at
  // both ends, so that after rows were dropped a window holds the rows
  // whose original number falls in its range rather than `size`
  // consecutive kept rows.

  /** The features of the rows numbered lo .. hi, inclusive. */
  function Select(rows: seq<IndexedRow>, lo: int, hi: int): (v: seq<seq<real>>)
    ensures |v| <= |rows|
  {
    if rows == [] then []
    else (if lo <= rows[0].index <= hi then [rows[0].values] else []) + Select(rows[1..], lo, hi)
  }

  /**
   * The windows as written, cut from the scaled frame (whose rows keep
   * their numbers, see `MinMaxScaled`): window i is the label slice
   * i .. i + size - 1.
   */
  function WindowsAsWritten(rows: seq<IndexedRow>, size: nat, cls: string): (w: seq<Window>)
    ensures |w| == WindowCount(|rows|, size)
  {
    seq(WindowCount(|rows|, size), i requires 0 <= i < WindowCount(|rows|, size) =>
      Window(Select(rows, i, i + size - 1), OneHot(cls)))
  }

  lemma {:induction false} SelectNone(rows: seq<IndexedRow>, lo: int, hi: int)
    requires forall k :: 0 <= k < |rows| ==> rows[k].index > hi
    ensures Select(rows, lo, hi) == []
    decreases |rows|
  {
    if rows != [] {
      SelectNone(rows[1..], lo, hi);
    }
  }

  /** On rows numbered s, s + 1, ..., the label slice lo .. hi is the positional slice. */
  lemma {:induction false} SelectContiguous(rows: seq<IndexedRow>, s: nat, lo: int, hi: int)
    requires forall k :: 0 <= k < |rows| ==> rows[k].index == s + k
    requires lo <= hi + 1 && 0 <= hi - s + 1 <= |rows|
    ensures var a := if lo - s > 0 then lo - s else 0;
      Select(rows, lo, hi) == Values(rows[a..hi - s + 1])
    decreases |rows|
  {
    if hi - s + 1 == 0 {
      SelectNone(rows, lo, hi);
    } else {
      SelectContiguous(rows[1..], s + 1, lo, hi);
      var a := if lo - s > 0 then lo - s else 0;
      var a' := if lo - s - 1 > 0 then lo - s - 1 else 0;
      if lo <= s {
        assert Values(rows[a..hi - s + 1]) == [rows[0].values] + Values(rows[1..][a'..hi - s]);
      } else {
        assert Values(rows[a..hi - s + 1]) == Values(rows[1..][a'..hi - s]);
      }
    }
  }

  /** When no row was dropped, the label slices are the positional windows. */
  lemma AsWrittenAgreesWithoutDrops(rows: seq<IndexedRow>, size: nat, cls: string)
    requires forall k :: 0 <= k < |rows| ==> rows[k].index == k
    ensures forall i :: 0 <= i < WindowCount(|rows|, size) ==>
      WindowsAsWritten(rows, size, cls)[i] == Window(Values(rows[i..i + size]), OneHot(cls))
  {
    forall i | 0 <= i < WindowCount(|rows|, size)
      ensures WindowsAsWritten(rows, size, cls)[i] == Window(Values(rows[i..i + size]), OneHot(cls))
    {
      SelectContiguous(rows, 0, i, i + size - 1);
    }
  }

  /**
   * Three rows, the middle one missing T3, windows of two rows: the only
   * window the source makes holds one row, where two were meant.
   */
  lemma DroppedRowShortensWindow()
    ensures var full := map["T3" := Some(1.0), "T4" := Some(1.0), "O1" := Some(1.0), "O2" := Some(1.0)];
      var gap := full["T3" := None];
      var kept := Filtered([full, gap, full]);
      && |kept| == 2
      && FourFeatures(kept)
      && |WindowsAsWritten(MinMaxScaled(kept), 2, "red")| == 1
      && |WindowsAsWritten(MinMaxScaled(kept), 2, "red")[0].features| == 1
      && |Values(MinMaxScaled(kept)[0..2])| == 2
  {
    var full := map["T3" := Some(1.0), "T4" := Some(1.0), "O1" := Some(1.0), "O2" := Some(1.0)];
    var gap := full["T3" := None];
    assert FeatureColumns[0] == "T3" && gap["T3"] == None;
    assert !Complete(gap);
    assert Complete(full) && Features(full) == [1.0, 1.0, 1.0, 1.0];
    var cells := [Some(Features(full)), None, Some(Features(full))];
    assert seq(3, i requires 0 <= i < 3 => Project([full, gap, full][i])) == cells;
    assert cells[1..] == [None, Some(Features(full))] && cells[1..][1..] == [Some(Features(full))];
    assert cells[1..][1..][1..] == [];
    var f := Features(full);
    assert Kept(cells[1..][1..][1..], 3) == [];
    assert Kept(cells[1..][1..], 2) == [IndexedRow(2, f)];
    assert Kept(cells[1..], 1) == [IndexedRow(2, f)];
    assert Kept(cells, 0) == [IndexedRow(0, f), IndexedRow(2, f)];
    var kept := Filtered([full, gap, full]);
    assert kept == [IndexedRow(0, [1.0, 1.0, 1.0, 1.0]), IndexedRow(2, [1.0, 1.0, 1.0, 1.0])];
    var scaled := MinMaxScaled(kept);
    assert scaled[0].index == 0 && scaled[1].index == 2;
    assert scaled[1..][1..] == [];
    assert Select(scaled, 0, 1) == [scaled[0].values];
  }
}
