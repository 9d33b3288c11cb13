/**
 * The capture tool's electrode resistance reading: the latest board rows,
 * converted to kilo-ohms, averaged per electrode over the plausible
 * readings, with fixed defaults when there is nothing to average or the
 * reading fails.
 */
module Resistance {
  import opened Wrappers
  import BrainFlow

  /** Ohms to kilo-ohms. */
  function OhmToKohm(ohms: real): (kohms: real)
    ensures kohms * 1000.0 == ohms
  {
    ohms / 1000.0
  }

  /** The conversion is strictly increasing, keeps the sign and maps 0 to 0. */
  lemma OhmToKohmOrder(a: real, b: real)
    ensures a < b <==> OhmToKohm(a) < OhmToKohm(b)
    ensures (a > 0.0 <==> OhmToKohm(a) > 0.0) && (a < 0.0 <==> OhmToKohm(a) < 0.0)
    ensures OhmToKohm(0.0) == 0.0
  {
  }

  /** The value used when an electrode has no plausible reading or no row. */
  const NoReading: real := 3000.0
  /** The value used for every electrode when the reading fails. */
  const ReadingFailed: real := 3300.0
  /** Plausible readings lie strictly between these, in kilo-ohms. */
  const MinPlausible: real := 1.0
  const MaxPlausible: real := 5000.0
  /** Samples requested per reading. */
  const SampleCount: nat := 100

  /** The board row holding an electrode's resistance; unknown names have none. */
  function ResistanceRow(electrode: string): Option<nat>
  {
    if electrode == "T3" then Some(5)
    else if electrode == "T4" then Some(6)
    else if electrode == "O1" then Some(7)
    else if electrode == "O2" then Some(8)
    else None
  }

  /** The row table is the one the headset adapter uses. */
  lemma SameRowsAsAdapter(j: nat)
    requires j < 4
    ensures ResistanceRow(["T3", "T4", "O1", "O2"][j]) == Some(BrainFlow.ResistanceRows[j])
  {
  }

  function Abs(x: real): real
  {
    if x < 0.0 then -x else x
  }

  /** The plausible readings of a row, in kilo-ohms, in order. */
  function Plausible(row: seq<real>): (r: seq<real>)
    ensures |r| <= |row|
    ensures forall i :: 0 <= i < |r| ==> MinPlausible < r[i] < MaxPlausible
  {
    if row == [] then []
    else
      var k := OhmToKohm(Abs(row[0]));
      (if MinPlausible < k < MaxPlausible then [k] else []) + Plausible(row[1..])
  }

  function Sum(s: seq<real>): real
  {
    if s == [] then 0.0 else s[0] + Sum(s[1..])
  }

  function Mean(s: seq<real>): real
    requires s != []
  {
    Sum(s) / |s| as real
  }

  /** A sum of values strictly inside (lo, hi) lies strictly inside (n lo, n hi). */
  lemma {:induction false} SumBounds(s: seq<real>, lo: real, hi: real)
    requires s != []
    requires forall i :: 0 <= i < |s| ==> lo < s[i] < hi
    ensures lo * |s| as real < Sum(s) < hi * |s| as real
  {
    if |s| > 1 {
      SumBounds(s[1..], lo, hi);
      assert lo * |s| as real == lo + lo * |s[1..]| as real;
      assert hi * |s| as real == hi + hi * |s[1..]| as real;
    }
  }

  /** The mean of plausible readings is itself plausible. */
  lemma MeanIsPlausible(s: seq<real>)
    requires s != []
    requires forall i :: 0 <= i < |s| ==> MinPlausible < s[i] < MaxPlausible
    ensures MinPlausible < Mean(s) < MaxPlausible
  {
    SumBounds(s, MinPlausible, MaxPlausible);
    QuotientBounds(Sum(s), |s| as real, MinPlausible, MaxPlausible);
  }

  lemma QuotientBounds(x: real, n: real, lo: real, hi: real)
    requires n > 0.0 && lo * n < x < hi * n
    ensures lo < x / n < hi
  {
    var q := x / n;
    assert q * n == x;
  }

  /** One electrode's value from rows that hold samples: the mean of its plausible readings, or the default. */
  function ElectrodeValue(rows: seq<seq<real>>, row: nat): (v: real)
    ensures v == NoReading || MinPlausible < v < MaxPlausible
  {
    if row < |rows| && Plausible(rows[row]) != [] then
      MeanIsPlausible(Plausible(rows[row]));
      Mean(Plausible(rows[row]))
    else NoReading
  }

  /** Whether a board reading holds any sample (a rectangular array of non-zero size). */
  predicate HasSamples(rows: seq<seq<real>>)
  {
    rows != [] && rows[0] != []
  }

  /**
   * The resistance reading. `reading` is the board's answer, an error
   * standing for an exception it raised. An unknown electrode name raises
   * too, but only once there are samples to look it up for.
   */
  method GetResistanceValues(reading: Result<seq<seq<real>>, string>, electrodes: seq<string>)
    returns (values: map<string, real>)
    ensures values.Keys == set e | e in electrodes
    ensures reading.Err? ==> forall e :: e in values ==> values[e] == ReadingFailed
    ensures reading.Ok? && !HasSamples(reading.value) ==> forall e :: e in values ==> values[e] == NoReading
    ensures reading.Ok? && HasSamples(reading.value) && (exists e :: e in electrodes && ResistanceRow(e).None?) ==>
      forall e :: e in values ==> values[e] == ReadingFailed
    ensures (reading.Ok? && HasSamples(reading.value) && forall e :: e in electrodes ==> ResistanceRow(e).Some?) ==>
      forall e :: e in values ==> values[e] == ElectrodeValue(reading.value, ResistanceRow(e).value)
  {
    if reading.Err? {
      return map e | e in electrodes :: ReadingFailed;
    }
    var rows := reading.value;
    if !HasSamples(rows) {
      return map e | e in electrodes :: NoReading;
    }
    values := map[];
    var k := 0;
    while k < |electrodes|
      invariant 0 <= k <= |electrodes|
      invariant values.Keys == set e | e in electrodes[..k]
      invariant forall e :: e in electrodes[..k] ==> ResistanceRow(e).Some?
      invariant forall e :: e in values ==> values[e] == ElectrodeValue(rows, ResistanceRow(e).value)
    {
      var e := electrodes[k];
      var row := ResistanceRow(e);
      if row.None? {
        return map e | e in electrodes :: ReadingFailed;
      }
      var value;
      if row.value < |rows| {
        var valid := Plausible(rows[row.value]);
        if |valid| > 0 {
          value := Mean(valid);
        } else {
          value := NoReading;
        }
      } else {
        value := NoReading;
      }
      values := values[e := value];
      assert electrodes[..k + 1] == electrodes[..k] + [e];
      k := k + 1;
    }
    assert electrodes[..k] == electrodes;
  }
}
