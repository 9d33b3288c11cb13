/**
 * The colour-inference service: the EEG samples of the four channels are
 * checked, normalised, fitted to 62 samples each and interleaved time-major
 * into the 248 inputs of the network; the network's first output is turned
 * into probabilities and the most probable class names the colour.
 *
 * The network, the z-score normalisation and the softmax are parameters:
 * their floating-point numerics are not part of this model.
 */
module Inference {
  import opened Wrappers
  import opened Events
  import Text

  /** Samples per channel the network expects. */
  const ExpectedSamples: nat := 62
  /** Inputs the network expects: 62 time steps of the four channels. */
  const ExpectedElements: nat := 62 * 4
  /** Class index to colour label. */
  const ColorMap: seq<string> := ["red", "green", "trash"]

  const NotLoaded: string := "Model is not loaded. Call load_model first."
  const NoOutputs: string := "No outputs returned from model"
  const NoProbabilities: string := "No probabilities obtained from the model"
  const InferenceFailurePrefix: string := "Error during inference: "
  const OutOfRangePrefix: string := "Prediction index out of range: "

  function MissingChannel(c: string): string
  {
    "Required channel '" + c + "' not found in EEG data"
  }

  function EmptyChannel(c: string): string
  {
    "Channel '" + c + "' has no data"
  }

  function UnexpectedLength(n: nat): string
  {
    "Processed data has unexpected length: " + Text.NatToString(n) + " (expected " + Text.NatToString(ExpectedElements) + ")"
  }

  /** A loaded network: from its inputs to its output tensors (each flattened) or an error. */
  type Network = seq<real> -> Result<seq<seq<real>>, string>

  /** The first of `chans` that `data` lacks. */
  function FirstMissing(data: HeadsetMap, chans: seq<string>): (r: Option<string>)
    ensures r.None? <==> forall k :: 0 <= k < |chans| ==> chans[k] in data
    ensures r.Some? ==> exists j :: (0 <= j < |chans| && chans[j] == r.value && r.value !in data &&
      forall k :: 0 <= k < j ==> chans[k] in data)
  {
    if chans == [] then None
    else if chans[0] !in data then Some(chans[0])
    else
      var r := FirstMissing(data, chans[1..]);
      if r.Some? then
        var j :| 0 <= j < |chans[1..]| && chans[1..][j] == r.value && r.value !in data &&
          forall k :: 0 <= k < j ==> chans[1..][k] in data;
        assert chans[j + 1] == r.value;
        r
      else r
  }

  /** The first of `chans` whose sample list in `data` is empty. */
  function FirstEmpty(data: HeadsetMap, chans: seq<string>): (r: Option<string>)
    requires forall k :: 0 <= k < |chans| ==> chans[k] in data
    ensures r.None? <==> forall k :: 0 <= k < |chans| ==> data[chans[k]] != []
    ensures r.Some? ==> exists j :: (0 <= j < |chans| && chans[j] == r.value && data[r.value] == [] &&
      forall k :: 0 <= k < j ==> data[chans[k]] != [])
  {
    if chans == [] then None
    else if data[chans[0]] == [] then Some(chans[0])
    else
      var r := FirstEmpty(data, chans[1..]);
      if r.Some? then
        var j :| 0 <= j < |chans[1..]| && chans[1..][j] == r.value && data[r.value] == [] &&
          forall k :: 0 <= k < j ==> data[chans[1..][k]] != [];
        assert chans[j + 1] == r.value;
        r
      else r
  }

  /** A channel fitted to 62 samples: padded with its last value (0.0 when empty), or cut to its first 62. */
  function Fit(v: seq<real>): (r: seq<real>)
    ensures |r| == ExpectedSamples
    ensures forall i :: 0 <= i < ExpectedSamples && i < |v| ==> r[i] == v[i]
    ensures forall i :: |v| <= i < ExpectedSamples ==> r[i] == LastOrZero(v)
  {
    if |v| < ExpectedSamples then v + seq(ExpectedSamples - |v|, _ => LastOrZero(v))
    else v[..ExpectedSamples]
  }

  /** The values of every channel at time step `i`, in channel order. */
  function Row(channels: seq<seq<real>>, i: nat): (r: seq<real>)
    requires forall j :: 0 <= j < |channels| ==> i < |channels[j]|
    ensures |r| == |channels|
    ensures forall j :: 0 <= j < |channels| ==> r[j] == channels[j][i]
  {
    seq(|channels|, j requires 0 <= j < |channels| => channels[j][i])
  }

  /** The first `n` time steps of four channels, time-major. */
  function Interleaved(channels: seq<seq<real>>, n: nat): seq<real>
    requires |channels| == 4
    requires forall j :: 0 <= j < 4 ==> n <= |channels[j]|
  {
    if n == 0 then [] else Interleaved(channels, n - 1) + Row(channels, n - 1)
  }

  /** Element `4 i + j` of the interleaving is sample `i` of channel `j`. */
  lemma {:induction false} InterleavedIndex(channels: seq<seq<real>>, n: nat)
    requires |channels| == 4
    requires forall j :: 0 <= j < 4 ==> n <= |channels[j]|
    ensures |Interleaved(channels, n)| == 4 * n
    ensures forall i, j :: 0 <= i < n && 0 <= j < 4 ==> Interleaved(channels, n)[4 * i + j] == channels[j][i]
  {
    if n > 0 {
      InterleavedIndex(channels, n - 1);
      var prev := Interleaved(channels, n - 1);
      var row := Row(channels, n - 1);
      assert Interleaved(channels, n) == prev + row;
      forall i, j | 0 <= i < n && 0 <= j < 4
        ensures Interleaved(channels, n)[4 * i + j] == channels[j][i]
      {
        if i < n - 1 {
          assert 4 * i + j < 4 * (n - 1) == |prev|;
          assert (prev + row)[4 * i + j] == prev[4 * i + j];
        } else {
          assert 4 * i + j == |prev| + j;
          assert (prev + row)[4 * i + j] == row[j];
        }
      }
    }
  }

  /** The normalised, fitted channels in the order T3, T4, O1, O2. */
  function FittedChannels(data: HeadsetMap, normalize: seq<real> -> seq<real>): (r: seq<seq<real>>)
    requires forall k :: 0 <= k < 4 ==> Channels[k] in data
    ensures |r| == 4
    ensures forall j :: 0 <= j < 4 ==> r[j] == Fit(normalize(data[Channels[j]]))
  {
    seq(4, j requires 0 <= j < 4 => Fit(normalize(data[Channels[j]])))
  }

  /** What preprocessing yields: the first missing channel, else the first empty one, else the network inputs. */
  function Preprocessed(data: HeadsetMap, normalize: seq<real> -> seq<real>): Result<seq<real>, string>
  {
    match FirstMissing(data, Channels)
    case Some(c) => Err(MissingChannel(c))
    case None =>
      match FirstEmpty(data, Channels)
      case Some(c) => Err(EmptyChannel(c))
      case None => Ok(Interleaved(FittedChannels(data, normalize), ExpectedSamples))
  }

  /**
   * Preprocessing succeeds exactly when all four channels are present and
   * non-empty; it then yields 248 values, element `4 i + j` being sample `i`
   * of channel `j` after normalising and fitting, whatever the channels'
   * lengths (so the length check that follows preprocessing never fires).
   */
  lemma PreprocessedShape(data: HeadsetMap, normalize: seq<real> -> seq<real>)
    ensures Preprocessed(data, normalize).Ok? <==>
      forall k :: 0 <= k < 4 ==> Channels[k] in data && data[Channels[k]] != []
    ensures Preprocessed(data, normalize).Ok? ==>
      var r := Preprocessed(data, normalize).value;
      |r| == ExpectedElements &&
      forall i, j :: 0 <= i < ExpectedSamples && 0 <= j < 4 ==> r[4 * i + j] == Fit(normalize(data[Channels[j]]))[i]
  {
    if Preprocessed(data, normalize).Ok? {
      InterleavedIndex(FittedChannels(data, normalize), ExpectedSamples);
    }
  }

  /**
   * Errors name a channel: the first missing one in the order T3, T4, O1,
   * O2; only when none is missing, the first empty one.
   */
  lemma PreprocessedErrors(data: HeadsetMap, normalize: seq<real> -> seq<real>, j: nat)
    requires j < 4
    ensures Channels[j] !in data && (forall k :: 0 <= k < j ==> Channels[k] in data) ==>
      Preprocessed(data, normalize) == Err(MissingChannel(Channels[j]))
    ensures ((forall k :: 0 <= k < 4 ==> Channels[k] in data) &&
      data[Channels[j]] == [] && (forall k :: 0 <= k < j ==> data[Channels[k]] != [])) ==>
      Preprocessed(data, normalize) == Err(EmptyChannel(Channels[j]))
  {
    var m := FirstMissing(data, Channels);
    if m.Some? {
      var i :| 0 <= i < 4 && Channels[i] == m.value && m.value !in data && forall k :: 0 <= k < i ==> Channels[k] in data;
      assert Channels[i] !in data;
    } else {
      var e := FirstEmpty(data, Channels);
      if e.Some? {
        var i :| 0 <= i < 4 && Channels[i] == e.value && data[e.value] == [] && forall k :: 0 <= k < i ==> data[Channels[k]] != [];
        assert data[Channels[i]] == [];
      }
    }
  }

  /** The channel check: the first required channel the data lacks. */
  method FindMissing(data: HeadsetMap) returns (missing: Option<string>)
    ensures missing == FirstMissing(data, Channels)
  {
    var j := 0;
    while j < 4
      invariant 0 <= j <= 4
      invariant FirstMissing(data, Channels) == FirstMissing(data, Channels[j..])
    {
      if Channels[j] !in data {
        return Some(Channels[j]);
      }
      assert Channels[j..][1..] == Channels[j + 1..];
      j := j + 1;
    }
    missing := None;
  }

  /** Normalising and fitting each channel in turn, stopping at the first empty one. */
  method FitChannels(data: HeadsetMap, normalize: seq<real> -> seq<real>) returns (r: Result<seq<seq<real>>, string>)
    requires forall k :: 0 <= k < 4 ==> Channels[k] in data
    ensures FirstEmpty(data, Channels).Some? ==> r == Err(EmptyChannel(FirstEmpty(data, Channels).value))
    ensures FirstEmpty(data, Channels).None? ==> r == Ok(FittedChannels(data, normalize))
  {
    var normalized: seq<seq<real>> := [];
    var j := 0;
    while j < 4
      invariant 0 <= j <= 4 && |normalized| == j
      invariant forall k :: 0 <= k < j ==> normalized[k] == Fit(normalize(data[Channels[k]]))
      invariant FirstEmpty(data, Channels) == FirstEmpty(data, Channels[j..])
    {
      var values := data[Channels[j]];
      if values == [] {
        return Err(EmptyChannel(Channels[j]));
      }
      var v := normalize(values);
      if |v| < ExpectedSamples {
        var last := if v == [] then 0.0 else v[|v| - 1];
        v := v + seq(ExpectedSamples - |v|, _ => last);
      } else if |v| > ExpectedSamples {
        v := v[..ExpectedSamples];
      }
      assert v == Fit(normalize(values));
      assert Channels[j..][1..] == Channels[j + 1..];
      normalized := normalized + [v];
      j := j + 1;
    }
    assert normalized == FittedChannels(data, normalize);
    r := Ok(normalized);
  }

  /** The time-major layout: for each time step, the four channels' values in order. */
  method Interleave(channels: seq<seq<real>>) returns (out: seq<real>)
    requires |channels| == 4
    requires forall j :: 0 <= j < 4 ==> |channels[j]| == ExpectedSamples
    ensures out == Interleaved(channels, ExpectedSamples)
  {
    out := [];
    var i := 0;
    while i < ExpectedSamples
      invariant 0 <= i <= ExpectedSamples
      invariant out == Interleaved(channels, i)
    {
      var c := 0;
      while c < |channels|
        invariant 0 <= c <= 4
        invariant out == Interleaved(channels, i) + Row(channels, i)[..c]
      {
        assert Row(channels, i)[..c + 1] == Row(channels, i)[..c] + [channels[c][i]];
        out := out + [channels[c][i]];
        c := c + 1;
      }
      assert Row(channels, i)[..4] == Row(channels, i);
      i := i + 1;
    }
  }

  /** The preprocessing: check the channels, normalise and fit each, then interleave. */
  method PreprocessData(data: HeadsetMap, normalize: seq<real> -> seq<real>) returns (r: Result<seq<real>, string>)
    ensures r == Preprocessed(data, normalize)
  {
    var missing := FindMissing(data);
    if missing.Some? {
      return Err(MissingChannel(missing.value));
    }
    var fitted := FitChannels(data, normalize);
    if fitted.Err? {
      return Err(fitted.error);
    }
    var out := Interleave(fitted.value);
    r := Ok(out);
  }

  /** The first index holding the largest value. */
  function FirstArgMax(s: seq<real>): (k: nat)
    requires |s| > 0
    ensures k < |s|
    ensures forall i :: 0 <= i < |s| ==> s[i] <= s[k]
    ensures forall i :: 0 <= i < k ==> s[i] < s[k]
    decreases |s|
  {
    if |s| == 1 then 0
    else
      var k := FirstArgMax(s[..|s| - 1]);
      if s[|s| - 1] > s[k] then |s| - 1 else k
  }

  /** Only one index is both maximal and ahead of every other maximum. */
  lemma FirstArgMaxUnique(s: seq<real>, k: nat)
    requires k < |s|
    requires forall i :: 0 <= i < |s| ==> s[i] <= s[k]
    requires forall i :: 0 <= i < k ==> s[i] < s[k]
    ensures k == FirstArgMax(s)
  {
    var m := FirstArgMax(s);
    assert s[m] <= s[k] && s[k] <= s[m];
  }

  /** Any order-preserving rescaling, such as a softmax, leaves the chosen index where it was. */
  lemma ArgMaxKeptByOrderPreserving(s: seq<real>, t: seq<real>)
    requires |s| > 0 && |t| == |s|
    requires forall i, j :: 0 <= i < |s| && 0 <= j < |s| ==> (s[i] < s[j] <==> t[i] < t[j])
    ensures FirstArgMax(t) == FirstArgMax(s)
  {
    var k := FirstArgMax(s);
    forall i | 0 <= i < |t|
      ensures t[i] <= t[k]
    {
      assert !(s[k] < s[i]);
    }
    FirstArgMaxUnique(t, k);
  }

  /** The scan over the probabilities: a later index wins only with a strictly larger value. */
  method ArgMax(probs: seq<real>) returns (maxIdx: nat)
    requires |probs| > 0
    ensures maxIdx < |probs|
    ensures forall i :: 0 <= i < |probs| ==> probs[i] <= probs[maxIdx]
    ensures forall i :: 0 <= i < maxIdx ==> probs[i] < probs[maxIdx]
  {
    var maxProb := probs[0];
    maxIdx := 0;
    var i := 0;
    while i < |probs|
      invariant 0 <= i <= |probs|
      invariant maxIdx < |probs| && maxIdx <= i && maxProb == probs[maxIdx]
      invariant i > 0 ==> maxIdx < i
      invariant forall k :: 0 <= k < i ==> probs[k] <= maxProb
      invariant forall k :: 0 <= k < maxIdx ==> probs[k] < maxProb
    {
      if probs[i] > maxProb {
        maxProb := probs[i];
        maxIdx := i;
      }
      i := i + 1;
    }
  }

  /** The label for a class index: a colour, or the out-of-range error. */
  function Label(k: nat): Result<string, string>
  {
    if k >= |ColorMap| then Err(OutOfRangePrefix + Text.NatToString(k)) else Ok(ColorMap[k])
  }

  /**
   * The prediction with the emptiness of the network's output checked
   * before anything reads its first element.
   */
  function Predict(model: Option<Network>, data: HeadsetMap, normalize: seq<real> -> seq<real>,
                   softmax: seq<real> -> seq<real>): Result<string, string>
  {
    if model.None? then Err(NotLoaded)
    else match Preprocessed(data, normalize)
      case Err(e) => Err(e)
      case Ok(input) =>
        if |input| != ExpectedElements then Err(UnexpectedLength(|input|))
        else match model.value(input)
          case Err(e) => Err(InferenceFailurePrefix + e)
          case Ok(outputs) =>
            if outputs == [] then Err(NoOutputs)
            else if outputs[0] == [] then Err(NoProbabilities)
            else
              var probs := softmax(outputs[0]);
              if probs == [] then Err(NoProbabilities)
              else Label(FirstArgMax(probs))
  }

  /** The outcome of the prediction as the source orders it: a result, or a panic. */
  datatype Reply = Answer(result: Result<string, string>) | Panic

  /**
   * The prediction as written: the maximum scan reads the first output
   * value before the emptiness check, so an empty output panics there and
   * the check after the softmax can only see what the softmax returned.
   */
  function PredictAsWritten(model: Option<Network>, data: HeadsetMap, normalize: seq<real> -> seq<real>,
                            softmax: seq<real> -> seq<real>): Reply
  {
    if model.None? then Answer(Err(NotLoaded))
    else match Preprocessed(data, normalize)
      case Err(e) => Answer(Err(e))
      case Ok(input) =>
        if |input| != ExpectedElements then Answer(Err(UnexpectedLength(|input|)))
        else match model.value(input)
          case Err(e) => Answer(Err(InferenceFailurePrefix + e))
          case Ok(outputs) =>
            if outputs == [] then Answer(Err(NoOutputs))
            else if outputs[0] == [] then Panic
            else
              var probs := softmax(outputs[0]);
              if probs == [] then Answer(Err(NoProbabilities))
              else Answer(Label(FirstArgMax(probs)))
  }

  /** Whether a network is loaded and ready. */
  predicate IsModelLoaded(model: Option<Network>)
  {
    model.Some?
  }

  /** The prediction, step by step; it agrees with `Predict`. */
  method PredictColor(model: Option<Network>, data: HeadsetMap, normalize: seq<real> -> seq<real>,
                      softmax: seq<real> -> seq<real>) returns (r: Result<string, string>)
    ensures r == Predict(model, data, normalize, softmax)
  {
    if !IsModelLoaded(model) {
      return Err(NotLoaded);
    }
    var processed := PreprocessData(data, normalize);
    if processed.Err? {
      return Err(processed.error);
    }
    if |processed.value| != ExpectedElements {
      return Err(UnexpectedLength(|processed.value|));
    }
    var outputs := model.value(processed.value);
    if outputs.Err? {
      return Err(InferenceFailurePrefix + outputs.error);
    }
    if outputs.value == [] {
      return Err(NoOutputs);
    }
    var raw := outputs.value[0];
    if raw == [] {
      return Err(NoProbabilities);
    }
    var probs := softmax(raw);
    if probs == [] {
      return Err(NoProbabilities);
    }
    var maxIdx := ArgMax(probs);
    FirstArgMaxUnique(probs, maxIdx);
    if maxIdx >= |ColorMap| {
      return Err(OutOfRangePrefix + Text.NatToString(maxIdx));
    }
    r := Ok(ColorMap[maxIdx]);
  }

  /** Without a network the answer is the not-loaded error, whatever the data. */
  lemma NotLoadedFailsFirst(data: HeadsetMap, normalize: seq<real> -> seq<real>, softmax: seq<real> -> seq<real>)
    ensures Predict(None, data, normalize, softmax) == Err(NotLoaded)
    ensures !IsModelLoaded(None)
  {
  }

  /**
   * Post-processing: with a loaded network that answers, a non-empty first
   * output and a softmax that keeps the length and the order of its inputs,
   * the answer is the colour of the first largest raw output when that
   * index is below 3, and the out-of-range error naming the index otherwise.
   * No probability threshold is applied.
   */
  lemma PredictionFollowsArgMax(model: Network, data: HeadsetMap, normalize: seq<real> -> seq<real>,
                                softmax: seq<real> -> seq<real>)
    requires Preprocessed(data, normalize).Ok?
    requires model(Preprocessed(data, normalize).value).Ok?
    requires model(Preprocessed(data, normalize).value).value != []
    requires model(Preprocessed(data, normalize).value).value[0] != []
    requires var raw := model(Preprocessed(data, normalize).value).value[0];
      |softmax(raw)| == |raw| &&
      forall i, j :: 0 <= i < |raw| && 0 <= j < |raw| ==> (raw[i] < raw[j] <==> softmax(raw)[i] < softmax(raw)[j])
    ensures var raw := model(Preprocessed(data, normalize).value).value[0];
      var k := FirstArgMax(raw);
      Predict(Some(model), data, normalize, softmax) ==
        (if k < 3 then Ok(ColorMap[k]) else Err(OutOfRangePrefix + Text.NatToString(k)))
  {
    PreprocessedShape(data, normalize);
    var raw := model(Preprocessed(data, normalize).value).value[0];
    ArgMaxKeptByOrderPreserving(raw, softmax(raw));
  }

  /** Every successful prediction is one of the three colour labels. */
  lemma PredictionIsAColor(model: Option<Network>, data: HeadsetMap, normalize: seq<real> -> seq<real>,
                           softmax: seq<real> -> seq<real>)
    ensures Predict(model, data, normalize, softmax).Ok? ==>
      Predict(model, data, normalize, softmax).value in {"red", "green", "trash"}
  {
  }

  /**
   * As written, a network whose first output is empty makes the prediction
   * panic instead of reporting that no probabilities were obtained; the
   * corrected prediction reports it.
   */
  lemma EmptyOutputPanics(normalize: seq<real> -> seq<real>, softmax: seq<real> -> seq<real>)
    ensures var data := map["T3" := [1.0], "T4" := [1.0], "O1" := [1.0], "O2" := [1.0]];
      var model: Network := _ => Ok([[]]);
      PredictAsWritten(Some(model), data, normalize, softmax) == Panic &&
      Predict(Some(model), data, normalize, softmax) == Err(NoProbabilities)
  {
    var data := map["T3" := [1.0], "T4" := [1.0], "O1" := [1.0], "O2" := [1.0]];
    assert FirstMissing(data, Channels).None?;
    assert FirstEmpty(data, Channels).None?;
    PreprocessedShape(data, normalize);
  }

  /** Apart from that panic, the corrected prediction answers exactly as the written one. */
  lemma AsWrittenAgreesOtherwise(model: Option<Network>, data: HeadsetMap, normalize: seq<real> -> seq<real>,
                                 softmax: seq<real> -> seq<real>)
    ensures PredictAsWritten(model, data, normalize, softmax).Answer? ==>
      PredictAsWritten(model, data, normalize, softmax).result == Predict(model, data, normalize, softmax)
    ensures PredictAsWritten(model, data, normalize, softmax).Panic? ==>
      Predict(model, data, normalize, softmax) == Err(NoProbabilities)
  {
  }
}
