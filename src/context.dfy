/**
 * The shared context the command bus hands to every use case: the latest
 * EEG samples, the latest colour label and the latest impedance map, kept up
 * to date by writing the internal events the use cases return. The choice
 * between the mock and the BrainFlow headset is made once, from the
 * environment.
 */
module Context {
  import opened Wrappers
  import opened Events
  import Text

  /** The data part of the context. */
  datatype ContextData = ContextData(
    headsetData: Option<HeadsetMap>,
    colorThinking: Option<string>,
    impedanceData: Option<ImpedanceMap>)

  const EmptyData: ContextData := ContextData(None, None, None)

  /** An event as the bus hands it to the writer: a name and the payload it decodes to. */
  datatype SerializedEvent = SerializedEvent(name: string, payload: InternalEvent)

  function Serialize(e: InternalEvent): SerializedEvent
  {
    SerializedEvent(e.Name(), e)
  }

  /** An event with one of the three internal names must decode to that kind (decoding failure aborts). */
  predicate Decodable(e: SerializedEvent)
  {
    (e.name == ReceivedCalibrationDataName ==> e.payload.ReceivedCalibrationData?) &&
    (e.name == ReceivedGeneralistDataName ==> e.payload.ReceivedGeneralistData?) &&
    (e.name == ReceivedPredictColorThinkingDataName ==> e.payload.ReceivedPredictColorThinkingData?)
  }

  /** The data after writing one event; an event with any other name changes nothing. */
  function Applied(d: ContextData, e: SerializedEvent): ContextData
    requires Decodable(e)
  {
    if e.name == ReceivedCalibrationDataName then
      ContextData(None, None, Some(e.payload.impedanceData))
    else if e.name == ReceivedGeneralistDataName then
      d.(headsetData := Some(e.payload.headsetData), impedanceData := None)
    else if e.name == ReceivedPredictColorThinkingDataName then
      d.(colorThinking := Some(e.payload.colorThinking), impedanceData := None)
    else d
  }

  predicate AllDecodable(es: seq<SerializedEvent>)
  {
    forall i :: 0 <= i < |es| ==> Decodable(es[i])
  }

  /** The data after writing a sequence of events in order. */
  function AppliedAll(d: ContextData, es: seq<SerializedEvent>): ContextData
    requires AllDecodable(es)
    decreases |es|
  {
    if es == [] then d else Applied(AppliedAll(d, es[..|es| - 1]), es[|es| - 1])
  }

  /** Samples and impedances are never held at the same time. */
  predicate Exclusive(d: ContextData)
  {
    !(d.headsetData.Some? && d.impedanceData.Some?)
  }

  /** Every serialized internal event decodes. */
  lemma SerializedDecodes(e: InternalEvent)
    ensures Decodable(Serialize(e))
  {
  }

  /** Writing one of the three internal events leaves the context exclusive, whatever it held before. */
  lemma WriteMakesExclusive(d: ContextData, e: SerializedEvent)
    requires Decodable(e)
    requires e.name in {ReceivedCalibrationDataName, ReceivedGeneralistDataName, ReceivedPredictColorThinkingDataName}
    ensures Exclusive(Applied(d, e))
  {
  }

  /** Any sequence of writes keeps an exclusive context exclusive. */
  lemma {:induction false} WritesKeepExclusive(d: ContextData, es: seq<SerializedEvent>)
    requires AllDecodable(es) && Exclusive(d)
    ensures Exclusive(AppliedAll(d, es))
    decreases |es|
  {
    if es != [] {
      WritesKeepExclusive(d, es[..|es| - 1]);
    }
  }

  /**
   * An impedance map in the context after a run of writes that started
   * without one was carried by one of the calibration events of the run.
   */
  lemma {:induction false} ImpedanceComesFromCalibration(d: ContextData, es: seq<SerializedEvent>)
    requires AllDecodable(es) && d.impedanceData.None?
    requires AppliedAll(d, es).impedanceData.Some?
    ensures exists k :: (0 <= k < |es| && es[k].name == ReceivedCalibrationDataName &&
      es[k].payload == ReceivedCalibrationData(AppliedAll(d, es).impedanceData.value))
    decreases |es|
  {
    var n := |es|;
    var last := es[n - 1];
    if last.name == ReceivedCalibrationDataName {
      assert es[n - 1].payload == ReceivedCalibrationData(AppliedAll(d, es).impedanceData.value);
    } else {
      ImpedanceComesFromCalibration(d, es[..n - 1]);
      var k :| 0 <= k < n - 1 && es[..n - 1][k].name == ReceivedCalibrationDataName &&
        es[..n - 1][k].payload == ReceivedCalibrationData(AppliedAll(d, es[..n - 1]).impedanceData.value);
      assert es[k] == es[..n - 1][k];
    }
  }

  /** `USE_MOCK_HEADSET`, unset meaning "true", compared with "true" after lower-casing. */
  function UseMockHeadset(env: Option<string>): bool
  {
    Text.Lower(env.GetOr("true")) == "true"
  }

  /** The mock is chosen when the variable is unset or spells "true" in any letter case, and only then. */
  lemma {:induction false} UseMockHeadsetCases(env: Option<string>)
    ensures env.None? ==> UseMockHeadset(env)
    ensures env.Some? ==> (UseMockHeadset(env) <==>
      |env.value| == 4 && forall i :: 0 <= i < 4 ==> Text.LowerChar(env.value[i]) == "true"[i])
  {
    if env.Some? {
      var s := env.value;
      var l := Text.Lower(s);
      if |s| == 4 && forall i :: 0 <= i < 4 ==> Text.LowerChar(s[i]) == "true"[i] {
        assert forall i :: 0 <= i < 4 ==> l[i] == "true"[i];
      }
    }
  }

  /** Examples of the comparison: case does not matter, anything else selects the hardware. */
  lemma UseMockHeadsetExamples()
    ensures UseMockHeadset(Some("TRUE")) && UseMockHeadset(Some("True"))
    ensures !UseMockHeadset(Some("false")) && !UseMockHeadset(Some("1")) && !UseMockHeadset(Some(""))
  {
    UseMockHeadsetCases(Some("TRUE"));
    UseMockHeadsetCases(Some("True"));
    UseMockHeadsetCases(Some("false"));
    UseMockHeadsetCases(Some("1"));
    UseMockHeadsetCases(Some(""));
  }

  class NeuralAnalyticsContext {
    var headsetData: Option<HeadsetMap>
    var colorThinking: Option<string>
    var impedanceData: Option<ImpedanceMap>
    /** Whether the mock headset was chosen (otherwise the BrainFlow adapter). */
    const usesMockHeadset: bool

    function Data(): ContextData
      reads this
    {
      ContextData(headsetData, colorThinking, impedanceData)
    }

    /** The `Default` context: no data yet, headset chosen from `USE_MOCK_HEADSET`. */
    constructor (env: Option<string>)
      ensures Data() == EmptyData
      ensures usesMockHeadset == UseMockHeadset(env)
    {
      headsetData := None;
      colorThinking := None;
      impedanceData := None;
      usesMockHeadset := UseMockHeadset(env);
    }

    /** The event writer: records one internal event; it never reports an error. */
    method Write(e: SerializedEvent) returns (r: Result<(), string>)
      requires Decodable(e)
      modifies this
      ensures Data() == Applied(old(Data()), e)
      ensures r == Ok(())
    {
      if e.name == ReceivedCalibrationDataName {
        headsetData := None;
        colorThinking := None;
        impedanceData := Some(e.payload.impedanceData);
      } else if e.name == ReceivedGeneralistDataName {
        headsetData := Some(e.payload.headsetData);
        impedanceData := None;
      } else if e.name == ReceivedPredictColorThinkingDataName {
        colorThinking := Some(e.payload.colorThinking);
        impedanceData := None;
      }
      r := Ok(());
    }
  }
}
