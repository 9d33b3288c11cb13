/**
 * Payloads and names of the events the core produces: the data record handed
 * to the external subscriber, the three internal events written into the
 * shared context, and the six lifecycle events announced to the subscriber.
 */
module Events {
  import opened Wrappers

  /** An unsigned 16-bit impedance reading. */
  newtype u16 = x: int | 0 <= x < 0x1_0000

  /** The four electrode channels of the headset, in the order the core uses them. */
  const Channels: seq<string> := ["T3", "T4", "O1", "O2"]

  /** Samples per channel name; an f32 sample is modelled as a real. */
  type HeadsetMap = map<string, seq<real>>

  /** The last sample of a channel, or zero for an empty one. */
  function LastOrZero(samples: seq<real>): real
  {
    if samples == [] then 0.0 else samples[|samples| - 1]
  }

  /** Impedance reading per channel name. */
  type ImpedanceMap = map<string, u16>

  /** The record handed to the external subscriber with every event. */
  datatype EventData = EventData(
    headsetData: Option<HeadsetMap>,
    colorThinking: Option<string>,
    impedanceData: Option<ImpedanceMap>)

  /** The `Default` record: nothing set. */
  const NoData: EventData := EventData(None, None, None)

  // Names of the events announced to the subscriber.
  const CapturedHeadsetDataName: string := "captured-headset-data"
  const HeadsetCalibratedName: string := "headset-calibrated"
  const HeadsetCalibratingName: string := "headset-calibrating"
  const HeadsetConnectedName: string := "headset-connected"
  const HeadsetDisconnectedName: string := "headset-disconnected"
  const InitializedCoreName: string := "initialized-core"

  // Names of the internal events that carry use-case results into the context.
  const ReceivedGeneralistDataName: string := "received-generalist-data"
  const ReceivedCalibrationDataName: string := "received-calibration-data"
  const ReceivedPredictColorThinkingDataName: string := "received-predict-color-thinking-data"

  /** The internal events a use case returns. */
  datatype InternalEvent =
    | ReceivedGeneralistData(headsetData: HeadsetMap)
    | ReceivedCalibrationData(impedanceData: ImpedanceMap)
    | ReceivedPredictColorThinkingData(colorThinking: string)
  {
    function Name(): string
    {
      match this
      case ReceivedGeneralistData(_) => ReceivedGeneralistDataName
      case ReceivedCalibrationData(_) => ReceivedCalibrationDataName
      case ReceivedPredictColorThinkingData(_) => ReceivedPredictColorThinkingDataName
    }
  }

  /**
   * The lifecycle events the core announces. The payload of the captured-data
   * event is the channel map (its declared byte-vector type does not match
   * the record it is copied into; the model keeps the evident intent).
   */
  datatype CoreEvent =
    | CapturedHeadsetData(headsetData: HeadsetMap, colorThinking: string)
    | HeadsetCalibrated
    | HeadsetCalibrating(impedanceData: ImpedanceMap)
    | HeadsetConnected
    | HeadsetDisconnected
    | InitializedCore
  {
    function Name(): string
    {
      match this
      case CapturedHeadsetData(_, _) => CapturedHeadsetDataName
      case HeadsetCalibrated => HeadsetCalibratedName
      case HeadsetCalibrating(_) => HeadsetCalibratingName
      case HeadsetConnected => HeadsetConnectedName
      case HeadsetDisconnected => HeadsetDisconnectedName
      case InitializedCore => InitializedCoreName
    }
  }

  /** A name and its record, as handed to the subscriber. */
  datatype Delivery = Delivery(name: string, data: EventData)

  /** Internal events are told apart by name alone. */
  lemma InternalNamesIdentifyKind(a: InternalEvent, b: InternalEvent)
    requires a.Name() == b.Name()
    ensures a.ReceivedGeneralistData? == b.ReceivedGeneralistData?
    ensures a.ReceivedCalibrationData? == b.ReceivedCalibrationData?
    ensures a.ReceivedPredictColorThinkingData? == b.ReceivedPredictColorThinkingData?
  {
  }

  /** Lifecycle events are told apart by name alone, and never share a name with an internal event. */
  lemma CoreNamesIdentifyKind(a: CoreEvent, b: CoreEvent, i: InternalEvent)
    ensures a.Name() == b.Name() ==>
      (a.CapturedHeadsetData? == b.CapturedHeadsetData? &&
       a.HeadsetCalibrated? == b.HeadsetCalibrated? && a.HeadsetCalibrating? == b.HeadsetCalibrating? &&
       a.HeadsetConnected? == b.HeadsetConnected? && a.HeadsetDisconnected? == b.HeadsetDisconnected? &&
       a.InitializedCore? == b.InitializedCore?)
    ensures a.Name() != i.Name()
  {
  }
}
