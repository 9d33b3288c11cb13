/**
 * The command handlers of the core. Each runs against the ports and returns
 * either the internal events it produced or an error message (the message
 * the handler wraps in its bus error).
 */
module UseCases {
  import opened Wrappers
  import opened Events
  import opened WorkModes
  import opened HeadsetPort
  import opened SmartBulbPort
  import opened ModelPort

  type Outcome = Result<seq<InternalEvent>, string>

  const ConnectFailurePrefix: string := "Error connecting to the device: "
  const StillNotConnected: string := "Error: Device is not connected or is not sending data. Connect first."
  const DisconnectFailurePrefix: string := "Error disconnecting from the device: "
  const StillConnected: string := "Error: Device is not disconnected or is sending data. Disconnect first."
  const NotConnectedConnectFirst: string := "Error: Device is not connected. Connect first."
  const CalibrationFailurePrefix: string := "Error extracting calibration data from device: "
  const ExtractionFailurePrefix: string := "Error extracting data from device: "
  const NoEegData: string := "No EEG data available for prediction"
  const PredictionFailurePrefix: string := "Error predicting color: "

  /**
   * Search-and-connect: nothing to do when already connected; otherwise
   * connect once and check again.
   */
  method SearchHeadband(h: EegHeadset) returns (r: Outcome)
    modifies h`connected, h`calls
    ensures r.Ok? ==> r.value == []
    ensures r.Ok? <==> h.connected
    ensures old(h.connected) ==> r == Ok([]) && h.calls == old(h.calls) + [IsConnectedCall]
    ensures !old(h.connected) && old(h.ConnectReply()).Err? ==>
      r == Err(ConnectFailurePrefix + old(h.ConnectReply()).error) &&
      h.calls == old(h.calls) + [IsConnectedCall, ConnectCall]
    ensures !old(h.connected) && old(h.ConnectReply()).Ok? ==>
      h.calls == old(h.calls) + [IsConnectedCall, ConnectCall, IsConnectedCall] &&
      r == (if h.connected then Ok([]) else Err(StillNotConnected))
  {
    var already := h.IsConnected();
    if already {
      return Ok([]);
    }
    var c := h.Connect();
    if c.Err? {
      return Err(ConnectFailurePrefix + c.error);
    }
    var now := h.IsConnected();
    if now {
      r := Ok([]);
    } else {
      r := Err(StillNotConnected);
    }
  }

  /**
   * Disconnect: nothing to do when already disconnected; otherwise
   * disconnect once and check again.
   */
  method DisconnectHeadband(h: EegHeadset) returns (r: Outcome)
    modifies h`connected, h`calls
    ensures r.Ok? ==> r.value == []
    ensures r.Ok? <==> !h.connected
    ensures !old(h.connected) ==> r == Ok([]) && h.calls == old(h.calls) + [IsConnectedCall]
    ensures old(h.connected) && old(h.DisconnectReply()).Err? ==>
      r == Err(DisconnectFailurePrefix + old(h.DisconnectReply()).error) &&
      h.calls == old(h.calls) + [IsConnectedCall, DisconnectCall]
    ensures old(h.connected) && old(h.DisconnectReply()).Ok? ==>
      h.calls == old(h.calls) + [IsConnectedCall, DisconnectCall, IsConnectedCall] &&
      r == (if h.connected then Err(StillConnected) else Ok([]))
    /* The mock accepts the disconnection but stays connected, so the check after it always fails. */
    ensures h.adapter.Mock? && old(h.connected) ==> r == Err(StillConnected) && h.connected
  {
    var connected := h.IsConnected();
    if !connected {
      return Ok([]);
    }
    var d := h.Disconnect();
    if d.Err? {
      return Err(DisconnectFailurePrefix + d.error);
    }
    var now := h.IsConnected();
    if !now {
      r := Ok([]);
    } else {
      r := Err(StillConnected);
    }
  }

  /** The outcome of the calibration handler for a given impedance reply. */
  function CalibrationOutcome(reply: Result<ImpedanceMap, string>): Outcome
  {
    match reply
    case Ok(data) => Ok([ReceivedCalibrationData(data)])
    case Err(e) => Err(CalibrationFailurePrefix + e)
  }

  /** The outcome of the extraction handler for a given raw-data reply. */
  function ExtractionOutcome(reply: Result<HeadsetMap, string>): Outcome
  {
    match reply
    case Ok(data) => Ok([ReceivedGeneralistData(data)])
    case Err(e) => Err(ExtractionFailurePrefix + e)
  }

  /**
   * Calibration: refuse when disconnected; otherwise switch to calibration
   * mode unconditionally and read the impedances into one event.
   */
  method ExtractCalibrationData(h: EegHeadset) returns (r: Outcome)
    requires h.Valid()
    modifies h`workMode, h`calls, h.sim, h.rng
    ensures h.Valid()
    ensures !old(h.connected) ==>
      r == Err(NotConnectedConnectFirst) && h.calls == old(h.calls) + [IsConnectedCall] &&
      h.workMode == old(h.workMode)
    ensures old(h.connected) ==>
      h.workMode == old(h.ModeAfterSwitch(Calibration)) &&
      h.calls == old(h.calls) + [IsConnectedCall, ChangeWorkModeCall(Calibration), ExtractImpedanceDataCall]
    ensures old(h.connected) && h.adapter.Device? ==> r == CalibrationOutcome(h.adapter.behaviour.impedanceReply)
    ensures old(h.connected) && h.adapter.Mock? ==> r == Ok([ReceivedCalibrationData(h.sim.impedanceValues)])
  {
    var connected := h.IsConnected();
    if !connected {
      return Err(NotConnectedConnectFirst);
    }
    h.ChangeWorkMode(Calibration);
    var reply := h.ExtractImpedanceData();
    r := CalibrationOutcome(reply);
  }

  /**
   * Extraction: refuse when disconnected; otherwise switch to extraction
   * mode only when not already in it, and read the samples into one event.
   */
  method ExtractGeneralistData(h: EegHeadset) returns (r: Outcome)
    requires h.Valid()
    modifies h`workMode, h`calls, h.sim, h.rng
    ensures h.Valid()
    ensures !old(h.connected) ==>
      r == Err(NotConnectedConnectFirst) && h.calls == old(h.calls) + [IsConnectedCall] &&
      h.workMode == old(h.workMode)
    ensures old(h.connected) ==>
      h.workMode == old(h.ModeAfterSwitch(Extraction)) &&
      h.calls == old(h.calls) + [IsConnectedCall, GetWorkModeCall] +
        (if old(h.workMode) != Extraction then [ChangeWorkModeCall(Extraction)] else []) +
        [ExtractRawDataCall]
    ensures old(h.connected) && h.adapter.Device? ==> r == ExtractionOutcome(h.adapter.behaviour.rawReply)
    ensures old(h.connected) && h.adapter.Mock? ==> r == Ok([ReceivedGeneralistData(h.sim.rawDataBuffer)])
  {
    var connected := h.IsConnected();
    if !connected {
      return Err(NotConnectedConnectFirst);
    }
    var mode := h.GetWorkMode();
    if mode != Extraction {
      h.ChangeWorkMode(Extraction);
    }
    var reply := h.ExtractRawData();
    r := ExtractionOutcome(reply);
  }

  /**
   * Prediction: refuse without EEG data in the context; otherwise ask the
   * model service once, with that data, and turn its label into one event.
   */
  method PredictColorThinking(headsetData: Option<HeadsetMap>, model: ModelService) returns (r: Outcome)
    modifies model`queries
    ensures headsetData.None? ==> r == Err(NoEegData) && model.queries == old(model.queries)
    ensures headsetData.Some? ==> model.queries == old(model.queries) + [headsetData.value]
    ensures headsetData.Some? && model.predictor(headsetData.value).Ok? ==>
      r == Ok([ReceivedPredictColorThinkingData(model.predictor(headsetData.value).value)])
    ensures headsetData.Some? && model.predictor(headsetData.value).Err? ==>
      r == Err(PredictionFailurePrefix + model.predictor(headsetData.value).error)
  {
    if headsetData.None? {
      return Err(NoEegData);
    }
    var color := model.PredictColor(headsetData.value);
    match color
    case Ok(c) => r := Ok([ReceivedPredictColorThinkingData(c)]);
    case Err(e) => r := Err(PredictionFailurePrefix + e);
  }

  /**
   * Light update: one request to the bulb, on when asked for light and off
   * otherwise; the bulb's error message is passed on unchanged.
   */
  method UpdateLightStatus(bulb: SmartBulb, isLightOn: bool) returns (r: Outcome)
    modifies bulb`shown, bulb`requests
    ensures bulb.requests == old(bulb.requests) + [if isLightOn then BulbOn else BulbOff]
    ensures bulb.failure.None? ==> r == Ok([]) && bulb.shown == Some(if isLightOn then BulbOn else BulbOff)
    ensures bulb.failure.Some? ==> r == Err(bulb.failure.value) && bulb.shown == old(bulb.shown)
  {
    var reply;
    if isLightOn {
      reply := bulb.ChangeState(BulbOn);
    } else {
      reply := bulb.ChangeState(BulbOff);
    }
    if reply.Err? {
      return Err(reply.error);
    }
    r := Ok([]);
  }

  /** The log line the calibration handler writes for one electrode's impedance. */
  function ImpedanceLogStatus(value: u16): string
  {
    if value > 2 then "ERROR: Poor connection"
    else if 1 <= value <= 2 then "WARNING: Acceptable connection"
    else "OK: Good connection"
  }

  /** The three log bands split the readings: only zero is reported good, one and two acceptable, the rest poor. */
  lemma ImpedanceLogBands(value: u16)
    ensures ImpedanceLogStatus(value) == "OK: Good connection" <==> value == 0
    ensures ImpedanceLogStatus(value) == "WARNING: Acceptable connection" <==> 1 <= value <= 2
    ensures ImpedanceLogStatus(value) == "ERROR: Poor connection" <==> value > 2
  {
  }
}
