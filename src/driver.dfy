/**
 * The running state machine of the core. Each state's handler runs its
 * commands through the bus (a use case followed by writing the events it
 * returned into the context), announces one event to the subscriber, and
 * picks the next state. The choice is a pure function of what the commands
 * observed, given first; the class after it runs the handlers on the ports.
 */
module Driver {
  import opened Wrappers
  import opened Events
  import opened Dispatch
  import opened Lifecycle
  import opened HeadsetPort
  import opened SmartBulbPort
  import opened Context
  import EventHandlers
  import UseCases

  /** The commands the handlers put on the bus. */
  datatype Command =
    | DisconnectHeadband
    | SearchHeadband
    | ExtractCalibrationData
    | ExtractGeneralistData
    | UpdateLightStatus(isLightOn: bool)

  /** What one handler observed: the results of its commands and the context data it read. */
  datatype Observation =
    | InitObservation
    | ConnectionObservation(disconnectOk: bool, searchOk: bool)
    | CalibrationObservation(calibrationOk: bool, impedance: Option<ImpedanceMap>)
    | CaptureObservation(extractOk: bool, headsetData: Option<HeadsetMap>)

  /** What one handler did: the next state, the commands it ran and the events it announced. */
  datatype StepResult = StepResult(next: State, commands: seq<Command>, sent: seq<Delivery>)

  /** The colour label the capture handler uses in place of a prediction. */
  const PlaceholderPrediction: string := "green"

  /** Some impedance is above 1000 or below 1. */
  predicate NeedsMoreCalibration(m: ImpedanceMap)
  {
    exists c :: c in m && (m[c] > 1000 || m[c] < 1)
  }

  /** The observation kind each state's handler makes. */
  predicate Fits(s: State, o: Observation)
  {
    match s
    case InitializeApplication => o.InitObservation?
    case AwaitingHeadsetConnection => o.ConnectionObservation?
    case AwaitingHeadsetCalibration => o.CalibrationObservation?
    case CapturingHeadsetData => o.CaptureObservation?
  }

  function InitializeStep(sub: Subscriber): StepResult
  {
    var d := Delivery(InitializedCoreName, NoData);
    StepResult(if SendEvent(sub, d).Err? then InitializeApplication else AwaitingHeadsetConnection, [], [d])
  }

  function ConnectionStep(disconnectOk: bool, searchOk: bool, sub: Subscriber): StepResult
  {
    var commands := [DisconnectHeadband, SearchHeadband];
    if searchOk then
      var d := Delivery(HeadsetConnectedName, NoData);
      StepResult(if SendEvent(sub, d).Err? then AwaitingHeadsetConnection else AwaitingHeadsetCalibration, commands, [d])
    else
      StepResult(AwaitingHeadsetConnection, commands, [Delivery(HeadsetDisconnectedName, NoData)])
  }

  function CalibrationStep(calibrationOk: bool, impedance: Option<ImpedanceMap>): StepResult
  {
    var commands := [ExtractCalibrationData];
    if !calibrationOk then
      StepResult(AwaitingHeadsetConnection, commands, [Delivery(HeadsetDisconnectedName, NoData)])
    else if impedance.Some? && NeedsMoreCalibration(impedance.value) then
      StepResult(AwaitingHeadsetCalibration, commands,
        [Delivery(HeadsetCalibratingName, EventData(None, None, Some(impedance.value)))])
    else
      StepResult(CapturingHeadsetData, commands, [Delivery(HeadsetCalibratedName, NoData)])
  }

  function CaptureStep(extractOk: bool, headsetData: Option<HeadsetMap>): StepResult
  {
    if !extractOk then
      StepResult(AwaitingHeadsetConnection, [ExtractGeneralistData], [Delivery(HeadsetDisconnectedName, NoData)])
    else
      var raw := headsetData.GetOr(map[]);
      var color := PlaceholderPrediction;
      var light := if color != "" then [UpdateLightStatus(color == "green")] else [];
      StepResult(CapturingHeadsetData, [ExtractGeneralistData] + light,
        [Delivery(CapturedHeadsetDataName, EventData(Some(raw), Some(color), None))])
  }

  /** One handler run: the state's own handler applied to what it observed. */
  function StepFrom(s: State, o: Observation, sub: Subscriber): StepResult
    requires Fits(s, o)
  {
    match o
    case InitObservation => InitializeStep(sub)
    case ConnectionObservation(disconnectOk, searchOk) => ConnectionStep(disconnectOk, searchOk, sub)
    case CalibrationObservation(calibrationOk, impedance) => CalibrationStep(calibrationOk, impedance)
    case CaptureObservation(extractOk, headsetData) => CaptureStep(extractOk, headsetData)
  }

  /** The declared table's event for an announced name, when the table has one. */
  function TableEvent(name: string): Option<Lifecycle.Event>
  {
    if name == InitializedCoreName then Some(Lifecycle.InitializedCore)
    else if name == HeadsetConnectedName then Some(Lifecycle.HeadsetConnected)
    else if name == HeadsetDisconnectedName then Some(Lifecycle.HeadsetDisconnected)
    else if name == HeadsetCalibratedName then Some(Lifecycle.HeadsetCalibrated)
    else if name == CapturedHeadsetDataName then Some(Lifecycle.CapturedHeadsetData)
    else None
  }

  /**
   * Every handler announces exactly one event and then moves as the declared
   * table says for that event, with two exceptions: when the subscriber
   * refuses InitializedCore or HeadsetConnected the handler stays put, and
   * HeadsetCalibrating, which the table does not know, keeps calibrating.
   */
  lemma DriverFollowsTable(s: State, o: Observation, sub: Subscriber)
    requires Fits(s, o)
    ensures |StepFrom(s, o, sub).sent| == 1
    ensures var st := StepFrom(s, o, sub); var d := st.sent[0];
      TableEvent(d.name).Some? && (SendEvent(sub, d).Ok? || (d.name != InitializedCoreName && d.name != HeadsetConnectedName))
      ==> st.next == Lifecycle.Step(s, TableEvent(d.name).value)
    ensures var st := StepFrom(s, o, sub); var d := st.sent[0];
      TableEvent(d.name).None? || (SendEvent(sub, d).Err? && (d.name == InitializedCoreName || d.name == HeadsetConnectedName))
      ==> st.next == s
  {
  }

  /** What the driver announces is exactly what the event handlers announce for some lifecycle event. */
  lemma DriverAnnouncesLikeHandlers(s: State, o: Observation, sub: Subscriber)
    requires Fits(s, o)
    ensures exists e :: StepFrom(s, o, sub).sent == [EventHandlers.Announcement(e)]
  {
    var st := StepFrom(s, o, sub);
    match o
    case InitObservation =>
      assert st.sent == [EventHandlers.Announcement(Events.InitializedCore)];
    case ConnectionObservation(_, searchOk) =>
      if searchOk {
        assert st.sent == [EventHandlers.Announcement(Events.HeadsetConnected)];
      } else {
        assert st.sent == [EventHandlers.Announcement(Events.HeadsetDisconnected)];
      }
    case CalibrationObservation(calibrationOk, impedance) =>
      if !calibrationOk {
        assert st.sent == [EventHandlers.Announcement(Events.HeadsetDisconnected)];
      } else if impedance.Some? && NeedsMoreCalibration(impedance.value) {
        assert st.sent == [EventHandlers.Announcement(Events.HeadsetCalibrating(impedance.value))];
      } else {
        assert st.sent == [EventHandlers.Announcement(Events.HeadsetCalibrated)];
      }
    case CaptureObservation(extractOk, headsetData) =>
      if !extractOk {
        assert st.sent == [EventHandlers.Announcement(Events.HeadsetDisconnected)];
      } else {
        var e := Events.CapturedHeadsetData(headsetData.GetOr(map[]), PlaceholderPrediction);
        assert st.sent == [EventHandlers.Announcement(e)];
      }
  }

  /** The result of the disconnection that opens the connection handler never matters. */
  lemma DisconnectResultIgnored(a: bool, b: bool, searchOk: bool, sub: Subscriber)
    ensures ConnectionStep(a, searchOk, sub) == ConnectionStep(b, searchOk, sub)
  {
  }

  /**
   * The calibration gate: after a successful calibration command the
   * machine starts capturing exactly when no stored impedance lies outside
   * 1..1000 (an absent or empty map passes); otherwise it keeps calibrating
   * and announces the offending map.
   */
  lemma CalibrationGate(impedance: Option<ImpedanceMap>)
    ensures CalibrationStep(true, impedance).next == CapturingHeadsetData <==>
      (impedance.None? || forall c :: c in impedance.value ==> 1 <= impedance.value[c] <= 1000)
    ensures CalibrationStep(true, impedance).next != CapturingHeadsetData ==>
      CalibrationStep(true, impedance).next == AwaitingHeadsetCalibration &&
      CalibrationStep(true, impedance).sent == [Delivery(HeadsetCalibratingName, EventData(None, None, impedance))]
  {
  }

  /** A failed command in calibration or capture sends the machine back to awaiting a connection. */
  lemma CommandFailureDisconnects(impedance: Option<ImpedanceMap>, headsetData: Option<HeadsetMap>)
    ensures CalibrationStep(false, impedance).next == AwaitingHeadsetConnection
    ensures CaptureStep(false, headsetData).next == AwaitingHeadsetConnection
    ensures CalibrationStep(false, impedance).sent == [Delivery(HeadsetDisconnectedName, NoData)]
    ensures CaptureStep(false, headsetData).sent == [Delivery(HeadsetDisconnectedName, NoData)]
  {
  }

  /**
   * A successful capture keeps capturing, always switches the light on (the
   * placeholder label is "green"), and announces the context's samples, or
   * an empty map when there are none, with that label and no impedances.
   */
  lemma CaptureLoop(headsetData: Option<HeadsetMap>)
    ensures CaptureStep(true, headsetData).next == CapturingHeadsetData
    ensures CaptureStep(true, headsetData).commands == [ExtractGeneralistData, UpdateLightStatus(true)]
    ensures CaptureStep(true, headsetData).sent ==
      [Delivery(CapturedHeadsetDataName, EventData(Some(if headsetData.Some? then headsetData.value else map[]), Some("green"), None))]
  {
  }

  /** An impedance map that the mock can report always passes the gate. */
  lemma MockImpedancesPassGate(m: ImpedanceMap)
    requires forall c :: c in m ==> 1 <= m[c] as int <= 20
    ensures !NeedsMoreCalibration(m)
  {
  }

  /** The bus: the use case's events, when it succeeded, are written into the context in order. */
  method WriteEvents(ctx: NeuralAnalyticsContext, events: seq<InternalEvent>)
    modifies ctx
    ensures ctx.Data() == AppliedAll(old(ctx.Data()), SerializedAll(events))
  {
    var k := 0;
    while k < |events|
      invariant 0 <= k <= |events|
      invariant ctx.Data() == AppliedAll(old(ctx.Data()), SerializedAll(events[..k]))
    {
      assert SerializedAll(events[..k + 1]) == SerializedAll(events[..k]) + [Serialize(events[k])];
      assert SerializedAll(events[..k + 1])[..k] == SerializedAll(events[..k]);
      var _ := ctx.Write(Serialize(events[k]));
      k := k + 1;
    }
    assert events[..k] == events;
  }

  function SerializedAll(events: seq<InternalEvent>): (r: seq<SerializedEvent>)
    ensures |r| == |events|
    ensures forall i :: 0 <= i < |events| ==> r[i] == Serialize(events[i])
    ensures AllDecodable(r)
  {
    seq(|events|, i requires 0 <= i < |events| => Serialize(events[i]))
  }

  /** The bus's handling of a use case's result: on success its events are written, in order. */
  method WriteOutcome(ctx: NeuralAnalyticsContext, outcome: UseCases.Outcome)
    modifies ctx
    ensures outcome.Ok? ==> ctx.Data() == AppliedAll(old(ctx.Data()), SerializedAll(outcome.value))
    ensures outcome.Err? ==> ctx.Data() == old(ctx.Data())
  {
    if outcome.Ok? {
      WriteEvents(ctx, outcome.value);
    }
  }

  /**
   * The main state machine: the current state, the context the bus writes
   * into, the ports the use cases talk to and the subscriber events go to.
   * `sent` and `commands` record what the handlers announced and ran.
   */
  class MainStateMachine {
    var state: State
    const context: NeuralAnalyticsContext
    const headset: EegHeadset
    const bulb: SmartBulb
    const subscriber: Subscriber
    ghost var sent: seq<Delivery>
    ghost var commands: seq<Command>

    /** The headset is the one the context chose: the mock exactly when `USE_MOCK_HEADSET` asked for it. */
    ghost predicate Valid()
      reads this, headset, headset.sim
    {
      headset.Valid() && context.usesMockHeadset == headset.adapter.Mock?
    }

    /** The machine starts in the initialisation state, with nothing announced. */
    constructor (context: NeuralAnalyticsContext, headset: EegHeadset, bulb: SmartBulb, subscriber: Subscriber)
      requires headset.Valid() && context.usesMockHeadset == headset.adapter.Mock?
      ensures Valid()
      ensures state == InitializeApplication && sent == [] && commands == []
      ensures this.context == context && this.headset == headset && this.bulb == bulb && this.subscriber == subscriber
    {
      state := InitializeApplication;
      this.context := context;
      this.headset := headset;
      this.bulb := bulb;
      this.subscriber := subscriber;
      sent := [];
      commands := [];
    }

    /** Initialisation: announce InitializedCore; retry while the subscriber refuses it. */
    method OnInitializeApplication() returns (o: Observation)
      requires Valid()
      modifies this`state, this`sent
      ensures Valid()
      ensures o == InitObservation
      ensures state == InitializeStep(subscriber).next
      ensures sent == old(sent) + InitializeStep(subscriber).sent
      ensures commands == old(commands) + InitializeStep(subscriber).commands
    {
      o := InitObservation;
      var d := Delivery(InitializedCoreName, NoData);
      var r := SendEvent(subscriber, d);
      sent := sent + [d];
      if r.Err? {
        state := InitializeApplication;
        return;
      }
      state := AwaitingHeadsetConnection;
    }

    /**
     * Awaiting a connection: disconnect (its result is not looked at), then
     * search; on success announce HeadsetConnected, otherwise announce
     * HeadsetDisconnected and wait again.
     */
    method OnAwaitingHeadsetConnection() returns (o: Observation)
      requires Valid()
      modifies this`state, this`sent, this`commands, context, headset`connected, headset`calls
      ensures Valid()
      ensures o.ConnectionObservation? && o.searchOk == headset.connected
      ensures state == ConnectionStep(o.disconnectOk, o.searchOk, subscriber).next
      ensures sent == old(sent) + ConnectionStep(o.disconnectOk, o.searchOk, subscriber).sent
      ensures commands == old(commands) + ConnectionStep(o.disconnectOk, o.searchOk, subscriber).commands
      ensures context.Data() == old(context.Data())
      /* With the mock, a connected headset always gets past this state once the subscriber accepts. */
      ensures context.usesMockHeadset && old(headset.connected) ==>
        o.searchOk && (SendEvent(subscriber, Delivery(HeadsetConnectedName, NoData)).Ok? ==> state == AwaitingHeadsetCalibration)
    {
      var disconnected := UseCases.DisconnectHeadband(headset);
      WriteOutcome(context, disconnected);
      var found := UseCases.SearchHeadband(headset);
      WriteOutcome(context, found);
      commands := commands + [DisconnectHeadband, SearchHeadband];
      o := ConnectionObservation(disconnected.Ok?, found.Ok?);
      if found.Ok? {
        var d := Delivery(HeadsetConnectedName, NoData);
        var r := SendEvent(subscriber, d);
        sent := sent + [d];
        if r.Err? {
          state := AwaitingHeadsetConnection;
          return;
        }
        state := AwaitingHeadsetCalibration;
      } else {
        var d := Delivery(HeadsetDisconnectedName, NoData);
        var _ := SendEvent(subscriber, d);
        sent := sent + [d];
        state := AwaitingHeadsetConnection;
      }
    }

    /**
     * Awaiting calibration: run the calibration command; on failure announce
     * HeadsetDisconnected; otherwise read the impedances back from the
     * context and either keep calibrating or announce HeadsetCalibrated.
     */
    method OnAwaitingHeadsetCalibration() returns (o: Observation)
      requires Valid()
      modifies this`state, this`sent, this`commands, context, headset`workMode, headset`calls, headset.sim, headset.rng
      ensures Valid()
      ensures o.CalibrationObservation?
      ensures o.calibrationOk <==>
        old(headset.connected) && (headset.adapter.Device? ==> headset.adapter.behaviour.impedanceReply.Ok?)
      ensures o.calibrationOk ==> o.impedance.Some? && context.Data() == ContextData(None, None, o.impedance)
      ensures !o.calibrationOk ==> context.Data() == old(context.Data())
      ensures state == CalibrationStep(o.calibrationOk, o.impedance).next
      ensures sent == old(sent) + CalibrationStep(o.calibrationOk, o.impedance).sent
      ensures commands == old(commands) + CalibrationStep(o.calibrationOk, o.impedance).commands
      /* The mock's impedances always pass the gate. */
      ensures context.usesMockHeadset && old(headset.connected) ==> state == CapturingHeadsetData
    {
      var calibrated := UseCases.ExtractCalibrationData(headset);
      WriteOutcome(context, calibrated);
      commands := commands + [ExtractCalibrationData];
      if calibrated.Err? {
        o := CalibrationObservation(false, None);
        var d := Delivery(HeadsetDisconnectedName, NoData);
        var _ := SendEvent(subscriber, d);
        sent := sent + [d];
        state := AwaitingHeadsetConnection;
        return;
      }
      assert SerializedAll(calibrated.value) == [Serialize(calibrated.value[0])];
      var impedance := context.impedanceData;
      o := CalibrationObservation(true, impedance);
      if headset.adapter.Mock? {
        forall c | c in headset.sim.impedanceValues
          ensures 1 <= headset.sim.impedanceValues[c] as int <= 20
        {
          MockImpedancesInRange(headset.sim, c);
        }
        MockImpedancesPassGate(headset.sim.impedanceValues);
      }
      if impedance.Some? && NeedsMoreCalibration(impedance.value) {
        var d := Delivery(HeadsetCalibratingName, EventData(None, None, Some(impedance.value)));
        var _ := SendEvent(subscriber, d);
        sent := sent + [d];
        state := AwaitingHeadsetCalibration;
      } else {
        var d := Delivery(HeadsetCalibratedName, NoData);
        var _ := SendEvent(subscriber, d);
        sent := sent + [d];
        state := CapturingHeadsetData;
      }
    }

    /**
     * Capturing: run the extraction command; on failure announce
     * HeadsetDisconnected; otherwise switch the light for the placeholder
     * label (its errors are not looked at) and announce the samples held in
     * the context.
     */
    method OnCapturingHeadsetData() returns (o: Observation)
      requires Valid()
      modifies this`state, this`sent, this`commands, context, headset`workMode, headset`calls, headset.sim, headset.rng,
        bulb`shown, bulb`requests
      ensures Valid()
      ensures o.CaptureObservation?
      ensures o.extractOk <==>
        old(headset.connected) && (headset.adapter.Device? ==> headset.adapter.behaviour.rawReply.Ok?)
      ensures o.extractOk ==> o.headsetData.Some? && context.Data() == old(context.Data()).(headsetData := o.headsetData, impedanceData := None)
      ensures !o.extractOk ==> context.Data() == old(context.Data())
      ensures bulb.requests == old(bulb.requests) + (if o.extractOk then [BulbOn] else [])
      ensures state == CaptureStep(o.extractOk, o.headsetData).next
      ensures sent == old(sent) + CaptureStep(o.extractOk, o.headsetData).sent
      ensures commands == old(commands) + CaptureStep(o.extractOk, o.headsetData).commands
    {
      var extracted := UseCases.ExtractGeneralistData(headset);
      WriteOutcome(context, extracted);
      commands := commands + [ExtractGeneralistData];
      if extracted.Err? {
        o := CaptureObservation(false, None);
        var d := Delivery(HeadsetDisconnectedName, NoData);
        var _ := SendEvent(subscriber, d);
        sent := sent + [d];
        state := AwaitingHeadsetConnection;
        return;
      }
      assert SerializedAll(extracted.value) == [Serialize(extracted.value[0])];
      o := CaptureObservation(true, context.headsetData);
      var raw := context.headsetData.GetOr(map[]);
      var color := PlaceholderPrediction;
      if color != "" {
        commands := commands + [UpdateLightStatus(color == "green")];
        var lit := UseCases.UpdateLightStatus(bulb, color == "green");
        WriteOutcome(context, lit);
      }
      var d := Delivery(CapturedHeadsetDataName, EventData(Some(raw), Some(color), None));
      var _ := SendEvent(subscriber, d);
      sent := sent + [d];
      state := CapturingHeadsetData;
    }

    /** One dispatch: the current state's handler runs once. */
    method Tick() returns (o: Observation)
      requires Valid()
      modifies this`state, this`sent, this`commands, context, headset`connected, headset`workMode, headset`calls,
        headset.sim, headset.rng, bulb`shown, bulb`requests
      ensures Valid()
      ensures Fits(old(state), o)
      ensures state == StepFrom(old(state), o, subscriber).next
      ensures sent == old(sent) + StepFrom(old(state), o, subscriber).sent
      ensures commands == old(commands) + StepFrom(old(state), o, subscriber).commands
    {
      match state
      case InitializeApplication => o := OnInitializeApplication();
      case AwaitingHeadsetConnection => o := OnAwaitingHeadsetConnection();
      case AwaitingHeadsetCalibration => o := OnAwaitingHeadsetCalibration();
      case CapturingHeadsetData => o := OnCapturingHeadsetData();
    }
  }
}
