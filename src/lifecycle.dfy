/**
 * The declared transition table of the core's lifecycle: four states, six
 * events, and for each state the events it reacts to. An event a state does
 * not list is deferred to the (absent) superstate, so it leaves the machine
 * where it is.
 */
module Lifecycle {
  datatype State =
    | InitializeApplication
    | AwaitingHeadsetConnection
    | AwaitingHeadsetCalibration
    | CapturingHeadsetData

  datatype Event =
    | InitializedCore
    | HeadsetConnected
    | HeadsetDisconnected
    | HeadsetCalibrated
    | DataCaptureStarted
    | CapturedHeadsetData

  /** What a state handler answers: move to a state, or defer to the superstate. */
  datatype Response = Transition(target: State) | Super

  const Initial: State := InitializeApplication

  /** The state handlers. */
  function Handle(s: State, e: Event): Response
  {
    match s
    case InitializeApplication =>
      if e == InitializedCore then Transition(AwaitingHeadsetConnection) else Super
    case AwaitingHeadsetConnection =>
      if e == HeadsetConnected then Transition(AwaitingHeadsetCalibration)
      else if e == HeadsetDisconnected then Transition(AwaitingHeadsetConnection)
      else Super
    case AwaitingHeadsetCalibration =>
      if e == HeadsetDisconnected then Transition(AwaitingHeadsetConnection)
      else if e == HeadsetCalibrated then Transition(CapturingHeadsetData)
      else Super
    case CapturingHeadsetData =>
      if e == HeadsetDisconnected then Transition(AwaitingHeadsetConnection)
      else if e == CapturedHeadsetData then Transition(CapturingHeadsetData)
      else Super
  }

  /** The state after handling one event; with no superstate, `Super` leaves the state as is. */
  function Step(s: State, e: Event): State
  {
    match Handle(s, e)
    case Transition(t) => t
    case Super => s
  }

  /** The state after handling a sequence of events in order. */
  function Run(s: State, es: seq<Event>): State
    decreases |es|
  {
    if es == [] then s else Step(Run(s, es[..|es| - 1]), es[|es| - 1])
  }

  /** Only InitializedCore leaves the initial state, and it leads to awaiting a connection. */
  lemma LeavingInitialState(e: Event)
    ensures Step(InitializeApplication, e) != InitializeApplication <==> e == InitializedCore
    ensures e == InitializedCore ==> Step(InitializeApplication, e) == AwaitingHeadsetConnection
  {
  }

  /** No state handles DataCaptureStarted. */
  lemma DataCaptureStartedIsNeverHandled(s: State)
    ensures Handle(s, DataCaptureStarted) == Super
    ensures Step(s, DataCaptureStarted) == s
  {
  }

  /** Once initialised, a disconnection always brings the machine back to awaiting a connection. */
  lemma DisconnectionResets(s: State)
    requires s != InitializeApplication
    ensures Step(s, HeadsetDisconnected) == AwaitingHeadsetConnection
  {
  }

  /** No step ever returns to the initial state. */
  lemma NoReturnToInitialState(s: State, e: Event)
    requires s != InitializeApplication
    ensures Step(s, e) != InitializeApplication
  {
  }

  /**
   * The only ways into each state from a different one: the table moves
   * forward one state at a time and only a disconnection goes back.
   */
  lemma EnteringAState(s: State, e: Event)
    requires Step(s, e) != s
    ensures Step(s, e) == AwaitingHeadsetConnection ==>
      (s == InitializeApplication && e == InitializedCore) || e == HeadsetDisconnected
    ensures Step(s, e) == AwaitingHeadsetCalibration ==>
      s == AwaitingHeadsetConnection && e == HeadsetConnected
    ensures Step(s, e) == CapturingHeadsetData ==>
      s == AwaitingHeadsetCalibration && e == HeadsetCalibrated
  {
  }

  /**
   * If a run starting outside `t` ends in `t`, some event of the run is the
   * one that entered `t` from a different state.
   */
  lemma {:induction false} RunEntersTarget(s: State, es: seq<Event>, t: State)
    requires s != t && Run(s, es) == t
    ensures exists k :: 0 <= k < |es| && Run(s, es[..k]) != t && Step(Run(s, es[..k]), es[k]) == t
    decreases |es|
  {
    var n := |es|;
    assert n > 0;
    var before := es[..n - 1];
    assert es[..n - 1] == before;
    if Run(s, before) == t {
      RunEntersTarget(s, before, t);
      var k :| 0 <= k < |before| && Run(s, before[..k]) != t && Step(Run(s, before[..k]), before[k]) == t;
      assert before[..k] == es[..k];
    } else {
      assert Run(s, es[..n - 1]) != t && Step(Run(s, es[..n - 1]), es[n - 1]) == t;
    }
  }

  /**
   * Data capture is only ever entered from calibration: every run from the
   * initial state that ends capturing went through awaiting calibration and
   * then received HeadsetCalibrated there.
   */
  lemma CapturingRequiresCalibration(es: seq<Event>)
    requires Run(Initial, es) == CapturingHeadsetData
    ensures exists k :: 0 <= k < |es| && Run(Initial, es[..k]) == AwaitingHeadsetCalibration && es[k] == HeadsetCalibrated
  {
    RunEntersTarget(Initial, es, CapturingHeadsetData);
    var k :| 0 <= k < |es| && Run(Initial, es[..k]) != CapturingHeadsetData &&
      Step(Run(Initial, es[..k]), es[k]) == CapturingHeadsetData;
    EnteringAState(Run(Initial, es[..k]), es[k]);
  }

  /** Calibration is only ever entered from awaiting a connection, on HeadsetConnected. */
  lemma CalibrationRequiresConnection(es: seq<Event>)
    requires Run(Initial, es) == AwaitingHeadsetCalibration
    ensures exists k :: 0 <= k < |es| && Run(Initial, es[..k]) == AwaitingHeadsetConnection && es[k] == HeadsetConnected
  {
    RunEntersTarget(Initial, es, AwaitingHeadsetCalibration);
    var k :| 0 <= k < |es| && Run(Initial, es[..k]) != AwaitingHeadsetCalibration &&
      Step(Run(Initial, es[..k]), es[k]) == AwaitingHeadsetCalibration;
    EnteringAState(Run(Initial, es[..k]), es[k]);
  }

  /** The nominal path: initialise, connect, calibrate, capture. */
  lemma NominalPath()
    ensures Run(Initial, [InitializedCore, HeadsetConnected, HeadsetCalibrated, CapturedHeadsetData]) == CapturingHeadsetData
  {
    var es := [InitializedCore, HeadsetConnected, HeadsetCalibrated, CapturedHeadsetData];
    assert Run(Initial, es[..0]) == InitializeApplication;
    assert es[..1][..0] == es[..0];
    assert Run(Initial, es[..1]) == AwaitingHeadsetConnection;
    assert es[..2][..1] == es[..1];
    assert Run(Initial, es[..2]) == AwaitingHeadsetCalibration;
    assert es[..3][..2] == es[..2];
    assert Run(Initial, es[..3]) == CapturingHeadsetData;
    assert es[..3] == es[..|es| - 1];
  }
}
