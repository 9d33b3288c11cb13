/**
 * The headset port the use cases talk to. The port is one class whose
 * `adapter` says which implementation answers: the mock adapter, whose logic
 * is modelled exactly over the shared simulated data, or any other device
 * (the BrainFlow adapter or a scripted test double), described by how it
 * answers each call. Every call is appended to a ghost call log.
 */
module HeadsetPort {
  import opened Wrappers
  import opened Events
  import opened WorkModes
  import opened MockHeadset

  /** `EegData::new`: every channel at 0.0. */
  function NewEegData(): (m: map<string, real>)
    ensures m.Keys == set c | c in Channels
    ensures forall c :: c in m ==> m[c] == 0.0
  {
    map c | c in Channels :: 0.0
  }

  /** `ImpedanceData::new`: every channel at the default 4000.0. */
  function NewImpedanceData(): (m: map<string, real>)
    ensures m.Keys == set c | c in Channels
    ensures forall c :: c in m ==> m[c] == 4000.0
  {
    map c | c in Channels :: 4000.0
  }

  /** `DeviceData::new`: the two defaults side by side. */
  datatype DeviceData = DeviceData(eeg: map<string, real>, impedance: map<string, real>)

  function NewDeviceData(): (d: DeviceData)
    ensures d.eeg.Keys == d.impedance.Keys == set c | c in Channels
    ensures forall c :: c in d.eeg ==> d.eeg[c] == 0.0 && d.impedance[c] == 4000.0
  {
    DeviceData(NewEegData(), NewImpedanceData())
  }

  /** How a device other than the mock answers each call. */
  datatype DeviceBehaviour = DeviceBehaviour(
    connectReply: Result<(), string>,
    /** whether a successful `connect` leaves the device connected */
    connectLinks: bool,
    disconnectReply: Result<(), string>,
    /** whether a successful `disconnect` leaves the device disconnected */
    disconnectUnlinks: bool,
    /**
     * whether `change_work_mode` takes effect: the BrainFlow adapter keeps
     * its mode when a stop or start command fails, and the port's
     * `change_work_mode` reports nothing either way
     */
    switchTakes: bool,
    impedanceReply: Result<ImpedanceMap, string>,
    rawReply: Result<HeadsetMap, string>)

  datatype Adapter = Mock | Device(behaviour: DeviceBehaviour)

  datatype HeadsetCall =
    | ConnectCall
    | DisconnectCall
    | IsConnectedCall
    | GetWorkModeCall
    | ChangeWorkModeCall(mode: WorkMode)
    | ExtractImpedanceDataCall
    | ExtractRawDataCall

  const NotInCalibrationMode: string := "Device not in Calibration mode. Call change_work_mode first."
  const NotInExtractionMode: string := "Device not in Extraction mode. Call change_work_mode first."
  const DeviceNotConnected: string := "Device is not connected"

  class EegHeadset {
    const adapter: Adapter
    var connected: bool
    var workMode: WorkMode
    /** The process-wide simulated data the mock reads (unused by other devices). */
    const sim: SimulatedEegData
    const rng: Rng
    ghost var calls: seq<HeadsetCall>

    ghost predicate Valid()
      reads this, sim
    {
      sim.Valid()
    }

    /** The mock adapter's `Default`: connected, in calibration mode. */
    constructor MockDefault(sim: SimulatedEegData, rng: Rng)
      requires sim.Valid()
      ensures Valid()
      ensures adapter == Mock && connected && workMode == Calibration && calls == []
      ensures this.sim == sim && this.rng == rng
    {
      adapter := Mock;
      connected := true;
      workMode := Calibration;
      this.sim := sim;
      this.rng := rng;
      calls := [];
    }

    /** Another device, in a given initial state. */
    constructor WithDevice(behaviour: DeviceBehaviour, connected: bool, mode: WorkMode, sim: SimulatedEegData, rng: Rng)
      requires sim.Valid()
      ensures Valid()
      ensures adapter == Device(behaviour) && this.connected == connected && workMode == mode && calls == []
      ensures this.sim == sim && this.rng == rng
    {
      adapter := Device(behaviour);
      this.connected := connected;
      workMode := mode;
      this.sim := sim;
      this.rng := rng;
      calls := [];
    }

    /** What `connect` answers in the current state; the mock always succeeds. */
    function ConnectReply(): Result<(), string>
      reads this
    {
      match adapter
      case Mock => Ok(())
      case Device(b) => b.connectReply
    }

    /** Whether the device is connected after `connect`; the mock's flag never moves. */
    function ConnectedAfterConnect(): bool
      reads this
    {
      match adapter
      case Mock => connected
      case Device(b) => connected || (b.connectReply.Ok? && b.connectLinks)
    }

    /** What `disconnect` answers; the mock refuses only when it is not connected. */
    function DisconnectReply(): Result<(), string>
      reads this
    {
      match adapter
      case Mock => if !connected then Err(DeviceNotConnected) else Ok(())
      case Device(b) => b.disconnectReply
    }

    /** Whether the device is connected after `disconnect`; the mock's flag never moves. */
    function ConnectedAfterDisconnect(): bool
      reads this
    {
      match adapter
      case Mock => connected
      case Device(b) => connected && !(b.disconnectReply.Ok? && b.disconnectUnlinks)
    }

    /** The mode after `change_work_mode(mode)`; the mock always switches. */
    function ModeAfterSwitch(mode: WorkMode): WorkMode
      reads this
    {
      match adapter
      case Mock => mode
      case Device(b) => if b.switchTakes then mode else workMode
    }

    method IsConnected() returns (b: bool)
      modifies this`calls
      ensures b == connected
      ensures calls == old(calls) + [IsConnectedCall]
    {
      b := connected;
      calls := calls + [IsConnectedCall];
    }

    method Connect() returns (r: Result<(), string>)
      modifies this`connected, this`calls
      ensures r == old(ConnectReply())
      ensures connected == old(ConnectedAfterConnect())
      ensures calls == old(calls) + [ConnectCall]
    {
      r := ConnectReply();
      connected := ConnectedAfterConnect();
      calls := calls + [ConnectCall];
    }

    method Disconnect() returns (r: Result<(), string>)
      modifies this`connected, this`calls
      ensures r == old(DisconnectReply())
      ensures connected == old(ConnectedAfterDisconnect())
      ensures calls == old(calls) + [DisconnectCall]
    {
      r := DisconnectReply();
      connected := ConnectedAfterDisconnect();
      calls := calls + [DisconnectCall];
    }

    method GetWorkMode() returns (m: WorkMode)
      modifies this`calls
      ensures m == workMode
      ensures calls == old(calls) + [GetWorkModeCall]
    {
      m := workMode;
      calls := calls + [GetWorkModeCall];
    }

    /**
     * Switches the acquisition mode (a no-op when already in it). The mock
     * always ends in the requested mode; another device ends in it when
     * the switch takes, and otherwise stays silently in its old mode.
     */
    method ChangeWorkMode(mode: WorkMode)
      modifies this`workMode, this`calls
      ensures adapter.Mock? ==> workMode == mode
      ensures old(workMode) == mode ==> workMode == mode
      ensures adapter.Device? ==> workMode == (if adapter.behaviour.switchTakes then mode else old(workMode))
      ensures calls == old(calls) + [ChangeWorkModeCall(mode)]
    {
      if workMode != mode {
        workMode := ModeAfterSwitch(mode);
      }
      calls := calls + [ChangeWorkModeCall(mode)];
    }

    /**
     * Reads the impedances. The mock refuses outside calibration mode, then
     * when disconnected, and otherwise refreshes the simulated data and
     * returns its impedances.
     */
    method ExtractImpedanceData() returns (r: Result<ImpedanceMap, string>)
      requires Valid()
      modifies this`calls, sim, rng
      ensures Valid()
      ensures calls == old(calls) + [ExtractImpedanceDataCall]
      ensures adapter.Device? ==> r == adapter.behaviour.impedanceReply && unchanged(sim)
      ensures adapter.Mock? && workMode != Calibration ==> r == Err(NotInCalibrationMode) && unchanged(sim)
      ensures adapter.Mock? && workMode == Calibration && !connected ==> r == Err(DeviceNotConnected) && unchanged(sim)
      ensures adapter.Mock? && workMode == Calibration && connected ==> r == Ok(sim.impedanceValues)
    {
      calls := calls + [ExtractImpedanceDataCall];
      match adapter
      case Device(b) =>
        r := b.impedanceReply;
      case Mock =>
        if workMode != Calibration {
          r := Err(NotInCalibrationMode);
        } else if !connected {
          r := Err(DeviceNotConnected);
        } else {
          sim.RefreshData(rng);
          r := Ok(sim.impedanceValues);
        }
    }

    /**
     * Reads the EEG samples. The mock refuses outside extraction mode, then
     * when disconnected, and otherwise refreshes the simulated data and
     * returns its buffers.
     */
    method ExtractRawData() returns (r: Result<HeadsetMap, string>)
      requires Valid()
      modifies this`calls, sim, rng
      ensures Valid()
      ensures calls == old(calls) + [ExtractRawDataCall]
      ensures adapter.Device? ==> r == adapter.behaviour.rawReply && unchanged(sim)
      ensures adapter.Mock? && workMode != Extraction ==> r == Err(NotInExtractionMode) && unchanged(sim)
      ensures adapter.Mock? && workMode == Extraction && !connected ==> r == Err(DeviceNotConnected) && unchanged(sim)
      ensures adapter.Mock? && workMode == Extraction && connected ==> r == Ok(sim.rawDataBuffer)
    {
      calls := calls + [ExtractRawDataCall];
      match adapter
      case Device(b) =>
        r := b.rawReply;
      case Mock =>
        if workMode != Extraction {
          r := Err(NotInExtractionMode);
        } else if !connected {
          r := Err(DeviceNotConnected);
        } else {
          sim.RefreshData(rng);
          r := Ok(sim.rawDataBuffer);
        }
    }
  }

  /** The mock's connection flag is fixed: neither `connect` nor `disconnect` moves it. */
  lemma MockConnectionNeverChanges(h: EegHeadset)
    requires h.adapter.Mock?
    ensures h.ConnectedAfterConnect() == h.connected
    ensures h.ConnectedAfterDisconnect() == h.connected
    ensures h.ConnectReply() == Ok(())
    ensures h.DisconnectReply().Ok? <==> h.connected
  {
  }

  /** Every impedance the mock reports lies in 1..20. */
  lemma MockImpedancesInRange(sim: SimulatedEegData, c: string)
    requires sim.Valid() && c in sim.impedanceValues
    ensures 1 <= sim.impedanceValues[c] as int <= 20
  {
  }

  /** Every sample the mock reports lies in [-100, 100], with at most 500 per channel. */
  lemma MockSamplesInRange(sim: SimulatedEegData, c: string, i: int)
    requires sim.Valid() && c in sim.rawDataBuffer && 0 <= i < |sim.rawDataBuffer[c]|
    ensures |sim.rawDataBuffer[c]| <= 500
    ensures -100.0 <= sim.rawDataBuffer[c][i] <= 100.0
  {
  }
}
