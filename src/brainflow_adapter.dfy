/**
 * The BrainFlow headset adapter: a board reached through BrainFlow's board
 * handle, switched between signal and resistance streaming by text
 * commands, and read as rows of samples, one row per board channel.
 */
module BrainFlow {
  import opened Wrappers
  import opened Events
  import opened WorkModes
  import HeadsetPort

  /** A 32-bit float as the adapter produces it: a value, or the NaN placeholder. */
  datatype Sample = Value(x: real) | NaN

  /**
   * The board handle. `failing` are the configuration commands the board
   * rejects, with `failureReason`; `data` answers a data request (the
   * requested sample count, if any) with rows or an error.
   */
  class BoardShim {
    const failing: set<string>
    const failureReason: string
    const response: string
    const data: Option<nat> -> Result<seq<seq<real>>, string>
    /** The configuration commands sent so far. */
    ghost var sent: seq<string>

    constructor (failing: set<string>, failureReason: string, response: string,
                 data: Option<nat> -> Result<seq<seq<real>>, string>)
      ensures this.failing == failing && this.failureReason == failureReason && this.response == response
      ensures this.data == data && sent == []
    {
      this.failing := failing;
      this.failureReason := failureReason;
      this.response := response;
      this.data := data;
      sent := [];
    }

    method ConfigBoard(command: string) returns (r: Result<string, string>)
      modifies this`sent
      ensures sent == old(sent) + [command]
      ensures r == if command in failing then Err(failureReason) else Ok(response)
    {
      sent := sent + [command];
      if command in failing {
        return Err(failureReason);
      }
      r := Ok(response);
    }

    method GetBoardData(count: Option<nat>) returns (r: Result<seq<seq<real>>, string>)
      ensures r == data(count)
    {
      r := data(count);
    }
  }

  /** The command that stops streaming in a mode. */
  function StopCommand(m: WorkMode): string
  {
    match m
    case Calibration => "CommandStopSignal"
    case Extraction => "CommandStopResist"
  }

  /** The command that starts streaming in a mode. */
  function StartCommand(m: WorkMode): string
  {
    match m
    case Calibration => "CommandStartResist"
    case Extraction => "CommandStartSignal"
  }

  /** Each mode is stopped and started by four distinct commands. */
  lemma CommandsDistinct()
    ensures StopCommand(Calibration) != StopCommand(Extraction)
    ensures StartCommand(Calibration) != StartCommand(Extraction)
    ensures forall m, n :: StopCommand(m) != StartCommand(n)
  {
    forall m, n
      ensures StopCommand(m) != StartCommand(n)
    {
      assert StopCommand(m)[9] == 'o' && StartCommand(n)[9] == 'a';
    }
  }

  /** Whether `stop` ends the stream that `start` began: both name the same stream. */
  predicate Stops(stop: string, start: string)
  {
    |start| >= 12 && start[..12] == "CommandStart" && stop == "CommandStop" + start[12..]
  }

  /**
   * As written, leaving a mode sends the stop command of the other
   * stream: calibration began the resistance stream but is left with
   * "CommandStopSignal", and extraction the other way round.
   */
  lemma StopCommandMissesStream()
    ensures forall m :: !Stops(StopCommand(m), StartCommand(m))
    ensures forall m :: m != Calibration ==> Stops(StopCommand(m), StartCommand(Calibration))
  {
    assert StartCommand(Calibration)[..12] == "CommandStart" && StartCommand(Extraction)[..12] == "CommandStart";
    assert StartCommand(Calibration)[12..] == "Resist" && StartCommand(Extraction)[12..] == "Signal";
    assert ("CommandStop" + "Resist")[11] == 'R' && ("CommandStop" + "Signal")[11] == 'S';
    assert StopCommand(Calibration)[11] == 'S' && StopCommand(Extraction)[11] == 'R';
  }

  /** The stop command that ends the stream a mode began. */
  function IntendedStopCommand(m: WorkMode): (cmd: string)
    ensures Stops(cmd, StartCommand(m))
  {
    match m
    case Calibration => "CommandStopResist"
    case Extraction => "CommandStopSignal"
  }

  /** Board rows holding each channel's resistance, in channel order T3, T4, O1, O2. */
  const ResistanceRows: seq<nat> := [5, 6, 7, 8]
  /** Board rows holding each channel's signal, in channel order T3, T4, O1, O2. */
  const SignalRows: seq<nat> := [1, 2, 3, 4]
  /** Samples requested for an impedance reading. */
  const ImpedanceSampleCount: nat := 100

  const ImpedanceFetchFailurePrefix: string := "Failed to get board data for impedance: "
  const RawFetchFailurePrefix: string := "Failed to get board data for raw extraction: "
  const NoImpedanceRows: string := "No data returned from board for impedance check."

  function CommandFailure(command: string, e: string): string
  {
    "Error sending command '" + command + "': " + e
  }

  /** A board reading in ohms as the kilo-ohm sample the adapter reports. */
  function KiloOhms(v: real): Sample
  {
    Value((if v < 0.0 then -v else v) / 1000.0)
  }

  /** The resistance entry of one channel: its row in kilo-ohms, or a lone NaN when the board has no such row. */
  function ResistanceEntry(rows: seq<seq<real>>, j: nat): (e: seq<Sample>)
    requires j < 4
    ensures ResistanceRows[j] < |rows| ==> (|e| == |rows[ResistanceRows[j]]| &&
      forall i :: 0 <= i < |e| ==> e[i] == KiloOhms(rows[ResistanceRows[j]][i]))
    ensures ResistanceRows[j] >= |rows| ==> e == [NaN]
  {
    if ResistanceRows[j] < |rows| then
      var row := rows[ResistanceRows[j]];
      seq(|row|, i requires 0 <= i < |row| => KiloOhms(row[i]))
    else [NaN]
  }

  /** The kilo-ohm conversion keeps magnitudes and never yields a negative value. */
  lemma KiloOhmsMagnitude(v: real)
    ensures KiloOhms(v).Value? && KiloOhms(v).x >= 0.0
    ensures KiloOhms(v).x * 1000.0 == (if v < 0.0 then -v else v)
  {
  }

  class BrainFlowAdapter {
    const board: BoardShim
    var workMode: WorkMode

    /**
     * The factory: starts in calibration mode and asks the board to start
     * resistance streaming, whatever the board answers.
     */
    constructor (board: BoardShim)
      modifies board`sent
      ensures this.board == board && workMode == Calibration
      ensures board.sent == old(board.sent) + ["CommandStartResist"]
    {
      this.board := board;
      workMode := Calibration;
      new;
      var _ := SendBoardCommand("CommandStartResist");
    }

    /** One configuration command; a rejection is reported with the command's name. */
    method SendBoardCommand(command: string) returns (r: Result<string, string>)
      modifies board`sent
      ensures board.sent == old(board.sent) + [command]
      ensures command in board.failing ==> r == Err(CommandFailure(command, board.failureReason))
      ensures command !in board.failing ==> r == Ok(board.response)
    {
      var reply := board.ConfigBoard(command);
      match reply
      case Ok(response) => r := Ok(response);
      case Err(e) => r := Err(CommandFailure(command, e));
    }

    /**
     * Mode switch: nothing to do in the same mode; otherwise stop the
     * current mode's stream, and only if that succeeded start the new
     * mode's stream; the mode changes exactly when the start succeeded.
     * The stop command is the one that ends the current stream
     * (`IntendedStopCommand`), not the swapped one `StopCommand` records.
     */
    method ChangeWorkMode(newMode: WorkMode)
      modifies this`workMode, board`sent
      ensures old(workMode) == newMode ==> workMode == newMode && board.sent == old(board.sent)
      ensures old(workMode) != newMode && IntendedStopCommand(old(workMode)) in board.failing ==>
        workMode == old(workMode) && board.sent == old(board.sent) + [IntendedStopCommand(old(workMode))]
      ensures old(workMode) != newMode && IntendedStopCommand(old(workMode)) !in board.failing ==>
        board.sent == old(board.sent) + [IntendedStopCommand(old(workMode)), StartCommand(newMode)] &&
        workMode == (if StartCommand(newMode) in board.failing then old(workMode) else newMode)
    {
      if workMode == newMode {
        return;
      }
      var stopped := SendBoardCommand(IntendedStopCommand(workMode));
      if stopped.Err? {
        return;
      }
      var started := SendBoardCommand(StartCommand(newMode));
      if started.Ok? {
        workMode := newMode;
      }
    }

    /**
     * Impedance reading: only in calibration mode; a failed or row-less
     * board reading is an error; otherwise every channel gets an entry.
     */
    method ExtractImpedanceData() returns (r: Result<map<string, seq<Sample>>, string>)
      ensures workMode != Calibration ==> r == Err(HeadsetPort.NotInCalibrationMode)
      ensures workMode == Calibration && board.data(Some(ImpedanceSampleCount)).Err? ==>
        r == Err(ImpedanceFetchFailurePrefix + board.data(Some(ImpedanceSampleCount)).error)
      ensures workMode == Calibration && board.data(Some(ImpedanceSampleCount)) == Ok([]) ==>
        r == Err(NoImpedanceRows)
      ensures (workMode == Calibration && board.data(Some(ImpedanceSampleCount)).Ok? &&
        board.data(Some(ImpedanceSampleCount)).value != []) ==>
        r.Ok? && (forall c :: c in r.value <==> c in Channels) &&
        forall j :: 0 <= j < 4 ==> r.value[Channels[j]] == ResistanceEntry(board.data(Some(ImpedanceSampleCount)).value, j)
    {
      if workMode != Calibration {
        return Err(HeadsetPort.NotInCalibrationMode);
      }
      var fetched := board.GetBoardData(Some(ImpedanceSampleCount));
      if fetched.Err? {
        return Err(ImpedanceFetchFailurePrefix + fetched.error);
      }
      var rows := fetched.value;
      if |rows| == 0 {
        return Err(NoImpedanceRows);
      }
      var values: map<string, seq<Sample>> := map[];
      var j := 0;
      while j < 4
        invariant 0 <= j <= 4
        invariant forall c :: c in values <==> c in Channels[..j]
        invariant forall k :: 0 <= k < j ==> values[Channels[k]] == ResistanceEntry(rows, k)
      {
        var entry;
        if ResistanceRows[j] < |rows| {
          var row := rows[ResistanceRows[j]];
          entry := seq(|row|, i requires 0 <= i < |row| => KiloOhms(row[i]));
        } else {
          entry := [NaN];
        }
        values := values[Channels[j] := entry];
        j := j + 1;
      }
      assert Channels[..4] == Channels;
      r := Ok(values);
    }

    /**
     * Raw reading: only in extraction mode; a failed board reading is an
     * error; no rows give an empty map; otherwise each channel whose signal
     * row exists gets that row and the others are left out.
     */
    method ExtractRawData() returns (r: Result<HeadsetMap, string>)
      ensures workMode != Extraction ==> r == Err(HeadsetPort.NotInExtractionMode)
      ensures workMode == Extraction && board.data(None).Err? ==>
        r == Err(RawFetchFailurePrefix + board.data(None).error)
      ensures workMode == Extraction && board.data(None) == Ok([]) ==> r == Ok(map[])
      ensures workMode == Extraction && board.data(None).Ok? && board.data(None).value != [] ==>
        var rows := board.data(None).value;
        r.Ok? && (forall c :: c in r.value ==> c in Channels) &&
        forall j :: 0 <= j < 4 ==>
          (Channels[j] in r.value <==> SignalRows[j] < |rows|) &&
          (Channels[j] in r.value ==> r.value[Channels[j]] == rows[SignalRows[j]])
    {
      if workMode != Extraction {
        return Err(HeadsetPort.NotInExtractionMode);
      }
      var fetched := board.GetBoardData(None);
      if fetched.Err? {
        return Err(RawFetchFailurePrefix + fetched.error);
      }
      var rows := fetched.value;
      var raw: HeadsetMap := map[];
      if |rows| == 0 {
        return Ok(raw);
      }
      var j := 0;
      while j < 4
        invariant 0 <= j <= 4
        invariant forall c :: c in raw ==> c in Channels[..j]
        invariant forall k :: 0 <= k < j ==>
          (Channels[k] in raw <==> SignalRows[k] < |rows|) &&
          (Channels[k] in raw ==> raw[Channels[k]] == rows[SignalRows[k]])
      {
        if SignalRows[j] < |rows| {
          raw := raw[Channels[j] := rows[SignalRows[j]]];
        }
        j := j + 1;
      }
      assert Channels[..4] == Channels;
      r := Ok(raw);
    }
  }
}
