/**
 * The capture tool's controller: it switches the board between resistance
 * and signal streaming, reacts to the keys the views report, counts down
 * before a capture, and cuts the captured rows into files of exactly 100
 * rows until enough files exist. Two copies of the tool differ only in
 * the language of their messages; `language` selects one.
 */
module CaptureController {
  import opened Wrappers
  import Text
  import BrainFlow
  import WorkModes
  import opened ImpedanceStatus

  /** Files to capture. */
  const NumSamples: nat := 100
  /** Seconds between board reads while capturing. */
  const WindowSeconds: nat := 10
  /** Seconds of countdown before capturing. */
  const InitialDelay: nat := 30
  /** Rows per saved file. */
  const ChunkRows: nat := 100

  datatype AppState = Setup | Countdown | Capture | Complete | Error

  /** What a view event asks of the caller. */
  datatype Action = NoAction | Next | Cancel

  /**
   * A view event: the `event` kind, the pressed `key` and the view's
   * `impedance_ok` flag, each possibly absent.
   */
  datatype ViewEvent = ViewEvent(event: Option<string>, key: Option<string>, impedanceOk: Option<bool>)

  /** One captured row: timestamp, T3, T4, O1, O2. */
  type Row = seq<real>

  function InitialMessage(lang: Language): string
  {
    match lang
    case English => "Initializing..."
    case Spanish => "Inicializando..."
  }

  function PreparingMessage(lang: Language): string
  {
    match lang
    case English => "Preparing capture. Acquisition will start in " + Text.NatToString(InitialDelay) + " seconds."
    case Spanish => "Preparando captura. La adquisición comenzará en " + Text.NatToString(InitialDelay) + " segundos."
  }

  function SampleMessage(lang: Language, count: nat): string
  {
    match lang
    case English => "Sample " + Text.NatToString(count) + "/" + Text.NatToString(NumSamples) + " captured"
    case Spanish => "Muestra " + Text.NatToString(count) + "/" + Text.NatToString(NumSamples) + " capturada"
  }

  function CompleteMessage(lang: Language): string
  {
    match lang
    case English => "Capture completed! Processing data..."
    case Spanish => "¡Captura completada! Procesando datos..."
  }

  function CaptureErrorPrefix(lang: Language): string
  {
    match lang
    case English => "Error capturing data: "
    case Spanish => "Error al capturar datos: "
  }

  function CaptureStartedMessage(lang: Language): string
  {
    match lang
    case English => "Capture started. Maintain the indicated position."
    case Spanish => "Captura iniciada. Mantenga la posición indicada."
  }

  /** The command that stops the current streaming mode, if any. */
  function StopFor(current: Option<string>): (cmds: seq<string>)
    ensures |cmds| <= 1
  {
    if current == Some("signal") then ["CommandStopSignal"]
    else if current == Some("impedance") then ["CommandStopResist"]
    else []
  }

  /** The command that starts a streaming mode; an unknown mode has none. */
  function StartFor(mode: string): (cmds: seq<string>)
    ensures |cmds| <= 1
  {
    if mode == "signal" then ["CommandStartSignal"]
    else if mode == "impedance" then ["CommandStartResist"]
    else []
  }

  /**
   * Each known mode is left with the command that ends the stream it
   * began, the same commands the headset adapter's corrected stop
   * selection uses ("impedance" is its calibration mode, "signal" its
   * extraction mode).
   */
  lemma StopUndoesStart(mode: string)
    requires mode == "signal" || mode == "impedance"
    ensures |StartFor(mode)| == 1 && |StopFor(Some(mode))| == 1
    ensures BrainFlow.Stops(StopFor(Some(mode))[0], StartFor(mode)[0])
    ensures var m := if mode == "impedance" then WorkModes.Calibration else WorkModes.Extraction;
      StartFor(mode) == [BrainFlow.StartCommand(m)] && StopFor(Some(mode)) == [BrainFlow.IntendedStopCommand(m)]
  {
    assert StartFor(mode)[0][..12] == "CommandStart";
  }

  /** The rows of a sequence of files, in order. */
  function Flatten(chunks: seq<seq<Row>>): seq<Row>
  {
    if chunks == [] then [] else Flatten(chunks[..|chunks| - 1]) + chunks[|chunks| - 1]
  }

  lemma {:induction false} FlattenAppend(a: seq<seq<Row>>, b: seq<seq<Row>>)
    ensures Flatten(a + b) == Flatten(a) + Flatten(b)
    decreases |b|
  {
    if b == [] {
      assert a + b == a;
    } else {
      var b' := b[..|b| - 1];
      assert (a + b)[..|a + b| - 1] == a + b';
      FlattenAppend(a, b');
    }
  }

  /**
   * The file-cutting loop of a capture step: while 100 rows are buffered,
   * the first 100 become a file and the counter goes up, stopping once the
   * counter reaches the number of files wanted.
   */
  method SaveChunks(buffer: seq<Row>, count: nat) returns (chunks: seq<seq<Row>>, rest: seq<Row>, newCount: nat)
    ensures newCount == count + |chunks|
    ensures forall i :: 0 <= i < |chunks| ==> |chunks[i]| == ChunkRows
    ensures Flatten(chunks) + rest == buffer
    ensures |rest| < ChunkRows || newCount >= NumSamples
    ensures |chunks| <= 1 || newCount <= NumSamples
    ensures count < NumSamples ==> newCount <= NumSamples
  {
    chunks, rest, newCount := [], buffer, count;
    while |rest| >= ChunkRows
      invariant newCount == count + |chunks|
      invariant forall i :: 0 <= i < |chunks| ==> |chunks[i]| == ChunkRows
      invariant Flatten(chunks) + rest == buffer
      invariant chunks == [] || newCount < NumSamples
      decreases |rest|
    {
      var chunk := rest[..ChunkRows];
      assert (chunks + [chunk])[..|chunks|] == chunks;
      assert chunk + rest[ChunkRows..] == rest;
      chunks := chunks + [chunk];
      rest := rest[ChunkRows..];
      newCount := newCount + 1;
      if newCount >= NumSamples {
        break;
      }
    }
  }

  /** Python's `int()` on a float: truncation toward zero. */
  function Truncate(x: real): int
  {
    if x >= 0.0 then x.Floor else -((-x).Floor)
  }

  /** Seconds left on the countdown after `elapsed` seconds. */
  function CountdownSeconds(elapsed: real): (s: int)
    ensures s >= 0
  {
    var left := InitialDelay - Truncate(elapsed);
    if left > 0 then left else 0
  }

  /** The countdown starts at the full delay, never grows, and is over exactly when the delay has elapsed. */
  lemma CountdownProperties(e1: real, e2: real)
    requires 0.0 <= e1 <= e2
    ensures CountdownSeconds(e1) <= InitialDelay
    ensures CountdownSeconds(e2) <= CountdownSeconds(e1)
    ensures CountdownSeconds(0.0) == InitialDelay
  {
  }

  /** The countdown is over exactly when the whole delay has elapsed. */
  lemma CountdownOver(elapsed: real)
    ensures CountdownSeconds(elapsed) == 0 <==> elapsed >= InitialDelay as real
  {
  }

  /** Whether a capture error ends the capture. */
  predicate EndsCapture(error: string, count: nat)
  {
    Text.Contains(error, "Fatal") || count == 0
  }

  /** A non-fatal error is tolerated only after something was captured. */
  lemma ErrorRule(error: string, count: nat)
    ensures !EndsCapture(error, count) ==> count > 0
    ensures count == 0 ==> EndsCapture(error, count)
    ensures Text.Contains(error, "Fatal") ==> EndsCapture(error, count)
  {
  }

  class NeuralCaptureController {
    const language: Language
    /** The board, once hardware initialisation made one. */
    const board: BrainFlow.BoardShim?
    var currentDeviceMode: Option<string>
    var appState: AppState
    var message: string
    var captureCount: nat
    var countdownSeconds: int
    /** Set when the user cancels; the worker loops stop on it. */
    var cancelled: bool
    /** Rows read but not yet saved. */
    var buffer: seq<Row>
    /** The files written, each a block of rows. */
    var saved: seq<seq<Row>>
    /** Every row read from the board while capturing. */
    ghost var received: seq<Row>

    /** Every file holds exactly 100 rows, the counter counts them, and no row is lost or reordered. */
    ghost predicate FilesValid()
      reads this
    {
      && |saved| == captureCount
      && (forall i :: 0 <= i < |saved| ==> |saved[i]| == ChunkRows)
      && Flatten(saved) + buffer == received
    }

    /** The files are valid, and the capture is complete exactly when enough files exist. */
    ghost predicate Valid()
      reads this
    {
      && FilesValid()
      && (appState == Complete ==> captureCount >= NumSamples)
      && (appState in {Setup, Countdown, Capture} ==> captureCount < NumSamples)
    }

    constructor (language: Language, board: BrainFlow.BoardShim?)
      ensures Valid()
      ensures this.language == language && this.board == board
      ensures currentDeviceMode == None && appState == Setup && message == InitialMessage(language)
      ensures captureCount == 0 && countdownSeconds == InitialDelay && !cancelled
      ensures buffer == [] && saved == [] && received == []
    {
      this.language := language;
      this.board := board;
      currentDeviceMode := None;
      appState := Setup;
      message := InitialMessage(language);
      captureCount := 0;
      countdownSeconds := InitialDelay;
      cancelled := false;
      buffer := [];
      saved := [];
      received := [];
    }

    /**
     * Puts the board into `mode` ("signal" or "impedance"): stop the
     * current mode, start the new one, then record it. A rejected command
     * ends the switch with `false`.
     */
    method SetDeviceMode(mode: string) returns (ok: bool)
      modifies this`currentDeviceMode, board
      ensures board == null ==> !ok && currentDeviceMode == old(currentDeviceMode)
      ensures board != null && old(currentDeviceMode) == Some(mode) ==>
        ok && board.sent == old(board.sent) && currentDeviceMode == old(currentDeviceMode)
      ensures board != null && old(currentDeviceMode) != Some(mode) ==>
        var stop, start := StopFor(old(currentDeviceMode)), StartFor(mode);
        if stop != [] && stop[0] in board.failing then
          !ok && board.sent == old(board.sent) + stop && currentDeviceMode == old(currentDeviceMode)
        else
          && board.sent == old(board.sent) + stop + start
          && (ok <==> !(start != [] && start[0] in board.failing))
          && currentDeviceMode == (if ok && start != [] then Some(mode) else old(currentDeviceMode))
    {
      if board == null {
        return false;
      }
      if currentDeviceMode == Some(mode) {
        return true;
      }
      var stop := StopFor(currentDeviceMode);
      if stop != [] {
        var r := board.ConfigBoard(stop[0]);
        if r.Err? {
          return false;
        }
      }
      var start := StartFor(mode);
      if start != [] {
        var r := board.ConfigBoard(start[0]);
        if r.Err? {
          return false;
        }
        currentDeviceMode := Some(mode);
      }
      ok := true;
    }

    /**
     * A view event. Enter on the setup screen with good impedances starts
     * the countdown; escape cancels; anything else does nothing.
     */
    method HandleViewEvent(ev: ViewEvent) returns (a: Action)
      requires Valid()
      modifies this`appState, this`message, this`cancelled
      ensures Valid()
      ensures ev.event.None? ==> a == NoAction
      ensures a == Next <==>
        ev.event == Some("key_press") && ev.key.GetOr("") == "enter" &&
        old(appState) == Setup && ev.impedanceOk.GetOr(false)
      ensures a == Cancel <==> ev.event == Some("key_press") && ev.key.GetOr("") == "escape"
      ensures a == Next ==> appState == Countdown && message == PreparingMessage(language)
      ensures a != Next ==> appState == old(appState) && message == old(message)
      ensures cancelled == (old(cancelled) || a == Cancel)
    {
      if ev.event.None? {
        return NoAction;
      }
      if ev.event.value == "key_press" {
        var key := ev.key.GetOr("");
        if key == "enter" {
          if appState == Setup && ev.impedanceOk.GetOr(false) {
            appState := Countdown;
            message := PreparingMessage(language);
            return Next;
          }
        } else if key == "escape" {
          cancelled := true;
          return Cancel;
        }
      }
      return NoAction;
    }

    /** One countdown check, `elapsed` seconds after the countdown began; true when capturing starts. */
    method CountdownTick(elapsed: real) returns (started: bool)
      requires Valid()
      modifies this`appState, this`message, this`countdownSeconds
      ensures Valid()
      ensures old(appState) != Countdown ==> !started && unchanged(this)
      ensures old(appState) == Countdown ==>
        && countdownSeconds == CountdownSeconds(elapsed)
        && (started <==> elapsed >= InitialDelay as real)
        && (started ==> appState == Capture && message == CaptureStartedMessage(language))
        && (!started ==> appState == Countdown && message == old(message))
    {
      if appState != Countdown {
        return false;
      }
      countdownSeconds := CountdownSeconds(elapsed);
      CountdownOver(elapsed);
      if countdownSeconds <= 0 {
        appState := Capture;
        message := CaptureStartedMessage(language);
        return true;
      }
      return false;
    }

    /**
     * One capture step: `reading` is the board's selected rows, or the
     * error it raised. Rows are buffered and cut into files; returns true
     * when the capture ends, complete or failed.
     */
    method CaptureStep(reading: Result<seq<Row>, string>) returns (stop: bool)
      requires Valid()
      modifies this`buffer, this`captureCount, this`saved, this`appState, this`message, this`received
      ensures Valid()
      ensures old(appState) != Capture ==> !stop && unchanged(this)
      ensures old(appState) == Capture && reading.Err? ==>
        && buffer == old(buffer) && saved == old(saved) && captureCount == old(captureCount)
        && (stop <==> EndsCapture(reading.error, old(captureCount)))
        && (stop ==> appState == Error && message == CaptureErrorPrefix(language) + reading.error)
        && (!stop ==> appState == Capture && message == old(message))
      ensures old(appState) == Capture && reading.Ok? ==>
        && received == old(received) + reading.value
        && |saved| >= |old(saved)| && saved[..|old(saved)|] == old(saved)
        && (|buffer| < ChunkRows || captureCount >= NumSamples)
        && (old(captureCount) < NumSamples ==> captureCount <= NumSamples)
        && (stop <==> captureCount >= NumSamples)
        && (stop ==> appState == Complete && message == CompleteMessage(language))
        && (!stop ==> appState == Capture)
        && (!stop && captureCount > old(captureCount) ==> message == SampleMessage(language, captureCount))
        && (captureCount == old(captureCount) ==> message == old(message) && saved == old(saved))
    {
      if appState != Capture {
        return false;
      }
      if reading.Err? {
        if EndsCapture(reading.error, captureCount) {
          appState := Error;
          message := CaptureErrorPrefix(language) + reading.error;
          return true;
        }
        return false;
      }
      Store(reading.value);
      if captureCount >= NumSamples {
        appState := Complete;
        message := CompleteMessage(language);
        return true;
      }
      return false;
    }

    /** Buffers `rows` and writes every complete file the buffer now holds. */
    method Store(rows: seq<Row>)
      requires FilesValid()
      modifies this`buffer, this`captureCount, this`saved, this`message, this`received
      ensures FilesValid()
      ensures received == old(received) + rows
      ensures |saved| >= |old(saved)| && saved[..|old(saved)|] == old(saved)
      ensures |buffer| < ChunkRows || captureCount >= NumSamples
      ensures old(captureCount) < NumSamples ==> captureCount <= NumSamples
      ensures captureCount > old(captureCount) ==> message == SampleMessage(language, captureCount)
      ensures captureCount == old(captureCount) ==> message == old(message) && saved == old(saved)
    {
      received := received + rows;
      var chunks, rest, count := SaveChunks(buffer + rows, captureCount);
      FlattenAppend(saved, chunks);
      assert (saved + chunks)[..|saved|] == saved;
      forall i | 0 <= i < |saved + chunks|
        ensures |(saved + chunks)[i]| == ChunkRows
      {
        if i >= |saved| {
          assert (saved + chunks)[i] == chunks[i - |saved|];
        }
      }
      calc {
        Flatten(saved + chunks) + rest;
        Flatten(saved) + (Flatten(chunks) + rest);
        Flatten(saved) + (buffer + rows);
        (Flatten(saved) + buffer) + rows;
      }
      saved := saved + chunks;
      buffer := rest;
      if count > captureCount {
        message := SampleMessage(language, count);
      }
      captureCount := count;
    }
  }
}
