# NeuralAnalytics core, modelled in Dafny

NeuralAnalytics reads EEG signals from a BrainBit headband and predicts the colour the wearer is thinking of. It then switches a smart bulb to match. Its Rust core, `neural_analytics_core`, drives a four-state lifecycle:

1. initialise;
2. await a headset connection;
3. calibrate until every electrode's impedance is acceptable;
4. capture samples.

Each state handler runs commands on a command bus. Each command is a use case over three ports: the headset, the bulb and the inference service. The use cases return internal events, which are written into a shared context. Lifecycle events are announced to one registered subscriber. Two Python tools surround the core. A capture tool records labelled CSV files of 100 rows from the headband. A training preprocessor turns such files into one-hot labelled sliding windows.

The model covers the following, module by module (all files under `src/`):

- **Lifecycle** — the declared transition table, where an unlisted event is deferred to the absent superstate and so leaves the state unchanged.
- **Driver** — the running machine. It has two parts:
  - one pure step function per state, from what the commands observed to the next state, the commands run and the events announced;
  - a `MainStateMachine` class whose handlers run the use cases on the ports and write their events into the context.
- **Context** — the event writer that updates the three optional data fields in place, and the choice between the mock and the BrainFlow headset.
- **UseCases** — search, disconnect, calibrate, extract, predict and update-light, as methods over port classes.
- **HeadsetPort**, **SmartBulbPort** and **ModelPort** — the port classes. Each keeps a call log. The headset port answers either as the mock adapter (**MockHeadset**, its simulated data refreshed in place) or as a scripted device.
- **BrainFlow** — the BrainFlow adapter. It covers the command protocol of a mode switch and the mode and row checks of the two readers.
- **Inference** — the shape logic of preprocessing (channel check, pad or truncate to 62 samples, time-major interleave to 248 values) and the argmax-to-label step of prediction. Normalisation and softmax are parameters.
- **Events**, **EventHandlers** and **Dispatch** — event names and payloads, the six handlers' payload mapping, and `send_event`.
- **WorkModes** and **LightStatusErrors** — the mode names and the light error texts.
- **ImpedanceStatus**, **Resistance** and **CaptureController** — the capture tool:
  - impedance levels and their colours;
  - resistance aggregation and its defaults;
  - the kΩ conversion;
  - the controller class: mode switching, view events, the countdown, and the 100-row chunking with its error rule.

  Its English copy and its older Spanish copy agree on every modelled operation apart from message texts, so a `Language` parameter selects between those texts. Their unmodelled parts differ too: the output directory and the sound player.
- **TrainingPreprocessor** — path-to-label, one-hot encoding, row filtering, min-max scaling and sliding windows.

Where the code and its surrounding description disagree, the model follows the code. In six places the code does not express its own evident intent, and the model follows the intent. Three of them are bugs, each modelled both as written and as corrected (see "## Findings"):

- `model_inference_service.rs:248` panics on an empty network output before the emptiness check at line 270. `Inference.PredictColor` reports the error instead.
- `brainbit_headset.rs:213-216` sends the stop command of the other mode. `BrainFlow.BrainFlowAdapter.ChangeWorkMode` stops the stream the current mode started.
- `neural_analytics.py:73` cuts windows by row label after rows were dropped. `TrainingPreprocessor.SlidingWindows` and `Preprocess` cut them by position.

The other three are places where the code does not type-check as the surrounding code uses it:

- `domain/context/mod.rs:119-121` decodes the generalist-data event as the captured-data event type, whose fields do not match. The model stores the event's own channel map.
- `domain/events/mod.rs` declares the captured-data payload as a vector of byte vectors but copies it into a channel map. The model carries the channel map.
- `domain/ports/input/eeg_headset.rs` declares a headset trait that the use cases do not call. The model uses the port shape the use cases and their tests call.

## Model

| member | source | states |
|---|---|---|
| Lifecycle.LeavingInitialState | packages/neural_analytics_core/src/domain/state_machine/mod.rs:19-27 | the initial state is left only on InitializedCore, and then for awaiting a connection |
| Lifecycle.DataCaptureStartedIsNeverHandled | packages/neural_analytics_core/src/domain/state_machine/mod.rs:10-54 | no state handles DataCaptureStarted, so it never moves the machine |
| Lifecycle.DisconnectionResets | packages/neural_analytics_core/src/domain/state_machine/mod.rs:30-54 | from every state after initialisation, HeadsetDisconnected leads back to awaiting a connection |
| Lifecycle.NoReturnToInitialState | packages/neural_analytics_core/src/domain/state_machine/mod.rs:22-54 | once initialised, no event returns the machine to the initial state |
| Lifecycle.EnteringAState | packages/neural_analytics_core/src/domain/state_machine/mod.rs:22-54 | the only ways into each state from another one: forward one state on its own event, or back on a disconnection |
| Lifecycle.RunEntersTarget | packages/neural_analytics_core/src/domain/state_machine/mod.rs:22-54 | a run that ends in a state it did not start in contains the step that entered that state |
| Lifecycle.CapturingRequiresCalibration | packages/neural_analytics_core/src/domain/state_machine/mod.rs:39-54 | every run from the initial state that ends capturing received HeadsetCalibrated while awaiting calibration |
| Lifecycle.CalibrationRequiresConnection | packages/neural_analytics_core/src/domain/state_machine/mod.rs:30-45 | every run that ends awaiting calibration received HeadsetConnected while awaiting a connection |
| Lifecycle.NominalPath | packages/neural_analytics_core/src/domain/state_machine/mod.rs:19-54 | initialise, connect, calibrate and capture lead from the initial state to capturing |
| Driver.DriverFollowsTable | packages/neural_analytics_core/src/domain/state_machine/state_machine.rs:65-313 | every handler announces exactly one event and moves as the declared table says for it. The exceptions: a refused InitializedCore or HeadsetConnected stays put, and HeadsetCalibrating keeps calibrating |
| Driver.DriverAnnouncesLikeHandlers | packages/neural_analytics_core/src/domain/state_machine/state_machine.rs:72-79 | what a handler announces is exactly the event handlers' delivery for some lifecycle event |
| Driver.DisconnectResultIgnored | packages/neural_analytics_core/src/domain/state_machine/state_machine.rs:105-121 | the result of the opening disconnection never changes the connection handler's outcome |
| Driver.CalibrationGate | packages/neural_analytics_core/src/domain/state_machine/state_machine.rs:192-223 | after a successful calibration command, capture starts iff no stored impedance lies outside 1..1000 (a missing map passes). Otherwise the handler keeps calibrating and announces the same map |
| Driver.CommandFailureDisconnects | packages/neural_analytics_core/src/domain/state_machine/state_machine.rs:180-189 | a failed calibration or extraction command announces HeadsetDisconnected and returns to awaiting a connection |
| Driver.CaptureLoop | packages/neural_analytics_core/src/domain/state_machine/state_machine.rs:261-312 | a successful capture stays capturing, switches the light on for the fixed "green" label, and announces the context's samples or an empty map |
| Driver.MockImpedancesPassGate | packages/neural_analytics_core/src/domain/state_machine/state_machine.rs:198 | impedances in 1..20, as the mock reports them, never trigger more calibration |
| Driver.WriteEvents | packages/neural_analytics_core/src/domain/state_machine/state_machine.rs:114-119 | writing a use case's events leaves the context as the writer's fold over them, in order |
| Driver.SerializedAll | packages/neural_analytics_core/src/domain/context/mod.rs:109-113 | serialising events keeps their order and each decodes to its own kind |
| Driver.WriteOutcome | packages/neural_analytics_core/src/domain/state_machine/state_machine.rs:114-121 | a successful command's events are written in order; a failed one changes no context data |
| Driver.MainStateMachine.constructor | packages/neural_analytics_core/src/domain/state_machine/state_machine.rs:37-53 | the machine starts in the initialisation state with nothing announced, and its headset is the mock exactly when the context chose the mock |
| Driver.MainStateMachine.OnInitializeApplication | packages/neural_analytics_core/src/domain/state_machine/state_machine.rs:65-85 | the handler moves and announces as the initialisation step function says |
| Driver.MainStateMachine.OnAwaitingHeadsetConnection | packages/neural_analytics_core/src/domain/state_machine/state_machine.rs:98-151 | it disconnects, then searches, then moves as the connection step says. When the context chose the mock, a connected headset always gets through once the subscriber accepts |
| Driver.MainStateMachine.OnAwaitingHeadsetCalibration | packages/neural_analytics_core/src/domain/state_machine/state_machine.rs:165-224 | the command succeeds iff the headset was connected and its reading succeeded; the context then holds only the impedances. The gate reads them back, and when the context chose the mock its impedances always pass |
| Driver.MainStateMachine.OnCapturingHeadsetData | packages/neural_analytics_core/src/domain/state_machine/state_machine.rs:239-313 | extraction succeeds iff connected and the reading succeeded; the context then holds the new samples and no impedances. One BulbOn request follows, and the handler moves as the capture step says |
| Driver.MainStateMachine.Tick | packages/neural_analytics_core/src/domain/state_machine/state_machine.rs:56-313 | one dispatch runs the current state's handler and agrees with the step function for what it observed |
| Dispatch.SendEventOutcome | packages/neural_analytics_core/src/utils/mod.rs:14-27 | with no handler, the result is the "BUG: Event handler not set" error; otherwise it is exactly the handler's answer for the same name and data |
| Dispatch.AcceptingSubscriber | packages/neural_analytics_core/src/domain/state_machine/state_machine.rs:325-338 | a subscriber that accepts everything makes every announcement succeed |
| EventHandlers.Announcement | packages/neural_analytics_core/src/domain/events/mod.rs:20-132 | each event is delivered under its own name. Impedances are forwarded only by headset-calibrating; samples and colour only by captured-headset-data |
| EventHandlers.HandleEvent | packages/neural_analytics_core/src/domain/events/mod.rs:20-37 | every handler answers Ok with no commands, forwards nothing without a subscriber, and otherwise delivers its announcement once |
| EventHandlers.AnnouncementCarriesEventData | packages/neural_analytics_core/src/domain/events/mod.rs:27-31 | the captured payload carries the samples and colour unchanged; the calibrating payload carries the impedances; every other payload is empty |
| EventHandlers.HandlerIgnoresSubscriberAnswer | packages/neural_analytics_core/src/domain/events/mod.rs:35 | a handler's result and deliveries do not depend on what the subscriber answers |
| Events.InternalNamesIdentifyKind | packages/neural_analytics_core/src/domain/models/event_internals.rs:9-28 | the three internal event names tell the kinds apart |
| Events.CoreNamesIdentifyKind | packages/neural_analytics_core/src/domain/events/captured_headset_data_event.rs:8 | the six lifecycle event names tell the kinds apart and never clash with an internal name |
| Context.SerializedDecodes | packages/neural_analytics_core/src/domain/context/mod.rs:110-132 | every internal event the use cases return can be decoded by the writer |
| Context.WriteMakesExclusive | packages/neural_analytics_core/src/domain/context/mod.rs:110-132 | after any of the three internal events, samples and impedances are not both held |
| Context.WritesKeepExclusive | packages/neural_analytics_core/src/domain/context/mod.rs:89-133 | any sequence of writes keeps samples and impedances from being held together |
| Context.ImpedanceComesFromCalibration | packages/neural_analytics_core/src/domain/context/mod.rs:110-117 | an impedance map that appears during a run of writes is the one carried by a calibration event of that run |
| Context.UseMockHeadsetCases | packages/neural_analytics_core/src/domain/context/mod.rs:76-79 | the mock is chosen iff the variable is unset or spells "true" in any letter case |
| Context.UseMockHeadsetExamples | packages/neural_analytics_core/src/domain/context/mod.rs:76-87 | "TRUE" and "True" choose the mock; "false", "1" and "" choose the hardware |
| Context.NeuralAnalyticsContext.constructor | packages/neural_analytics_core/src/domain/context/mod.rs:74-101 | a new context holds no data, and its headset is chosen from USE_MOCK_HEADSET |
| Context.NeuralAnalyticsContext.Write | packages/neural_analytics_core/src/domain/context/mod.rs:109-135 | the fields become the writer's function of the old fields and the event: calibration replaces everything with the impedances, generalist and prediction events set their field and clear impedances, other names change nothing. The result is always Ok |
| UseCases.SearchHeadband | packages/neural_analytics_core/src/domain/use_cases/search_headband_use_case.rs:21-58 | Ok with no events iff the headset ends connected; connect is skipped when already connected and called once otherwise. Each error message, and the exact call sequence, per case |
| UseCases.DisconnectHeadband | packages/neural_analytics_core/src/domain/use_cases/disconnect_headband_use_case.rs:6-45 | Ok with no events iff the headset ends disconnected; disconnect is called at most once. Against the mock, a connected headset always ends in the still-connected error |
| UseCases.ExtractCalibrationData | packages/neural_analytics_core/src/domain/use_cases/extract_calibration_use_case.rs:12-56 | refuses when disconnected without touching the mode; otherwise always asks for calibration mode (the mock ends in it; another device only when its switch takes) and returns one event with the reading unchanged, or the prefixed error |
| UseCases.ExtractGeneralistData | packages/neural_analytics_core/src/domain/use_cases/extract_extraction_use_case.rs:25-68 | refuses when disconnected; asks for extraction mode exactly when not already extracting; returns one event with the port's samples unchanged, or the prefixed error |
| UseCases.PredictColorThinking | packages/neural_analytics_core/src/domain/use_cases/predict_color_thinking_use_case.rs:23-63 | without samples it fails without consulting the model; otherwise the model is asked once with the context's samples and its label or error is passed on |
| UseCases.UpdateLightStatus | packages/neural_analytics_core/src/domain/use_cases/update_light_status_use_case.rs:22-56 | one request, BulbOn iff the light is wanted; the bulb's error is returned verbatim, and success yields no events |
| UseCases.ImpedanceLogBands | packages/neural_analytics_core/src/domain/use_cases/extract_calibration_use_case.rs:59-75 | the log line is good iff the reading is 0, acceptable iff it is 1..2, and poor iff it is above 2 |
| HeadsetPort.NewEegData | packages/neural_analytics_core/src/domain/ports/input/eeg_headset.rs:32-39 | exactly the four channels, each at 0.0 |
| HeadsetPort.NewImpedanceData | packages/neural_analytics_core/src/domain/ports/input/eeg_headset.rs:50-57 | exactly the four channels, each at 4000.0 |
| HeadsetPort.NewDeviceData | packages/neural_analytics_core/src/domain/ports/input/eeg_headset.rs:68-74 | the two defaults over the same four channels |
| HeadsetPort.EegHeadset.MockDefault | packages/neural_analytics_core/src/infrastructure/adapters/input/mock_headset.rs:86-93 | a new mock is connected and in calibration mode |
| HeadsetPort.EegHeadset.WithDevice | packages/neural_analytics_core/src/domain/use_cases/extract_extraction_use_case.rs:99-110 | a scripted device starts in the given connection state and mode |
| HeadsetPort.EegHeadset.IsConnected | packages/neural_analytics_core/src/infrastructure/adapters/input/mock_headset.rs:158-161 | answers the connection flag and logs the call |
| HeadsetPort.EegHeadset.Connect | packages/neural_analytics_core/src/infrastructure/adapters/input/mock_headset.rs:147-156 | answers and moves the flag as the adapter does; the mock always succeeds and never moves it |
| HeadsetPort.EegHeadset.Disconnect | packages/neural_analytics_core/src/infrastructure/adapters/input/mock_headset.rs:163-171 | the mock refuses iff not connected and never clears the flag |
| HeadsetPort.EegHeadset.GetWorkMode | packages/neural_analytics_core/src/infrastructure/adapters/input/mock_headset.rs:173-175 | answers the current mode |
| HeadsetPort.EegHeadset.ChangeWorkMode | packages/neural_analytics_core/src/infrastructure/adapters/input/mock_headset.rs:137-145 | the mock always ends in the requested mode. Another device, the BrainFlow adapter among them, ends in it when the switch takes and otherwise keeps its old mode silently. Asking for the current mode keeps it |
| HeadsetPort.EegHeadset.ExtractImpedanceData | packages/neural_analytics_core/src/infrastructure/adapters/input/mock_headset.rs:97-115 | the mock checks the mode, then the connection, and only then refreshes the simulation and answers its impedances |
| HeadsetPort.EegHeadset.ExtractRawData | packages/neural_analytics_core/src/infrastructure/adapters/input/mock_headset.rs:117-135 | the same for extraction mode and the sample buffers |
| HeadsetPort.MockConnectionNeverChanges | packages/neural_analytics_core/src/infrastructure/adapters/input/mock_headset.rs:147-171 | the mock's connect and disconnect never move its flag; connect always succeeds, and disconnect succeeds iff connected |
| HeadsetPort.MockImpedancesInRange | packages/neural_analytics_core/src/infrastructure/adapters/input/mock_headset.rs:69-74 | every impedance the mock reports lies in 1..20 |
| HeadsetPort.MockSamplesInRange | packages/neural_analytics_core/src/infrastructure/adapters/input/mock_headset.rs:56-65 | every sample the mock reports lies in [-100, 100], at most 500 per channel |
| MockHeadset.Rng.GenRange | packages/neural_analytics_core/src/infrastructure/adapters/input/mock_headset.rs:34 | a draw in the half-open range, using one value of the random tape |
| MockHeadset.Rng.GenRangeInt | packages/neural_analytics_core/src/infrastructure/adapters/input/mock_headset.rs:40 | an integer draw in the half-open range |
| MockHeadset.Rng.GenBool | packages/neural_analytics_core/src/infrastructure/adapters/input/mock_headset.rs:69 | a yes-or-no draw that uses one value of the random tape |
| MockHeadset.Bound | packages/neural_analytics_core/src/infrastructure/adapters/input/mock_headset.rs:59 | the result lies in [-100, 100] and equals the input when already inside |
| MockHeadset.BoundImpedance | packages/neural_analytics_core/src/infrastructure/adapters/input/mock_headset.rs:73 | the result lies in 1..20 and equals the input when already inside |
| MockHeadset.Slide | packages/neural_analytics_core/src/infrastructure/adapters/input/mock_headset.rs:62-65 | the new sample is last; the oldest is dropped exactly when 500 are held |
| MockHeadset.SlideKeepsBufferShape | packages/neural_analytics_core/src/infrastructure/adapters/input/mock_headset.rs:56-65 | sliding an in-range sample into a valid buffer keeps it non-empty, within 500 and in range |
| MockHeadset.SimulatedEegData.constructor | packages/neural_analytics_core/src/infrastructure/adapters/input/mock_headset.rs:21-47 | every channel gets 500 in-range samples and an impedance in 1..14 |
| MockHeadset.SimulatedEegData.RefreshData | packages/neural_analytics_core/src/infrastructure/adapters/input/mock_headset.rs:50-76 | every buffer takes one sample drifted by a step in [-5, 5) and kept in range. The impedances either stay or all drift by at most 2 within 1..20 |
| MockHeadset.RefreshBuffer | packages/neural_analytics_core/src/infrastructure/adapters/input/mock_headset.rs:56-65 | one channel's refresh keeps the buffer valid |
| MockHeadset.RefreshedBuffers | packages/neural_analytics_core/src/infrastructure/adapters/input/mock_headset.rs:54-66 | every channel, and only those, is refreshed once |
| MockHeadset.DriftedImpedances | packages/neural_analytics_core/src/infrastructure/adapters/input/mock_headset.rs:69-75 | every channel's impedance drifts by at most 2 and stays in 1..20 |
| SmartBulbPort.SmartBulb.ChangeState | packages/neural_analytics_core/src/domain/ports/output/smart_bulb.rs:14 | the request is logged; on success the bulb shows the state, on failure the adapter's message is returned |
| ModelPort.ModelService.PredictColor | packages/neural_analytics_core/src/domain/services/model_inference_service.rs:10 | the service's answer for the data, with the query logged |
| BrainFlow.CommandsDistinct | packages/neural_analytics_core/src/infrastructure/adapters/input/brainbit_headset.rs:213-228 | the four stream commands are pairwise different |
| BrainFlow.StopCommandMissesStream | packages/neural_analytics_core/src/infrastructure/adapters/input/brainbit_headset.rs:213-228 | as written, the stop command sent when leaving a mode never ends the stream that mode started; leaving extraction ends calibration's stream instead |
| BrainFlow.IntendedStopCommand | packages/neural_analytics_core/src/infrastructure/adapters/input/brainbit_headset.rs:212-228 | the stop command ends the stream the mode's start command began |
| BrainFlow.ResistanceEntry | packages/neural_analytics_core/src/infrastructure/adapters/input/brainbit_headset.rs:120-137 | an existing row becomes its magnitudes in kΩ, element by element; a missing row becomes the one-element placeholder |
| BrainFlow.KiloOhmsMagnitude | packages/neural_analytics_core/src/infrastructure/adapters/input/brainbit_headset.rs:122-127 | the converted value is non-negative and is the magnitude divided by 1000 |
| BrainFlow.BoardShim.ConfigBoard | packages/neural_analytics_core/src/infrastructure/adapters/input/brainbit_headset.rs:67 | the command is logged and answered by the board's response or its failure |
| BrainFlow.BrainFlowAdapter.constructor | packages/neural_analytics_core/src/infrastructure/adapters/input/brainbit_headset.rs:52-61 | the adapter starts in calibration mode after sending the resistance start command |
| BrainFlow.BrainFlowAdapter.SendBoardCommand | packages/neural_analytics_core/src/infrastructure/adapters/input/brainbit_headset.rs:65-78 | the board's response, or an error naming the command |
| BrainFlow.BrainFlowAdapter.ChangeWorkMode | packages/neural_analytics_core/src/infrastructure/adapters/input/brainbit_headset.rs:200-243 | corrected (see Findings): same mode, no command. Otherwise the stop of the current mode's own stream is sent first, and no start follows a failed stop. The mode changes iff the start succeeds |
| BrainFlow.BrainFlowAdapter.ExtractImpedanceData | packages/neural_analytics_core/src/infrastructure/adapters/input/brainbit_headset.rs:83-141 | calibration mode is required; a failed or row-less reading is an error; otherwise every electrode gets its converted row or the placeholder |
| BrainFlow.BrainFlowAdapter.ExtractRawData | packages/neural_analytics_core/src/infrastructure/adapters/input/brainbit_headset.rs:143-198 | extraction mode is required; no rows gives an empty map; channels whose row is missing are left out |
| Inference.FirstMissing | packages/neural_analytics_core/src/domain/services/model_inference_service.rs:108-116 | no channel is reported iff all are present; otherwise the first absent channel in T3, T4, O1, O2 order |
| Inference.FirstEmpty | packages/neural_analytics_core/src/domain/services/model_inference_service.rs:123-128 | the first present channel with no data, in channel order |
| Inference.Fit | packages/neural_analytics_core/src/domain/services/model_inference_service.rs:147-155 | exactly 62 values: the first 62 kept, a shorter channel padded with its last value |
| Inference.InterleavedIndex | packages/neural_analytics_core/src/domain/services/model_inference_service.rs:171-175 | 4·n values, and value 4·i+j is sample i of channel j |
| Inference.FittedChannels | packages/neural_analytics_core/src/domain/services/model_inference_service.rs:131-159 | four channels, each the normalised channel fitted to 62 values |
| Inference.PreprocessedShape | packages/neural_analytics_core/src/domain/services/model_inference_service.rs:106-186 | preprocessing succeeds iff every channel is present and non-empty, and then yields 248 time-major values of the fitted channels |
| Inference.PreprocessedErrors | packages/neural_analytics_core/src/domain/services/model_inference_service.rs:109-128 | the missing-channel error names the first absent channel; with all present, the empty-channel error names the first empty one |
| Inference.FindMissing | packages/neural_analytics_core/src/domain/services/model_inference_service.rs:109-116 | the loop finds the first missing channel |
| Inference.FitChannels | packages/neural_analytics_core/src/domain/services/model_inference_service.rs:123-159 | the loop fails on the first empty channel, or returns the four normalised, fitted channels |
| Inference.Interleave | packages/neural_analytics_core/src/domain/services/model_inference_service.rs:163-175 | the loop produces the time-major interleaving |
| Inference.PreprocessData | packages/neural_analytics_core/src/domain/services/model_inference_service.rs:106-186 | the method agrees with the preprocessing specification |
| Inference.FirstArgMax | packages/neural_analytics_core/src/domain/services/model_inference_service.rs:275-283 | an index of a maximum, and the first one |
| Inference.FirstArgMaxUnique | packages/neural_analytics_core/src/domain/services/model_inference_service.rs:275-283 | the first maximum is the only index with both properties |
| Inference.ArgMaxKeptByOrderPreserving | packages/neural_analytics_core/src/domain/services/model_inference_service.rs:247-283 | an order-preserving transformation such as softmax keeps the first maximum |
| Inference.ArgMax | packages/neural_analytics_core/src/domain/services/model_inference_service.rs:275-283 | the strict-greater scan returns the first index of the maximum |
| Inference.PredictColor | packages/neural_analytics_core/src/domain/services/model_inference_service.rs:190-292 | corrected (see Findings): the method agrees with the corrected prediction |
| Inference.NotLoadedFailsFirst | packages/neural_analytics_core/src/domain/services/model_inference_service.rs:192-195 | without a network the answer is the not-loaded error, whatever the data |
| Inference.PredictionFollowsArgMax | packages/neural_analytics_core/src/domain/services/model_inference_service.rs:267-291 | the label is the colour of the first largest raw output when that index is below 3, and the out-of-range error naming it otherwise; no threshold applies |
| Inference.PredictionIsAColor | packages/neural_analytics_core/src/domain/services/model_inference_service.rs:268-291 | every successful prediction is red, green or trash |
| Inference.EmptyOutputPanics | packages/neural_analytics_core/src/domain/services/model_inference_service.rs:245-272 | as written, an empty first output panics; corrected, it reports no probabilities |
| Inference.AsWrittenAgreesOtherwise | packages/neural_analytics_core/src/domain/services/model_inference_service.rs:190-292 | apart from that panic, the written and corrected predictions agree |
| WorkModes.FromStringToString | packages/neural_analytics_core/src/domain/models/eeg_work_modes.rs:8-21 | parsing a mode's name gives back the mode |
| WorkModes.FromStringAcceptsOnlyNames | packages/neural_analytics_core/src/domain/models/eeg_work_modes.rs:15-21 | only the two exact names parse, each back to the name it came from |
| WorkModes.ToStringInjective | packages/neural_analytics_core/src/domain/models/eeg_work_modes.rs:8-13 | different modes have different names |
| LightStatusErrors.DisplayShape | packages/neural_analytics_core/src/domain/errors/light_status_error.rs:7-14 | each text is its kind's prefix followed by the detail |
| LightStatusErrors.DisplayInjective | packages/neural_analytics_core/src/domain/errors/light_status_error.rs:10-11 | the text determines the error's kind and its detail |
| ImpedanceStatus.LevelBands | packages/neural_analytics_data/src/utils/helpers.py:30-41 | each reading gets exactly one level in 1..5, each band in both directions: below 200 is 5, then 1, 2, 3 up to 2000, and 4 above |
| ImpedanceStatus.LevelMonotone | packages/neural_analytics_data/src/utils/helpers.py:34-41 | from 200 up, a higher reading never gets a better level |
| ImpedanceStatus.CopiesAgreeOnLevels | packages/neural_analytics_data/utils/helpers.py:16-27 | the English and Spanish copies classify every reading alike |
| ImpedanceStatus.ColorAgreesWithSymbol | packages/neural_analytics_data/src/utils/helpers.py:43-65 | a level is shown red exactly when its symbol is the cross, which is every level outside 1..3 |
| ImpedanceStatus.CriticalReadingsShowRed | packages/neural_analytics_data/src/utils/helpers.py:30-65 | a reading is shown red with a cross iff it is below 200 or at least 2000 |
| Resistance.OhmToKohm | packages/neural_analytics_data/processing/impedance.py:17 | multiplying the result by 1000 gives back the input |
| Resistance.OhmToKohmOrder | packages/neural_analytics_data/processing/impedance.py:17 | the conversion is strictly monotone and preserves sign and zero |
| Resistance.SameRowsAsAdapter | packages/neural_analytics_data/src/hardware/brainbit.py:45 | the tool reads each electrode's resistance from the same row the Rust adapter uses |
| Resistance.Plausible | packages/neural_analytics_data/src/hardware/brainbit.py:54 | only readings strictly between 1 and 5000 kΩ are kept |
| Resistance.SumBounds | packages/neural_analytics_data/src/hardware/brainbit.py:57 | a sum of readings inside bounds is inside the scaled bounds |
| Resistance.MeanIsPlausible | packages/neural_analytics_data/src/hardware/brainbit.py:54-57 | the mean of plausible readings is plausible |
| Resistance.ElectrodeValue | packages/neural_analytics_data/src/hardware/brainbit.py:46-61 | an electrode's value is the 3000 default or strictly inside (1, 5000) |
| Resistance.GetResistanceValues | packages/neural_analytics_data/src/hardware/brainbit.py:33-68 | keys are exactly the electrodes. A failure gives 3300 everywhere and no data 3000 everywhere; an unknown electrode gives 3300 everywhere; otherwise each value is the electrode's plausible mean or 3000 |
| CaptureController.StartFor | packages/neural_analytics_data/src/controllers/main_controller.py:111-116 | at most one start command |
| CaptureController.StopFor | packages/neural_analytics_data/src/controllers/main_controller.py:105-108 | at most one stop command |
| CaptureController.StopUndoesStart | packages/neural_analytics_data/src/controllers/main_controller.py:104-116 | each known mode is left with the command that ends the stream it began: the Rust adapter's corrected stop command for the matching mode |
| CaptureController.SaveChunks | packages/neural_analytics_data/src/controllers/main_controller.py:292-320 | the files are 100-row blocks that together with the remainder rebuild the buffer, and each adds one to the counter. Afterwards fewer than 100 rows remain or the counter has reached the target, which it never passes |
| CaptureController.CountdownSeconds | packages/neural_analytics_data/src/controllers/main_controller.py:377 | the countdown is never negative |
| CaptureController.CountdownProperties | packages/neural_analytics_data/src/controllers/main_controller.py:376-377 | it starts at 30 and never grows as time passes |
| CaptureController.CountdownOver | packages/neural_analytics_data/src/controllers/main_controller.py:377-383 | it reaches 0 iff 30 seconds have elapsed |
| CaptureController.ErrorRule | packages/neural_analytics_data/src/controllers/main_controller.py:342 | an error is tolerated only when it is not fatal and something was captured |
| CaptureController.NeuralCaptureController.constructor | packages/neural_analytics_data/src/controllers/main_controller.py:42-74 | setup state, no device mode, nothing captured, full countdown |
| CaptureController.NeuralCaptureController.SetDeviceMode | packages/neural_analytics_data/src/controllers/main_controller.py:89-123 | no board: false. Same mode: true with no commands. Otherwise the current mode's stop precedes the new start, a rejected command gives false, and the mode is recorded only after its start |
| CaptureController.NeuralCaptureController.HandleViewEvent | packages/neural_analytics_data/src/controllers/main_controller.py:420-450 | next iff enter on the setup screen with good impedances, which starts the countdown; cancel iff escape, which sets the cancel flag; otherwise nothing changes |
| CaptureController.NeuralCaptureController.CountdownTick | packages/neural_analytics_data/src/controllers/main_controller.py:364-390 | outside the countdown nothing changes; within it, the seconds left are updated and capture starts exactly when they reach 0 |
| CaptureController.NeuralCaptureController.CaptureStep | packages/neural_analytics_data/src/controllers/main_controller.py:284-350 | a failed read ends the capture with the error message iff the error rule says so. A good read is buffered and cut into files, and the capture completes exactly when enough files exist. No row is lost or reordered |
| CaptureController.NeuralCaptureController.Store | packages/neural_analytics_data/src/controllers/main_controller.py:284-320 | the rows are appended, earlier files are kept, and the message counts the new files |
| TrainingPreprocessor.ClassLabel | packages/neural_analytics_model/src/preprocessors/neural_analytics.py:31-44 | red if the lower-cased path mentions red; else green if it mentions green; else trash if it mentions trash; else unknown |
| TrainingPreprocessor.ClassLabelIgnoresCase | packages/neural_analytics_model/src/preprocessors/neural_analytics.py:36 | the letter case of the path does not change its label |
| TrainingPreprocessor.OneHotDecodes | packages/neural_analytics_model/src/preprocessors/neural_analytics.py:54-58 | each known label's vector has three entries with a single 1 at the label's index, so the inference argmax and label lookup read it back as that label |
| TrainingPreprocessor.OneHotInjective | packages/neural_analytics_model/src/preprocessors/neural_analytics.py:54-58 | different known labels get different vectors |
| TrainingPreprocessor.OneHot | packages/neural_analytics_model/src/preprocessors/neural_analytics.py:59 | an unknown label gets the two-element zero vector |
| TrainingPreprocessor.HasFeaturesMeansColumns | packages/neural_analytics_model/src/preprocessors/neural_analytics.py:102 | a row has the features iff it has each of the four columns |
| TrainingPreprocessor.Features | packages/neural_analytics_model/src/preprocessors/neural_analytics.py:73 | the four feature values, in column order |
| TrainingPreprocessor.Project | packages/neural_analytics_model/src/preprocessors/neural_analytics.py:99 | a row survives iff none of its four features is missing |
| TrainingPreprocessor.KeptSources | packages/neural_analytics_model/src/preprocessors/neural_analytics.py:99 | every kept row is a complete input row, carrying its original index |
| TrainingPreprocessor.KeptOrdered | packages/neural_analytics_model/src/preprocessors/neural_analytics.py:99 | kept rows stay in their original order |
| TrainingPreprocessor.KeptComplete | packages/neural_analytics_model/src/preprocessors/neural_analytics.py:99 | every complete input row is kept |
| TrainingPreprocessor.FilteredRows | packages/neural_analytics_model/src/preprocessors/neural_analytics.py:99-102 | the kept rows are exactly the complete rows, in order, each with its original index |
| TrainingPreprocessor.WindowCount | packages/neural_analytics_model/src/preprocessors/neural_analytics.py:72 | n rows give n − size + 1 windows when size ≤ n, and none otherwise |
| TrainingPreprocessor.SlidingWindows | packages/neural_analytics_model/src/preprocessors/neural_analytics.py:61-84 | corrected (see Findings): an empty frame fails in the scaler. Otherwise there is one window per start position, and window i is rows i..i+size−1, by position, of the min-max scaled frame, with the label's encoding |
| TrainingPreprocessor.MissingColumns | packages/neural_analytics_model/src/preprocessors/neural_analytics.py:102 | exactly the feature columns the file lacks |
| TrainingPreprocessor.Preprocess | packages/neural_analytics_model/src/preprocessors/neural_analytics.py:86-111 | corrected (see Findings): a missing feature column fails, naming the missing ones. Otherwise it fails iff no complete row survives the drop, and else gives the windows of the scaled complete rows, labelled by the path |
| TrainingPreprocessor.ColumnMin | packages/neural_analytics_model/src/preprocessors/neural_analytics.py:21-29 | a value of the column that no row of the frame undercuts |
| TrainingPreprocessor.ColumnMax | packages/neural_analytics_model/src/preprocessors/neural_analytics.py:21-29 | a value of the column that no row of the frame exceeds |
| TrainingPreprocessor.MinMaxScale | packages/neural_analytics_model/src/preprocessors/neural_analytics.py:25-27 | a value between the column's bounds maps into [0, 1]; the minimum maps to 0, and the maximum to 1 unless the column is constant |
| TrainingPreprocessor.MinMaxScaleMonotone | packages/neural_analytics_model/src/preprocessors/neural_analytics.py:25-27 | scaling keeps the order of two values of a column |
| TrainingPreprocessor.MinMaxScaled | packages/neural_analytics_model/src/preprocessors/neural_analytics.py:21-29 | the scaled frame has the same rows, with the same row numbers and four features each |
| TrainingPreprocessor.MinMaxScaledRange | packages/neural_analytics_model/src/preprocessors/neural_analytics.py:21-29 | after scaling, every feature lies in [0, 1] and each column keeps its order. Each column reaches 0, and a non-constant column also reaches 1 |
| TrainingPreprocessor.WindowsAsWritten | packages/neural_analytics_model/src/preprocessors/neural_analytics.py:72-73 | as many windows as the intended slicing |
| TrainingPreprocessor.AsWrittenAgreesWithoutDrops | packages/neural_analytics_model/src/preprocessors/neural_analytics.py:72-75 | when no row was dropped, label-based slicing gives the intended windows |
| TrainingPreprocessor.SelectContiguous | packages/neural_analytics_model/src/preprocessors/neural_analytics.py:73 | on consecutively numbered rows, a label slice is exactly the positional slice |
| TrainingPreprocessor.DroppedRowShortensWindow | packages/neural_analytics_model/src/preprocessors/neural_analytics.py:72-73 | after a dropped row (line 99 keeps the original labels), a label-based window holds fewer rows than the window size |
| Text.NatToStringValue | packages/neural_analytics_core/src/domain/services/model_inference_service.rs:287 | the decimal text of an index reads back as the index |

## Left out

- Global state and the tick loop are not modelled, because they only run and share the machine across threads. These are the `static mut` machine and subscriber of `lib.rs`, the `tokio` loop, the singletons with their `OnceCell` getters and lock guards, and the dependency-injection container. The model has one machine whose fields are the context, ports and subscriber.
- The presage command bus and statig runtime are represented by method calls and the `Lifecycle` table. A command failure is what the use case returns. Bus errors are message strings.
- Logging (`log`, `println!`, `print`) and the log-only helpers `process_eeg_data` and the log loop of `process_impedance_data` are not modelled; their band rule is kept as `UseCases.ImpedanceLogStatus`.
- Floating point is modelled as exact reals:
  - f32 and f64 rounding;
  - NaN, which becomes a `NaN` sample constructor;
  - z-score normalisation and softmax, which are function parameters whose length and order preservation are assumed where a lemma needs them;
  - numpy's mean;
  - the `MinMaxScaler` of the preprocessor. It is computed exactly, so only a column whose range is exactly zero is divided by 1; scikit-learn also treats a range below ten machine epsilons as zero.
- ONNX model loading and inference via tract are not modelled. The network is a function parameter, and a loaded or missing network is an `Option`. The tensor conversion errors are not modelled.
- Inference.PredictColor: does not model the tensor construction and conversion errors at model_inference_service.rs:222-242, which cannot fire for a well-shaped input.
- Hardware and network I/O are not modelled. This covers:
  - the BoardShim factory, its session preparation and `Drop`;
  - `configure_board`, `initialize_hardware` and `cleanup_hardware`;
  - the Tapo bulb client;
  - the shell sound player.

  A board is a class that answers commands from a set of failing ones and data from a function.
- BrainFlow.BoardShim.GetBoardData: a reading is a function of the requested count, so the buffer consumption of repeated reads is not modelled.
- The UI, threads, sleeps and clock reads are not modelled: the views, the GUI, keyboard handling, `run`, the worker loops, and the 4000 defaults of the data-update thread. Elapsed time is a parameter of `CountdownTick`.
- The capture tool's CSV writing, directory creation and file naming are not modelled. A saved file is the block of rows it would hold. An exception from a write in the middle of the loop is not modelled.
- CaptureController.NeuralCaptureController.CaptureStep: takes the rows already narrowed to the timestamp and electrode columns, since the `np.take` selection is a library call. The per-iteration copies of the counter into `state_info` are summarised by the message field.
- CaptureController.StartFor and CaptureController.StopFor: their own contracts only bound the number of commands; what the commands are is stated by `StopUndoesStart` and `SetDeviceMode`.
- The training preprocessor's CSV reading is not modelled; a file is a table of optional values. Its `KeyError` text is replaced by the list of missing columns. A window size is a natural number, so negative sizes are not modelled.
- Text.Lower folds only ASCII letters. It stands for Rust's `to_lowercase` in the `USE_MOCK_HEADSET` test (context/mod.rs:76-79) and for Python's `lower()` in the training preprocessor. For the comparison with "true" the ASCII folding is exact: a non-ASCII letter never lowers to an ASCII one in "true". The Unicode lower-casing of other letters in training paths is not modelled.
- The training pipeline is not modelled: the trainer, evaluation, export, dataset and network definition files. Nor are the placeholder hardware-initialisation use case, the `convert_to_uv` identity placeholders, or the settings files beyond the constants used.
- The compile-level type mismatches noted above are not modelled; the evident intent is.

## Findings

| source | as written | input that shows it | evidently intended | confidence | as-written member | corrected member |
|---|---|---|---|---|---|---|
| packages/neural_analytics_core/src/domain/services/model_inference_service.rs:248 | the softmax reads the first output value before the emptiness check at line 270, so that check never sees an empty output | a network whose first output tensor is empty, for any four non-empty channels | report "No probabilities obtained from the model" | not executed | Inference.EmptyOutputPanics | Inference.PredictColor |
| packages/neural_analytics_core/src/infrastructure/adapters/input/brainbit_headset.rs:213-216 | leaving calibration sends "CommandStopSignal" and leaving extraction sends "CommandStopResist", while calibration started "CommandStartResist" and extraction "CommandStartSignal" | switching from calibration to extraction | stop the stream the current mode started, as the comment at line 212 and the capture tool's set_device_mode do | not executed | BrainFlow.StopCommandMissesStream | BrainFlow.BrainFlowAdapter.ChangeWorkMode |
| packages/neural_analytics_model/src/preprocessors/neural_analytics.py:73 | windows are sliced by label with `df.loc` after `dropna` kept the original labels, so a gap in the labels shortens the windows across it | three rows with T3 missing in the middle one, window size 2 | each window holds `window_size` consecutive kept rows | not executed | TrainingPreprocessor.DroppedRowShortensWindow | TrainingPreprocessor.SlidingWindows |
