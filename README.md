# Autonomous-Drone: a verified model of the flight and tuning core

This project models the decision logic of the Autonomous-Drone backend in
Dafny and proves properties of it. The backend flies a DJI Tello drone that
searches for a face and follows it. It covers five parts:

- **Drone controller** (`drone_backend/src/tello/controller.py`):
  - the single-axis PID controller;
  - the `TelloController` state machine over its connection, flight and
    stream flags, its tracking time stamp and its three PID controllers;
  - the safety gate, the clamping of every movement and rotation, takeoff
    and landing, the emergency landing, and the cooldown and dead zone of
    `track_target`.

  The djitellopy `Tello` object is an environment value (`Drone.Tello`). It
  holds:
  - fixed telemetry readings, where `None` stands for a getter that raises;
  - the set of commands that raise;
  - the log of every command sent, in order.

  Module `ControllerSpec` states every operation as a function from the old
  state to the new state and the returned boolean. Class
  `Controller.TelloController` updates its fields in place, and each of its
  methods is proved to equal the matching function.
- **Flight sequencing** (`drone_backend/src/tello/flight_logic.py`):
  - the TAKEOFF → SEARCHING → TRACKING phases;
  - the bounded 30° search loop;
  - the landings that end a failed flight.

  The camera and face detector are a list of observations, one per loop
  iteration, and that list ends where the 60 s timeout would end the loop.
  The tracking phase is reduced to whether it raises. `FlightSpec` holds the
  functions and `FlightLogic.FlightLogic` is the class proved against them.
- **Threshold tuner** (`drone_backend/src/utils/llm_helper.py`):
  - the validated pair of head-size thresholds and every operation an LLM
    answer can request;
  - the dispatch loop over a list of actions;
  - the module-level guards on `parameter_tuner`.

  `TunerSpec` holds the functions. `Tuner` holds the classes that rewrite a
  detector's thresholds in place.
- **Grid classifier and crop arithmetic** (`drone_backend/src/cv/head_detection.py`):
  `drone_directions` returns the direction it prints. Around it sit the
  integer geometry of the square crop and the head centre.
- **Transcription filter** (`drone_backend/src/llm/stt.py`): the checks that
  `transcribe_audio` applies to a recording and its transcription.

Python floats are modelled as `real` (exact arithmetic). Clock readings are
parameters (`now`).

## Model

| member | source | states |
|---|---|---|
| Pid.RunAccumulates | drone_backend/src/tello/controller.py:31-36 | after any sequence of calls the integral is its start plus dt times the sum of the errors, never clamped; the previous error is the last error fed in |
| Pid.ConstantErrorWindsUp | drone_backend/src/tello/controller.py:31-33 | n calls with the same error after a reset leave n*error*dt in the integral (no anti-windup) |
| Pid.FreshStepIsProportional | drone_backend/src/tello/controller.py:31-36 | from reset accumulators one call outputs (kp + ki*dt + kd/dt) times the error |
| Pid.SteadyErrorHasNoDerivative | drone_backend/src/tello/controller.py:33-34 | when the error equals the previous error the output is the P and I terms alone |
| Pid.PidController.constructor | drone_backend/src/tello/controller.py:24-29 | the gains are those given and both accumulators start at zero |
| Pid.PidController.Calculate | drone_backend/src/tello/controller.py:31-37 | the integral grows by error*dt, the error becomes the previous error, and the output is kp*error + ki*(new integral) + kd*(error − old previous error)/dt |
| Pid.PidController.Reset | drone_backend/src/tello/controller.py:39-42 | both accumulators are zero again and the gains are kept |
| ControllerSpec.StepSize | drone_backend/src/tello/controller.py:322-323 | a tracking step is |control|*scale truncated to whole centimetres when that lies in [20, 50], 20 at or below 20 and 50 at or above 50 |
| ControllerSpec.GetFrame | drone_backend/src/tello/controller.py:511-519 | no frame unless the controller is connected and streaming; then exactly the camera's frame |
| ControllerSpec.Connect | drone_backend/src/tello/controller.py:88-111 | a drone handle is created and the connect command sent; connection succeeds exactly when neither connect nor the battery and temperature readings raise; `stop_thread` is cleared only on success; nothing else changes |
| ControllerSpec.Land | drone_backend/src/tello/controller.py:189-206 | refused with no command when not connected; otherwise exactly one land command; success iff connected and land does not raise; the flying flag is cleared exactly on success |
| ControllerSpec.CheckSafety | drone_backend/src/tello/controller.py:150-170 | passes iff connected with no critical battery (reading truthy and under 10) and no truthy height over the maximum; a passing check changes nothing; a critical battery sends exactly one land; a low battery only warns |
| ControllerSpec.FlyingAndSafe | drone_backend/src/tello/controller.py:217 | the shared guard passes iff flying and safe, changes nothing when it passes, and otherwise sends at most a safety landing |
| ControllerSpec.Takeoff | drone_backend/src/tello/controller.py:172-187 | succeeds iff the safety check passes and neither takeoff nor the 80 cm climb raises; then the flag is set and exactly those two commands were sent |
| ControllerSpec.ExecuteMovement | drone_backend/src/tello/controller.py:208-252 | when not flying nothing is sent; when flying and safe exactly one move with the distance clamped to [20, 500]; success iff that move does not raise |
| ControllerSpec.Rotate | drone_backend/src/tello/controller.py:254-280 | when not flying nothing is sent; when flying and safe exactly one rotation clamped to [1, 360]; otherwise at most a safety landing; True iff flying, safe and the clamped rotation does not raise |
| ControllerSpec.Flip | drone_backend/src/tello/controller.py:352-368 | when not flying nothing is sent; when flying and safe exactly one flip; success iff it does not raise |
| ControllerSpec.SendRc | drone_backend/src/tello/controller.py:370-393 | when not flying nothing is sent; when flying and safe exactly one RC command with the four values unchanged |
| ControllerSpec.AxisMove | drone_backend/src/tello/controller.py:326-336 | one lateral axis sends nothing iff its error is at most 0.1 in size; otherwise one move of 20 to 50 cm, toward right/up iff the control output is positive |
| ControllerSpec.DepthStep | drone_backend/src/tello/controller.py:339-348 | with no target size or one within 0.1 of 0.3 the z controller and the commands are untouched; otherwise the z controller takes one step and one 20 to 50 cm move is sent, forward iff the z output is negative, else back |
| ControllerSpec.TrackCommands | drone_backend/src/tello/controller.py:322-348 | an accepted call sends at most three commands, each a move of 20 to 50 cm |
| ControllerSpec.LateralMove | drone_backend/src/tello/controller.py:326-336 | inside the dead zone nothing changes; flying and safe, exactly the axis command is sent and nothing else changes |
| ControllerSpec.DepthMove | drone_backend/src/tello/controller.py:339-348 | the z controller becomes that of the depth step; flying and safe, exactly the depth command is sent and nothing else changes |
| ControllerSpec.TrackTarget | drone_backend/src/tello/controller.py:282-350 | not flying, or flying, safe and within the 0.5 s cooldown: False and nothing changes; past the cooldown the time stamp is set and both lateral PIDs advance even inside the dead zone, which returns False with no command; True iff flying, safe, past the cooldown and outside the dead zone, and then exactly the tracking commands of the two errors and the size are sent, and only the time stamp, the three PID states and the log change (flying, start time and total flight time are kept) |
| ControllerSpec.TrackAccepted | drone_backend/src/tello/controller.py:305-350 | past the guards: time stamp and both lateral PIDs advance; True iff outside the dead zone; inside it the log and the z controller are unchanged |
| ControllerSpec.StepLateral | drone_backend/src/tello/controller.py:305-313 | the time stamp becomes now and the X and Y accumulators advance by one sample of their errors; nothing else changes |
| ControllerSpec.TrackAcceptedSends | drone_backend/src/tello/controller.py:305-350 | from a flying, safe state an accepted call that returns True sends exactly the tracking commands, advances the z controller by the depth step and stays in the air; the whole new state is stated, with every other field unchanged |
| ControllerSpec.TrackAcceptedStepsOnly | drone_backend/src/tello/controller.py:322-348 | everything such a call sends is a move of 20 to 50 cm |
| ControllerSpec.BoundaryErrorsReportTrueWithoutMoves | drone_backend/src/tello/controller.py:315-336 | with both errors exactly 0.1 in size and no target size the call returns True although it sends nothing, contrary to its docstring |
| ControllerSpec.FreshLateralStepFollowsError | drone_backend/src/tello/controller.py:72-73 | from reset lateral controllers an error beyond 0.1 moves toward the target (right or up for a positive error) |
| ControllerSpec.FreshDepthStepApproachesTarget | drone_backend/src/tello/controller.py:74 | from a reset z controller a face larger than 0.4 of the frame moves back and one smaller than 0.2 moves forward |
| ControllerSpec.TrackMoves | drone_backend/src/tello/controller.py:322-348 | the movement part leaves the time stamp and lateral PIDs alone and sets the z controller to the depth step |
| ControllerSpec.TrackMovesSends | drone_backend/src/tello/controller.py:322-348 | from a flying, safe state it sends exactly the right/left, up/down and forward/back commands of the three axes, in that order, and changes nothing but the z controller and the log |
| ControllerSpec.EmergencyStop | drone_backend/src/tello/controller.py:449-457 | with no drone handle nothing happens; otherwise exactly one emergency command, clearing the flying flag unless it raises |
| ControllerSpec.Descend | drone_backend/src/tello/controller.py:472-474 | n iterations of the descent loop add exactly n descent commands when flying and safe |
| ControllerSpec.EmergencyLand | drone_backend/src/tello/controller.py:459-483 | not flying: False and nothing sent; otherwise True, and when safe exactly one hover, fifteen descents and a land; whenever connected the last command is a land |
| ControllerSpec.StreamOn | drone_backend/src/tello/controller.py:485-496 | refused when not connected; otherwise one streamon; the stream flag is set exactly on success and nothing else changes |
| ControllerSpec.StreamOff | drone_backend/src/tello/controller.py:498-509 | refused when not connected; otherwise one streamoff; the stream flag is cleared exactly on success |
| ControllerSpec.Disconnect | drone_backend/src/tello/controller.py:113-128 | always ends disconnected with the thread told to stop; lands first if flying and stops the stream if streaming, the flags stay set where those commands raise, the flight time grows only on a landing, and nothing else changes |
| ControllerSpec.ResetTracking | drone_backend/src/tello/controller.py:540-544 | all three PID controllers are zero and nothing else changes |
| Controller.TelloController.constructor | drone_backend/src/tello/controller.py:48-86 | the initial state: not connected, flying or streaming, zero time stamp, zeroed PIDs with the source's gains |
| Controller.TelloController.Send | drone_backend/src/tello/controller.py:88-111 | one call into the drone: logged, and failing iff it raises |
| Controller.TelloController.Connect | drone_backend/src/tello/controller.py:88-111 | the new state and result are those of `ControllerSpec.Connect` |
| Controller.TelloController.Land | drone_backend/src/tello/controller.py:189-206 | the new state and result are those of `ControllerSpec.Land` |
| Controller.TelloController.CheckSafety | drone_backend/src/tello/controller.py:150-170 | the new state and result are those of `ControllerSpec.CheckSafety` |
| Controller.TelloController.Takeoff | drone_backend/src/tello/controller.py:172-187 | the new state and result are those of `ControllerSpec.Takeoff` |
| Controller.TelloController.ExecuteMovement | drone_backend/src/tello/controller.py:208-228 | the new state and result are those of `ControllerSpec.ExecuteMovement` |
| Controller.TelloController.MoveUp | drone_backend/src/tello/controller.py:230-232 | `ExecuteMovement` upwards |
| Controller.TelloController.MoveDown | drone_backend/src/tello/controller.py:234-236 | `ExecuteMovement` downwards |
| Controller.TelloController.MoveLeft | drone_backend/src/tello/controller.py:238-240 | `ExecuteMovement` to the left |
| Controller.TelloController.MoveRight | drone_backend/src/tello/controller.py:242-244 | `ExecuteMovement` to the right |
| Controller.TelloController.MoveForward | drone_backend/src/tello/controller.py:246-248 | `ExecuteMovement` forwards |
| Controller.TelloController.MoveBack | drone_backend/src/tello/controller.py:250-252 | `ExecuteMovement` backwards |
| Controller.TelloController.RotateClockwise | drone_backend/src/tello/controller.py:254-266 | `ControllerSpec.Rotate` clockwise |
| Controller.TelloController.RotateCounterClockwise | drone_backend/src/tello/controller.py:268-280 | `ControllerSpec.Rotate` counter-clockwise |
| Controller.TelloController.Flip | drone_backend/src/tello/controller.py:352-368 | the new state and result are those of `ControllerSpec.Flip` |
| Controller.TelloController.SendRcControl | drone_backend/src/tello/controller.py:370-389 | the new state and result are those of `ControllerSpec.SendRc` |
| Controller.TelloController.Hover | drone_backend/src/tello/controller.py:391-393 | `SendRc` with four zeros |
| Controller.TelloController.TrackTarget | drone_backend/src/tello/controller.py:282-350 | the new state, including the three PID objects, and the result are those of `ControllerSpec.TrackTarget` |
| Controller.TelloController.TrackAccepted | drone_backend/src/tello/controller.py:305-350 | the new state and result are those of `ControllerSpec.TrackAccepted` |
| Controller.TelloController.StepLateral | drone_backend/src/tello/controller.py:305-313 | the new state is that of `ControllerSpec.StepLateral`, and the outputs of the two `calculate` calls are returned |
| Controller.TelloController.SendTrackMoves | drone_backend/src/tello/controller.py:322-348 | the new state is that of `ControllerSpec.TrackMoves` |
| Controller.TelloController.SendDepthMove | drone_backend/src/tello/controller.py:339-348 | the new state is that of `ControllerSpec.DepthMove` |
| Controller.TelloController.EmergencyStop | drone_backend/src/tello/controller.py:449-457 | the new state is that of `ControllerSpec.EmergencyStop` |
| Controller.TelloController.EmergencyLand | drone_backend/src/tello/controller.py:459-483 | the 15-iteration loop yields the state and result of `ControllerSpec.EmergencyLand` |
| Controller.TelloController.StreamOn | drone_backend/src/tello/controller.py:485-496 | the new state and result are those of `ControllerSpec.StreamOn` |
| Controller.TelloController.StreamOff | drone_backend/src/tello/controller.py:498-509 | the new state and result are those of `ControllerSpec.StreamOff` |
| Controller.TelloController.Disconnect | drone_backend/src/tello/controller.py:113-128 | the new state is that of `ControllerSpec.Disconnect` |
| Controller.TelloController.ResetTracking | drone_backend/src/tello/controller.py:540-544 | the new state is that of `ControllerSpec.ResetTracking` |
| FlightSpec.RotationsAppend | drone_backend/src/tello/flight_logic.py:94 | the number of rotation commands in a log adds up over concatenation |
| FlightSpec.SearchLoopTurnsAtMostFullCircle | drone_backend/src/tello/flight_logic.py:79-96 | the search sends only 30° clockwise turns (and safety landings) and never turns past 360° in total |
| FlightSpec.TrailCompose | drone_backend/src/tello/flight_logic.py:82-95 | one loop iteration followed by the rest of the loop stays within the turning budget |
| FlightSpec.SearchTurn | drone_backend/src/tello/flight_logic.py:94 | one search turn sends nothing, a safety landing or one 30° clockwise turn |
| FlightSpec.BlindSearchSendsNothing | drone_backend/src/tello/flight_logic.py:82-85 | when no frame is ever available the search sends nothing and ends only by the timeout |
| FlightSpec.SearchLoopKeepsLandedOrFlying | drone_backend/src/tello/flight_logic.py:82-96 | a connected drone that is flying or has just been told to land stays so through the search |
| FlightSpec.SearchThenLandEndsWithLanding | drone_backend/src/tello/flight_logic.py:82-100 | a search followed by an emergency landing, from a connected drone that is flying or has just been told to land, ends on a land command |
| FlightSpec.SearchForFace | drone_backend/src/tello/flight_logic.py:75-100 | the outcome is the search loop's; a detection sets `face_found`; a found face or a raise keeps the loop's state; an exhausted search ends with `emergency_land`, whose last command is a land |
| FlightSpec.ConnectAndTakeoff | drone_backend/src/tello/flight_logic.py:54-73 | connect, stream on, takeoff in that order; the first failure stops with only the commands before it sent; success iff all three succeed, and then the drone is connected, streaming and flying |
| FlightSpec.StartFlightSequence | drone_backend/src/tello/flight_logic.py:24-52 | a failed takeoff returns False with phase TAKEOFF and no search; success only in phase TRACKING with a face found |
| FlightSpec.SearchAndTrack | drone_backend/src/tello/flight_logic.py:37-52 | True iff the search finds a face and tracking does not raise; reaching TRACKING requires a face |
| FlightSpec.FailedFlightEndsWithLanding | drone_backend/src/tello/flight_logic.py:37-100 | once airborne, every failed sequence (search exhausted, detector or tracking exception) ends with a land command as the last command sent |
| FlightSpec.EmergencyLandEndsWithLanding | drone_backend/src/tello/controller.py:459-483 | from a connected drone that is flying or has just been told to land, `emergency_land` ends on a land command |
| FlightSpec.Stop | drone_backend/src/tello/flight_logic.py:126-128 | phase IDLE, and exactly one land command when connected |
| FlightLogic.FlightLogic.constructor | drone_backend/src/tello/flight_logic.py:10-22 | a fresh controller with default limits, phase IDLE and no face found |
| FlightLogic.FlightLogic.ConnectAndTakeoff | drone_backend/src/tello/flight_logic.py:54-73 | the new drone state and result are those of `FlightSpec.ConnectAndTakeoff` |
| FlightLogic.FlightLogic.SearchForFace | drone_backend/src/tello/flight_logic.py:75-100 | the while loop yields the state and outcome of `FlightSpec.SearchForFace` |
| FlightLogic.FlightLogic.StartFlightSequence | drone_backend/src/tello/flight_logic.py:24-52 | the new state and result are those of `FlightSpec.StartFlightSequence` |
| FlightLogic.FlightLogic.SearchAndTrack | drone_backend/src/tello/flight_logic.py:37-52 | the new state and result are those of `FlightSpec.SearchAndTrack` |
| FlightLogic.FlightLogic.Stop | drone_backend/src/tello/flight_logic.py:126-128 | the new state is that of `FlightSpec.Stop` |
| TunerSpec.ValidateThresholds | drone_backend/src/utils/llm_helper.py:249-263 | true exactly when 50 ≤ forward ≤ 200, 75 ≤ backward ≤ 250 and backward − forward ≥ 15 |
| TunerSpec.AdjustDistance | drone_backend/src/utils/llm_helper.py:109-163 | a failure leaves the pair unchanged and a success stores a valid pair; both absolute keys take precedence and store exactly that pair; an adjustment alone shifts both thresholds, keeping the gap; neither key fails with a missing-parameters message |
| TunerSpec.MoveCloser | drone_backend/src/utils/llm_helper.py:165-190 | succeeds iff the pair shifted down by 15 is valid, storing exactly that pair; a failure changes nothing; the gap is kept |
| TunerSpec.MoveFarther | drone_backend/src/utils/llm_helper.py:192-217 | succeeds iff the pair shifted up by 15 is valid, storing exactly that pair; a failure changes nothing; the gap is kept |
| TunerSpec.ResetThresholds | drone_backend/src/utils/llm_helper.py:219-227 | always succeeds, restoring the pair captured at construction |
| TunerSpec.Current | drone_backend/src/utils/llm_helper.py:240-247 | the optimal size is the midpoint, strictly between the thresholds of a valid pair |
| TunerSpec.CurrentSettingsOf | drone_backend/src/utils/llm_helper.py:229-238 | always succeeds, reporting the midpoint |
| TunerSpec.Perform | drone_backend/src/utils/llm_helper.py:60-92 | an unknown action changes nothing; each known one adds exactly one message; reset and settings add no error; a changed pair is valid unless it is a reset to the originals |
| TunerSpec.Dispatch | drone_backend/src/utils/llm_helper.py:55-99 | the messages only grow; a valid pair with valid originals stays valid; the loop aborts exactly when an entry raises |
| TunerSpec.ProcessLlmResponse | drone_backend/src/utils/llm_helper.py:45-107 | the new pair is the one left by applying the actions in list order (`Dispatch`), and without a raising entry the applied and error lists are exactly the messages that loop collected; success iff no errors; the current thresholds are those of the final pair; an entry that raises yields one error and no applied changes; validity is kept |
| TunerSpec.DispatchReportsEachAction | drone_backend/src/utils/llm_helper.py:60-92 | every action with a known name adds exactly one message |
| TunerSpec.DispatchWithoutFailingActions | drone_backend/src/utils/llm_helper.py:85-92 | resets, settings queries and unknown names never add an error |
| TunerSpec.DispatchAppend | drone_backend/src/utils/llm_helper.py:60 | actions are applied in list order: a list is its prefix followed by its suffix |
| TunerSpec.UnknownActionsIgnored | drone_backend/src/utils/llm_helper.py:61-92 | an entry with an unknown action name changes nothing |
| TunerSpec.ResetIdempotent | drone_backend/src/utils/llm_helper.py:219-227 | resetting twice is resetting once |
| TunerSpec.CloserThenFartherRestores | drone_backend/src/utils/llm_helper.py:165-217 | a successful move closer followed by move farther succeeds and restores the pair |
| Tuner.HeadDetector.constructor | drone_backend/src/utils/llm_helper.py:35-36 | the detector holds the two given thresholds |
| Tuner.LlmParameterTuner.constructor | drone_backend/src/utils/llm_helper.py:25-43 | the tuner keeps the detector and captures its current pair as the originals |
| Tuner.LlmParameterTuner.Store | drone_backend/src/utils/llm_helper.py:221-222 | the detector holds exactly the given pair |
| Tuner.LlmParameterTuner.AdjustDistanceThresholds | drone_backend/src/utils/llm_helper.py:109-163 | the detector's new pair and the outcome are those of `TunerSpec.AdjustDistance` |
| Tuner.LlmParameterTuner.MoveCloser | drone_backend/src/utils/llm_helper.py:165-190 | the detector's new pair and the outcome are those of `TunerSpec.MoveCloser` |
| Tuner.LlmParameterTuner.MoveFarther | drone_backend/src/utils/llm_helper.py:192-217 | the detector's new pair and the outcome are those of `TunerSpec.MoveFarther` |
| Tuner.LlmParameterTuner.ResetThresholds | drone_backend/src/utils/llm_helper.py:219-227 | the detector holds the originals and the outcome is that of `TunerSpec.ResetThresholds` |
| Tuner.LlmParameterTuner.GetCurrentThresholds | drone_backend/src/utils/llm_helper.py:240-247 | the detector's current pair with its midpoint |
| Tuner.LlmParameterTuner.ProcessLlmResponse | drone_backend/src/utils/llm_helper.py:45-107 | the loop yields the pair and report of `TunerSpec.ProcessLlmResponse` |
| Tuner.TunerRegistry.constructor | drone_backend/src/utils/llm_helper.py:10-19 | no tuner, and the initial `current_llm_data` |
| Tuner.TunerRegistry.InitializeTuner | drone_backend/src/utils/llm_helper.py:288-315 | the first call builds a tuner on the detector and records its pair; later calls keep the first tuner, its originals and the data |
| Tuner.TunerRegistry.ProcessTextRequest | drone_backend/src/utils/llm_helper.py:402-437 | without a tuner it refuses and changes nothing; otherwise the detector's pair and the reply are those of `TunerSpec.ProcessLlmResponse`, and the recorded data mirror them |
| Tuner.TunerRegistry.ResetParameters | drone_backend/src/utils/llm_helper.py:440-455 | without a tuner it refuses; otherwise the originals are restored and mirrored in the data |
| Tuner.TunerRegistry.GetCurrentThresholds | drone_backend/src/utils/llm_helper.py:458-465 | None exactly when there is no tuner; otherwise the tuner's current thresholds |
| HeadDetection.SecondLine | drone_backend/src/cv/head_detection.py:27 | the second grid line lies between the first one and the frame size |
| HeadDetection.DroneDirections | drone_backend/src/cv/head_detection.py:24-42 | the label is the cell of the x band and the y band taken separately; no label iff a coordinate lies exactly on a grid line |
| HeadDetection.AxisBand | drone_backend/src/cv/head_detection.py:25-42 | each band is exactly the open interval it names; a grid-line coordinate has none |
| HeadDetection.LabelInjective | drone_backend/src/cv/head_detection.py:24-42 | each label names exactly one cell |
| HeadDetection.GuardsMatchDirections | drone_backend/src/cv/head_detection.py:24-42 | the i-th guard holds exactly when drone_directions reports the i-th branch's label |
| HeadDetection.GuardsExclusive | drone_backend/src/cv/head_detection.py:24-42 | no two of the nine guards hold together, so at most one label is produced |
| HeadDetection.CornerDirections | drone_backend/src/cv/head_detection.py:25-42 | points before both first lines are up and left; points past both second lines are down and right |
| HeadDetection.CenterDirection | drone_backend/src/cv/head_detection.py:33-34 | a point strictly inside both middle thirds is center |
| HeadDetection.BoundaryPixelHasNoDirection | drone_backend/src/cv/head_detection.py:24-42 | in a 640x480 frame, x = 213 or y = 160 gets no direction |
| HeadDetection.ClosedBand | drone_backend/src/cv/head_detection.py:25-42 | off the grid lines it agrees with the open band |
| HeadDetection.CorrectedDirections | drone_backend/src/cv/head_detection.py:24-42 | every point gets the label of its half-open bands |
| HeadDetection.CorrectedAgreesOffGridLines | drone_backend/src/cv/head_detection.py:24-42 | wherever the original reports a direction, the corrected classifier reports the same one |
| HeadDetection.CorrectedCoversBoundary | drone_backend/src/cv/head_detection.py:24-42 | the corrected classifier labels grid-line points |
| HeadDetection.SquareCrop | drone_backend/src/cv/head_detection.py:82-87 | the crop spans 2*(h//2) columns centred on w//2 |
| HeadDetection.SliceLength | drone_backend/src/cv/head_detection.py:87-89 | a slice is never longer than the sequence and has length stop − start for in-range bounds |
| HeadDetection.CroppedWidth | drone_backend/src/cv/head_detection.py:87-89 | the cropped width is at most the frame width, and 2*(h//2) for a landscape frame |
| HeadDetection.PortraitCropWraps | drone_backend/src/cv/head_detection.py:82-89 | for a 480x640 portrait frame the crop starts at column −80, which Python counts from the end, leaving an 80-column image |
| HeadDetection.HeadCenter | drone_backend/src/cv/head_detection.py:148-149 | the centre lies within the box and is the floor of its midpoint |
| HeadDetection.ToSquare | drone_backend/src/cv/head_detection.py:151 | the shifted column lies inside the crop exactly when the frame column lies inside the crop window |
| HeadDetection.DrawnGridMatchesClassifier | drone_backend/src/cv/head_detection.py:25-91 | the drawn first line always matches the classifier's; the second ones match exactly when the size mod 3 is not 2 |
| Transcription.Lower | drone_backend/src/llm/stt.py:60 | lower-casing an ASCII text keeps its length and maps exactly A to Z onto a to z |
| Transcription.StripStart | drone_backend/src/llm/stt.py:39 | a suffix with no leading whitespace; everything removed is whitespace |
| Transcription.StripEnd | drone_backend/src/llm/stt.py:39 | a prefix with no trailing whitespace; everything removed is whitespace |
| Transcription.Strip | drone_backend/src/llm/stt.py:39 | a slice of the text that neither starts nor ends with whitespace, and everything cut away is whitespace |
| Transcription.ContainsOccurs | drone_backend/src/llm/stt.py:63 | the left-to-right substring search finds a keyword iff it occurs at some position |
| Transcription.FirstKeyword | drone_backend/src/llm/stt.py:62-65 | a reported keyword is listed and occurs in the text or its lower-cased form; none is reported iff no listed keyword occurs in either |
| Transcription.AnyAlnum | drone_backend/src/llm/stt.py:71 | true iff some character is alphanumeric |
| Transcription.AsciiCount | drone_backend/src/llm/stt.py:75 | at most the length, and equal to it iff every character is ASCII |
| Transcription.MostlyNonAscii | drone_backend/src/llm/stt.py:76 | true iff the text is longer than 5 and twice the ASCII count is below its length |
| Transcription.RatioBelowHalf | drone_backend/src/llm/stt.py:76 | the ratio test `count / length < 0.5` is `2 * count < length` |
| Transcription.TranscribeAudio | drone_backend/src/llm/stt.py:10-90 | a result exists iff the file reached 5000 bytes, the transcription call did not raise, and the stripped text is free of every keyword (as is and lower-cased), at least 3 long, has an alphanumeric character and is not mostly non-ASCII; the result is the stripped text |
| Transcription.SmallRecordingRejected | drone_backend/src/llm/stt.py:25-27 | a recording under 5000 bytes gives None whatever it says |
| Transcription.KeywordRejected | drone_backend/src/llm/stt.py:41-65 | a text containing any listed keyword, as is or lower-cased, gives None |
| Transcription.LikeRejected | drone_backend/src/llm/stt.py:45-65 | an ordinary phrase containing "like" is dropped |
| Transcription.ShortTextsPassRatioRule | drone_backend/src/llm/stt.py:76 | texts of at most 5 characters are never rejected by the ratio rule |
| Transcription.AcceptedIsStrippedAndLongEnough | drone_backend/src/llm/stt.py:39-81 | an accepted text is at least 3 characters long and has no whitespace at either end |

## Left out

- The command queue worker (`_start_command_thread`, `_process_commands`, controller.py:130-148). It is a thread with sleeps, and nothing enqueues onto it. Connect only clears `stop_thread`, as the thread start does.
- `get_temperature`, `get_flight_time`, `get_status` and `wait_for_stream`. They are reporting and video plumbing with no effect on the modelled state. `flight_stats['commands_executed']` is only touched by the worker thread.
- Sleeps, logging and the content of video frames. A frame is an observation (none, or what the detector says about it).
- ControllerSpec.Connect: a telemetry getter that returns `None` without raising is not told apart from one that raises, because connect treats both as failure for the battery. For temperature, only a raise makes connect fail; `None` in the model stands for a raise.
- Python floats: the PID maths, the ratios and `np.clip` are over exact reals. IEEE rounding is not modelled.
- ControllerSpec.SendRc: the RC values are passed through unclamped, as in the source. The documented range of -100 to 100 is not enforced by the code.
- ControllerSpec.EmergencyLand: the fallback to `emergency_stop` in its `except` branch is not modelled. Every call inside catches its own exceptions, so the branch cannot be reached.
- The tracking phase `_track_face` (flight_logic.py:102-124) is an oracle (`trackingRaises`). It relies on a `head_model` and on detector attributes that are not defined in the code shown. The ArUco and head detector construction in `FlightLogic.__init__` is left out for the same reason.
- The 60-second search timeout is the end of the observation list. The model does not relate it to clock readings.
- Tuner threads: `_wait_for_tuner`, `tuner_lock` and the initialisation event are concurrency. `process_audio_request` is transcription plus the network LLM call.
- `interpret_user_request` only builds prompt text. The LLM's answer to `process_text_request` is a parameter (`LlmResponse`).
- The head detector's `head_size_forward_threshold` and `head_size_backward_threshold` are not defined in the detector shown in head_detection.py. The model gives the detector these two integer fields and nothing else.
- Tuner messages are constructors carrying their values, not the formatted text. The `:.0f` rounding of the optimal size in `_get_current_settings` is not modelled.
- An `actions` entry on which `.get` raises (one that is not a dictionary) is `Malformed`. Parameter values that `int()` refuses are `NotAnInt`. Python's `int()` of floats and of numeric strings is folded into `Int`.
- The rest of `run_head_detection`: camera capture, MediaPipe, drawing and the keyboard loop. Only its integer crop and centre arithmetic is modelled.
- The transcription I/O: the temp file, the OpenAI call and file deletion. The file size and the call's answer are parameters (`None` when saving or the call raised).
- `str.isalnum`, `str.isspace` and `str.lower` are exact for ASCII. For other characters they are parameters, because Python's Unicode tables are not modelled. `str.lower` also picks the final form of a capital sigma from the characters around it; a per-character table cannot express that, so `Transcription.Lower` is exact only where no capital sigma occurs.
- The drone environment `Drone.Tello` is fixed for the controller's life: battery, height and temperature readings never change between calls, and a command in the failing set fails on every call while any other command never fails.
- ControllerSpec.EmergencyLand: its exact hover, fifteen descents and land rely on that fixed environment; a battery that turns critical during the sequence, which would make a descent step land early, is not covered.
- FlightSpec.FailedFlightEndsWithLanding: it does not explore a battery that becomes critical mid-flight or a command that fails only some of the time.
- Controller.TelloController.MoveUp: on a controller that never connected, `self.drone` is None and the source raises AttributeError while evaluating `self.drone.move_up`, before any check; the model returns False and changes nothing, since the exception would only escape to callers outside the model.
- Controller.TelloController.MoveDown: the same AttributeError on a never-connected controller is modelled as False with no change.
- Controller.TelloController.MoveLeft: the same AttributeError on a never-connected controller is modelled as False with no change.
- Controller.TelloController.MoveRight: the same AttributeError on a never-connected controller is modelled as False with no change.
- Controller.TelloController.MoveForward: the same AttributeError on a never-connected controller is modelled as False with no change.
- Controller.TelloController.MoveBack: the same AttributeError on a never-connected controller is modelled as False with no change.

## Findings

| source | as written | input that shows it | evidently intended | confidence | as-written member | corrected member |
|---|---|---|---|---|---|---|
| drone_backend/src/cv/head_detection.py:24-42 | every guard compares with strict `<` and `>` against `w//3`, `(w//3)*2` and the `h` lines, so a coordinate equal to a grid line matches no branch | x = 213 in a 640-wide frame (213 = 640 // 3), any y: no direction | each point belongs to exactly one of the nine cells, with grid lines in the cell that starts at them | not executed | HeadDetection.BoundaryPixelHasNoDirection | HeadDetection.CorrectedAgreesOffGridLines |
