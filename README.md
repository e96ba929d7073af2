# Reflow_Controller in Dafny

A verified model of the control core of an ESP32 solder-paste reflow oven controller. The
firmware reads a thermocouple through an MCP9600 amplifier. It drives a solid-state relay (SSR)
through a time-proportioning window fed by a PID controller, and walks a paste profile
through the stages Preheat, Soak, Reflow, Cool and Complete. A joystick axis cancels a run. The
model covers:

- **`ReflowLogic`** (`reflow_logic.dfy`): the state enums and the temperature, PID-gain and
  timing constants of `include/Reflow_logic.h`.
- **`Joystick`** (`joystick.dfy`): the two-sample threshold-crossing detector `JoystickAxis`,
  plus the button constants.
- **`ReflowSpec`** (`reflow_spec.dfy`): the reflow tick `reflow_main` as pure functions over a
  snapshot of the controller's globals. There is one function per stage:
  - sensor sampling;
  - the heartbeat;
  - the eight-state switch;
  - the cancel check;
  - the debouncer;
  - the relay window.

  `Step` runs one whole tick, `LoopStep` adds the `state != 9` gate of `loop()`, and `Run`
  folds a sequence of ticks.
- **`ReflowMain`** (`reflow_main.dfy`): the controller as a class whose fields are those
  globals. `Tick` updates them stage by stage, and every stage method is proved against its
  `ReflowSpec` function.
- **`ReflowProperties`** (`reflow_properties.dfy`): what the code promises for each stage. It
  also proves an invariant kept over whole runs: the heater is on only in a heating stage.
- **`ButtonNav`** (`button_nav.dfy`):
  - the digital button press/release/hold machine of `ButtonHandler::processDigitalButtons`,
    with its callbacks made into emitted events;
  - the settings-pointer navigation of `readAnalogButtons`.
- **`TouchInterface`** (`touch_interface.dfy`):
  - the bounded touch-button registry (add, ordered remove, update, enable, clear);
  - hit testing;
  - the clamped touch-to-display mapping;
  - the press/release bookkeeping of `processTouch`.
- **`Ota`** (`ota.dfy`):
  - the version selection and comparison of `OTA::parseVersion`, including Arduino `String`'s
    `indexOf`, `substring` and `toInt`;
  - the `performUpdate` decision;
  - the setters.
- **`ProfileManager`** (`profile_manager.dfy`):
  - the byte image of `profile_t` and the strided copy `convert_to_byte`;
  - the length check of `loadProfiles` and the `compareProfiles` decision;
  - the selected-profile store;
  - the MCP9600 manager's sentinel values and its fault-bit description.

The customary Arduino inputs become parameters of the operations. These are the clock value
`now`, the thermocouple reading, the axis sample, the PID output, strings received over HTTP,
and results reported by the I2C driver. Hardware outputs become fields or results: the SSR,
buzzer and LED pin levels, the calls made on the PID object, and the UI callbacks made.

## Model

| member | source | states |
|---|---|---|
| ReflowLogic.StateIndex | include/Reflow_logic.h:9-18 | the eight reflow states are numbered below 8 in their declaration order |
| ReflowLogic.StateAt | include/Reflow_logic.h:9-18 | every number below 8 names exactly one state |
| ReflowLogic.StateNumbering | include/Reflow_logic.h:9-18 | the numbering is a bijection: state to number and back is the identity |
| Joystick.PressCode | lib/ButtonNav/ButtonNav.h:28-36 | the code is 0, 1 or 2. It is 1 iff the axis crossed above the threshold. It is 2 iff it did not, and crossed below `1023 - threshold` |
| Joystick.JoystickAxis.WasAxisPressed | lib/ButtonNav/ButtonNav.h:28-36 | defines the edge code of the two stored samples: 1 when the axis crossed above the threshold, otherwise 2 when it crossed below `1023 - threshold`, otherwise 0; its range and both conditions are stated by `PressCode` |
| Joystick.SteadyAxisReportsNothing | lib/ButtonNav/ButtonNav.h:28-36 | two equal samples never report a press |
| Joystick.JoystickAxis.constructor | lib/ButtonNav/ButtonNav.h:18-21 | pin and threshold as given, both samples 0 |
| Joystick.JoystickAxis.ReadAxis | lib/ButtonNav/ButtonNav.h:23-26 | the previous current sample becomes the last one, and the new sample becomes current |
| Joystick.FirstPressThenRepeat | lib/ButtonNav/ButtonNav.h:18-36 | with the default threshold, the first read above 512 reports 1 and a repeat of it reports 0 |
| ReflowSpec.Initial | src/main.cpp:234-245 | after setup: Idle, Off, debouncer idle with no switch, zero seconds, both schedules at the start time, relay and buzzer low |
| ReflowSpec.Sample | src/main.cpp:396-425 | defines the sampling stage: a due sample advances the schedule by 1000, stores the reading and sets the fault flag for a reading outside [-200, 1000]; a reading of -999 also gives Error and Off. Its properties are `SampleSchedule`, `ErrorReadingStopsHeater` and `ImplausibleReadingOnlyFlags` |
| ReflowSpec.Heartbeat | src/main.cpp:427-453 | defines the heartbeat stage: a due beat advances its schedule by 1000, counts a second and toggles the LED while On, and drives the LED low while Off (`HeartbeatCountsOnlyWhileOn`) |
| ReflowSpec.StateMachine | src/main.cpp:456-579 | defines the switch stage: the switch changes only the run variables and reports its PID calls |
| ReflowSpec.ReflowSwitch | src/main.cpp:456-579 | defines the eight-way switch on the reflow state, including TooHot returning to Idle below 50 °C and Error returning to Idle on a reading other than -999 (`HoldingStates`) |
| ReflowSpec.IdleCase | src/main.cpp:457-483 | defines the Idle case (`IdleTooHot`, `IdleStartsProfile`, `IdleWaits`) |
| ReflowSpec.PreheatCase | src/main.cpp:485-499 | defines the Preheat case (`ReflowProperties.PreheatStage`) |
| ReflowSpec.SoakCase | src/main.cpp:501-517 | defines the Soak case (`ReflowProperties.SoakStage`, `SoakRamp`) |
| ReflowSpec.ReflowCase | src/main.cpp:519-531 | defines the Reflow case, with the peak minus 5 computed in int (`ReflowProperties.ReflowStage`) |
| ReflowSpec.CoolCase | src/main.cpp:533-546 | defines the Cool case (`ReflowProperties.CoolStage`) |
| ReflowSpec.CompleteCase | src/main.cpp:548-559 | defines the Complete case (`ReflowProperties.CompleteStage`) |
| ReflowSpec.Cancel | src/main.cpp:582-591 | defines the cancel stage: a pending switch press while On gives Off and Idle (`CancelStage`) |
| ReflowSpec.Debounce | src/main.cpp:594-632 | defines the debounce stage, which changes only the debouncer variables |
| ReflowSpec.DebounceStep | src/main.cpp:594-632 | defines one debouncer step: one AXIS_X read, then the IDLE, CHECK or RELEASE case on its edge code (`DebounceFromIdle`, `DebounceFromCheck`, `DebounceFromRelease`) |
| ReflowSpec.Relay | src/main.cpp:634-647 | defines the relay stage: the time-proportioning window and the Compute call while On, the relay low while Off (`RelayStage`) |
| ReflowSpec.Sensed | src/main.cpp:391-453 | defines what the switch sees: the UI profile flag taken over, then the sampling and heartbeat stages |
| ReflowSpec.Step | src/main.cpp:391-647 | defines one tick as the six stages in source order, with the PID calls in the order they are made (`StepKeepsInv`) |
| ReflowSpec.LoopStep | src/main.cpp:323-327 | defines a pass of `loop()`: the tick unless the UI state is 9 (`OutputTestScreenSkipsTick`) |
| ReflowSpec.Run | src/main.cpp:323-327 | defines the state after a sequence of ticks (`RunKeepsInv`, `HeaterOffOutsideRun`) |
| ReflowMain.ReflowController.constructor | src/main.cpp:234-245 | the globals hold exactly the setup values |
| ReflowMain.ReflowController.Tick | src/main.cpp:391-647 | the new globals and the PID calls are those of one tick of the stage composition |
| ReflowMain.ReflowController.LoopStep | src/main.cpp:323-327 | the tick runs unless the UI state is 9, and then nothing changes |
| ReflowMain.ReflowController.Sense | src/main.cpp:396-453 | the UI's profile flag is taken over, then the sample and heartbeat stages run |
| ReflowMain.ReflowController.SampleSensor | src/main.cpp:396-425 | the globals become those of the sampling stage |
| ReflowMain.ReflowController.BeatHeart | src/main.cpp:427-453 | the globals become those of the heartbeat stage |
| ReflowMain.ReflowController.RunStateMachine | src/main.cpp:456-579 | the globals and PID calls are those of the reflow switch |
| ReflowMain.ReflowController.IdleStage | src/main.cpp:457-483 | the Idle case of the switch |
| ReflowMain.ReflowController.StartProfile | src/main.cpp:469-480 | seconds reset, window started now, setpoint at the preheat boundary, state Preheat, nothing else changed |
| ReflowMain.ReflowController.PreheatStage | src/main.cpp:485-499 | the Preheat case of the switch |
| ReflowMain.ReflowController.EnterSoak | src/main.cpp:491-497 | soak timer at now + 9000, setpoint at preheat + 5, state Soak, nothing else changed |
| ReflowMain.ReflowController.SoakStage | src/main.cpp:501-517 | the Soak case of the switch |
| ReflowMain.ReflowController.RaiseSoakSetpoint | src/main.cpp:505-507 | soak timer at now + 9000 and setpoint raised by 5, nothing else changed |
| ReflowMain.ReflowController.EnterReflow | src/main.cpp:512-514 | setpoint at the reflow boundary, state Reflow, nothing else changed |
| ReflowMain.ReflowController.ReflowStage | src/main.cpp:519-531 | the Reflow case of the switch |
| ReflowMain.ReflowController.CoolStage | src/main.cpp:533-546 | the Cool case of the switch |
| ReflowMain.ReflowController.FinishCooling | src/main.cpp:538-544 | buzzer on until now + 1000, status Off, state Complete, nothing else changed |
| ReflowMain.ReflowController.CompleteStage | src/main.cpp:548-559 | the Complete case of the switch |
| ReflowMain.ReflowController.ReturnToIdle | src/main.cpp:552-556 | buzzer off, state Idle, profile flag and menu lock cleared, nothing else changed |
| ReflowMain.ReflowController.CheckCancel | src/main.cpp:582-591 | the globals become those of the cancel stage |
| ReflowMain.ReflowController.RunDebouncer | src/main.cpp:594-632 | the globals and the axis become those of the debounce stage |
| ReflowMain.ReflowController.DebounceFromIdle | src/main.cpp:595-607 | the debounce stage from its IDLE state |
| ReflowMain.ReflowController.DebounceFromCheck | src/main.cpp:609-621 | the debounce stage from its CHECK state |
| ReflowMain.ReflowController.DebounceFromRelease | src/main.cpp:623-631 | the debounce stage from its RELEASE state |
| ReflowMain.ReflowController.DriveRelay | src/main.cpp:634-647 | the window start, relay level and PID calls are those of the relay stage |
| ReflowProperties.SampleSchedule | src/main.cpp:396-400 | no due sample leaves everything unchanged. A due sample advances the schedule by exactly 1000 and replaces the input |
| ReflowProperties.ErrorReadingStopsHeater | src/main.cpp:419-423 | a due reading of exactly -999 ends the tick in Error with status Off, relay low and no PID call |
| ReflowProperties.ImplausibleReadingOnlyFlags | src/main.cpp:402-405 | any other reading outside [-200, 1000] only sets the fault flag, beside the normal sample update |
| ReflowProperties.FaultFlagStaysSet | src/main.cpp:391-647 | no tick clears the fault flag |
| ReflowProperties.FaultFlagStaysSetInRun | src/main.cpp:391-647 | no run of ticks clears the fault flag |
| ReflowProperties.HeartbeatCountsOnlyWhileOn | src/main.cpp:427-447 | the seconds counter grows by one exactly on a due beat while On. A due beat while Off drives the LED low. Each due beat advances the schedule by 1000 |
| ReflowProperties.IdleTooHot | src/main.cpp:460-462 | Idle at 50 °C or above goes to TooHot with no PID call |
| ReflowProperties.IdleStartsProfile | src/main.cpp:463-481 | Idle below 50 °C with the profile flag goes to Preheat: setpoint at the preheat boundary, window started now, seconds 0, status unchanged, and the PID limit, sample-time and mode calls in that order |
| ReflowProperties.IdleWaits | src/main.cpp:457-483 | Idle below 50 °C without the flag only sets the stage label |
| ReflowProperties.PreheatStage | src/main.cpp:485-499 | Preheat always sets status On. It enters Soak iff the input reaches the preheat boundary, with setpoint + 5, timer now + 9000 and the soak gains. Otherwise only label and status change |
| ReflowProperties.SoakStage | src/main.cpp:501-517 | while the state stays Soak the setpoint never decreases. Before the timer nothing but the label changes. A due step within the soak boundary adds exactly 5 and restarts the timer. Reflow is entered iff a due step passes the soak boundary, and the setpoint is then the reflow boundary, which may be lower, with the reflow gains |
| ReflowProperties.SoakRamp | src/main.cpp:501-517 | n due soak ticks within the soak boundary raise the setpoint by exactly 5n and stay in Soak |
| ReflowProperties.SoakTimerAfterRamp | src/main.cpp:504-505 | after such a ramp the soak timer is 9000 after the last step's clock |
| ReflowProperties.SoakExampleStart | src/main.cpp:489-497 | with profile {100, 150, 183}, preheat ends at setpoint 105 |
| ReflowProperties.SoakExample | src/main.cpp:501-517 | with profile {100, 150, 183}, nine steps reach 150 while still in Soak, and the next due step enters Reflow at 183 |
| ReflowProperties.ReflowStage | src/main.cpp:519-531 | Reflow goes to Cool iff the input reaches the reflow boundary - 5, setting setpoint 50 and the reflow gains. The status is unchanged |
| ReflowProperties.CoolStage | src/main.cpp:533-546 | Cool goes to Complete iff the input is at most 50, and then status is Off, the buzzer on and its period now + 1000 |
| ReflowProperties.CompleteStage | src/main.cpp:548-559 | Complete goes to Idle iff the buzzer period has passed, then buzzer off and profile flag and menu lock cleared |
| ReflowProperties.HoldingStates | src/main.cpp:561-578 | TooHot leaves for Idle iff the input is below 50. Error leaves for Idle iff the input is not -999. Neither touches any other variable, including the stage label, nor calls the PID |
| ReflowProperties.CoolFloorIsTooHotForIdle | include/Reflow_logic.h:38-39 | at exactly 50 °C Cool completes, while Idle goes to TooHot |
| ReflowProperties.CancelStage | src/main.cpp:582-591 | cancel never touches the profile flag and does nothing while Off. A pending switch press while On gives Idle and Off |
| ReflowProperties.SwitchTakesEffectNextTick | src/main.cpp:582-632 | without a pending press, the tick ends in the state and status the switch produced. The debouncer's press is only seen next tick |
| ReflowProperties.PendingPressCancels | src/main.cpp:582-647 | a pending press cancels a heating run and the relay is low on that tick |
| ReflowProperties.DebounceFromIdle | src/main.cpp:595-607 | IDLE clears the switch. It goes to CHECK iff the axis crossed upwards, recording the time |
| ReflowProperties.DebounceFromCheck | src/main.cpp:609-621 | CHECK goes to RELEASE iff there is another upward crossing more than 50 ms later. It goes to IDLE iff there is no upward crossing. The switch is unchanged |
| ReflowProperties.DebounceFromRelease | src/main.cpp:623-631 | RELEASE produces the switch press, and returns to IDLE, on any nonzero axis code |
| ReflowProperties.DebounceKeepsQuiet | src/main.cpp:594-632 | the debouncer alone never leaves its quiet states (no press, not in RELEASE) |
| ReflowProperties.StepKeepsQuiet | src/main.cpp:391-647 | a whole tick keeps the debouncer quiet |
| ReflowProperties.NoPressFromDebouncerAlone | src/main.cpp:594-632 | fed only by its own axis reads, the debouncer never produces a press over any run |
| ReflowProperties.InitialQuiet | src/main.cpp:240-244 | the setup values are quiet |
| ReflowProperties.RelayStage | src/main.cpp:634-647 | while Off the relay is low with no PID call. While On the window start advances by exactly 2000 iff more than 2000 ms passed, the relay is high iff output exceeds the elapsed window time, and Compute is called. Nothing else changes |
| ReflowProperties.SensedKeepsStatus | src/main.cpp:396-453 | sampling and heartbeat keep status On confined to heating stages |
| ReflowProperties.SwitchKeepsStatus | src/main.cpp:456-579 | every case of the switch keeps status On confined to heating stages |
| ReflowProperties.StateMachineKeepsStatus | src/main.cpp:456-579 | so does the switch stage |
| ReflowProperties.StepKeepsInv | src/main.cpp:391-647 | a tick keeps the invariant: status On only in Preheat to Cool, and the relay high only when On |
| ReflowProperties.RunKeepsInv | src/main.cpp:391-647 | every run of ticks keeps that invariant |
| ReflowProperties.HeaterOffOutsideRun | src/main.cpp:234-647 | from setup, whenever the state is not a heating stage, status is Off and the relay is low |
| ReflowProperties.ProfileStartTick | src/main.cpp:463-481 | the tick that starts a profile ends in Preheat with status still Off and the relay low, after the three PID set-up calls |
| ReflowProperties.BuzzerStaysOnAfterErrorInComplete | src/main.cpp:419-423 | an error reading during Complete leaves the buzzer on, and a good reading returns to Idle with the buzzer still on |
| ReflowProperties.OutputTestScreenSkipsTick | src/main.cpp:325-327 | in UI state 9 a pass changes nothing. In any other state it is one tick |
| ButtonNav.ButtonStep | lib/ButtonNav/ButtonNav.cpp:162-211 | the stored level is the read level. Down and up times are either kept or set to now. There are at most two events |
| ButtonNav.SteppedButtons | lib/ButtonNav/ButtonNav.cpp:162-212 | defines the slots after the loop has stepped the buttons below n, one slot at a time; the number of slots is kept (`SteppedButtonsFrame`) |
| ButtonNav.EventsOf | lib/ButtonNav/ButtonNav.cpp:162-212 | defines the events of the buttons below n, in button order (`EventsOfNext`, `EventsFromButtonsInUse`) |
| ButtonNav.SteppedButtonsFrame | lib/ButtonNav/ButtonNav.cpp:162-212 | after the loop reaches n, each slot below n is that button stepped from its old slot and every slot from n on is unchanged |
| ButtonNav.EventsOfNext | lib/ButtonNav/ButtonNav.cpp:162-212 | the events of n + 1 buttons are those of n followed by slot n's |
| ButtonNav.ButtonEvents | lib/ButtonNav/ButtonNav.cpp:172-203 | event1 fires iff there is a debounced release and no ignore flag. Otherwise event2 fires iff there is a debounced press, no ignore flag and menu mode |
| ButtonNav.ReleaseRecordsDownTime | lib/ButtonNav/ButtonNav.cpp:172-183 | a debounced release sets the down time to now and clears the ignore flag, keeping menu mode and up time |
| ButtonNav.HoldTogglesMenuMode | lib/ButtonNav/ButtonNav.cpp:186-190 | holding past the hold time toggles menu mode once, sets the ignore flag and restarts the down time, with no event |
| ButtonNav.MenuModeTogglesOnlyOnHold | lib/ButtonNav/ButtonNav.cpp:186-209 | menu mode changes only on such a hold |
| ButtonNav.PressRecordsUpTime | lib/ButtonNav/ButtonNav.cpp:167-169 | a debounced press sets the up time to now and clears the ignore flag, keeping menu mode and down time |
| ButtonNav.SteadyButtonKeepsState | lib/ButtonNav/ButtonNav.cpp:162-211 | a steady level short of a hold changes nothing and fires nothing |
| ButtonNav.EventsFromButtonsInUse | lib/ButtonNav/ButtonNav.cpp:162 | every event names the pin of a button in use |
| ButtonNav.StoredLevelFollowsRead | lib/ButtonNav/ButtonNav.cpp:164 | after the pass each button in use stores the level just read |
| ButtonNav.ButtonHandler.constructor | lib/ButtonNav/ButtonNav.cpp:7-78 | no buttons in use, default debounce and hold times, all pins 0, all slots released, no axes, zero configuration, every callback null |
| ButtonNav.ButtonHandler.Begin | lib/ButtonNav/ButtonNav.cpp:80-90 | the number in use is min(numButtons, 10), exactly that many pins are copied, and the times are taken over |
| ButtonNav.ButtonHandler.SetJoystickAxes | lib/ButtonNav/ButtonNav.cpp:92-95 | both axis references are replaced |
| ButtonNav.ButtonHandler.SetNavConfiguration | lib/ButtonNav/ButtonNav.cpp:97-114 | the navigation configuration and pointer are replaced |
| ButtonNav.ButtonHandler.SetMainCallbacks | lib/ButtonNav/ButtonNav.cpp:124-144 | the presence of the three callbacks the navigation uses (loopScreen, mainMenuScreen, UpdateSettingsPointer) is replaced |
| ButtonNav.ButtonHandler.StepPass | lib/ButtonNav/ButtonNav.cpp:162-212 | the loop over the buttons in use leaves exactly their stepped slots and returns their events in button order, and the timestamps stay within the clock |
| ButtonNav.ButtonHandler.StepInPass | lib/ButtonNav/ButtonNav.cpp:163-211 | one turn of the loop: slot i becomes its stepped slot, the prefix of the pass grows by one, and the events are ButtonStep's for that button |
| ButtonNav.ButtonHandler.ProcessDigitalButtons | lib/ButtonNav/ButtonNav.cpp:161-214 | the slots become the stepped slots of the buttons in use. The events are theirs, in button order |
| ButtonNav.ButtonHandler.StepButton | lib/ButtonNav/ButtonNav.cpp:163-211 | slot i is stepped and no other slot changes |
| ButtonNav.ButtonHandler.ReadAnalogButtons | lib/ButtonNav/ButtonNav.cpp:216-312 | nothing happens without both axes. Otherwise both axes are read, and the pointer and UI calls are the navigation of their edge codes under the installed callbacks |
| ButtonNav.ButtonHandler.GoBack | lib/ButtonNav/ButtonNav.cpp:229-239 | pointer and calls are those of the back action: the pointer goes to 0 or to the previous pointer, and loopScreen or mainMenuScreen is called only when installed |
| ButtonNav.Back | lib/ButtonNav/ButtonNav.cpp:229-239 | defines the back action of a board without a back button: states 1, 7 and 8 go to pointer 0 with loopScreen, other positive states to the previous pointer with mainMenuScreen, each call only when installed |
| ButtonNav.Menu | lib/ButtonNav/ButtonNav.cpp:254-256 | defines the menu action: mainMenuScreen in state 0 on a board without a menu button, when installed |
| ButtonNav.Down | lib/ButtonNav/ButtonNav.cpp:241-243 | defines the guarded step down: below numOfPointers the pointer grows by one, with UpdateSettingsPointer when installed |
| ButtonNav.Up | lib/ButtonNav/ButtonNav.cpp:260-262 | defines the guarded step up: above 0 the pointer shrinks by one, with UpdateSettingsPointer when installed |
| ButtonNav.Navigate | lib/ButtonNav/ButtonNav.cpp:224-310 | defines the navigation: the first of X = 1, X = 2, Y = 1, Y = 2 decides, the horizontal setting swaps the axes, and the Y = 2 horizontal step is unguarded (`NavigateMovesLittle`, `CallbacksGateOnlyCalls`) |
| ButtonNav.NavigateMovesLittle | lib/ButtonNav/ButtonNav.cpp:224-310 | at most one UI call, and only through an installed callback. The pointer moves by one, goes to 0 or takes the stored pointer. With every callback installed it never moves without a call |
| ButtonNav.CallbacksGateOnlyCalls | lib/ButtonNav/ButtonNav.cpp:224-310 | the pointer moves the same whichever callbacks are installed. The call made is the fully installed one, kept exactly when its own callback is installed |
| ButtonNav.NullCallbacksMakeNoCalls | lib/ButtonNav/ButtonNav.cpp:52-63 | with every callback null, as the constructor leaves them and as `src/main.cpp` keeps them, no UI call is made |
| ButtonNav.NavigateKeepsPointerInRange | lib/ButtonNav/ButtonNav.cpp:241-284 | the guarded moves keep the pointer in [0, numOfPointers] |
| ButtonNav.HorizontalUpLeavesRange | lib/ButtonNav/ButtonNav.cpp:287-289 | the unguarded horizontal decrement takes pointer 0 to -1 |
| ButtonNav.NavigateGuarded | lib/ButtonNav/ButtonNav.cpp:287-290 | defines the corrected navigation, with the horizontal Y = 2 step guarded like every other upward step (`NavigateGuardedKeepsPointerInRange`, `NavigateGuardedAgrees`) |
| ButtonNav.NavigateGuardedKeepsPointerInRange | lib/ButtonNav/ButtonNav.cpp:241-289 | with that decrement guarded, every move keeps the pointer in range |
| ButtonNav.NavigateGuardedAgrees | lib/ButtonNav/ButtonNav.cpp:287-289 | the guard changes the outcome only at pointer 0, or below 0 |
| ButtonNav.NoEdgeNoNavigation | lib/ButtonNav/ButtonNav.cpp:224-310 | without an edge on either axis nothing happens |
| TouchInterface.ConvertTouchToDisplay | lib/TouchInterface/TouchInterface.cpp:187-195 | the display point always lies in [0, 319] × [0, 239] |
| TouchInterface.CDiv | lib/TouchInterface/TouchInterface.cpp:189-190 | defines C integer division, which truncates toward zero (`CDivMonotone`) |
| TouchInterface.ArduinoMap | lib/TouchInterface/TouchInterface.cpp:189-190 | defines ESP32 `map()`: -1 for an empty input range, otherwise the truncating linear interpolation (`MapMonotone`, `DegenerateCalibration`) |
| TouchInterface.Constrain | lib/TouchInterface/TouchInterface.cpp:193-194 | defines Arduino `constrain()`, the clamp that bounds the display point (`ConvertTouchToDisplay`) |
| TouchInterface.Contains | lib/TouchInterface/TouchInterface.cpp:179-180 | defines the hit test on a closed rectangle (`FirstHitIsLowest`) |
| TouchInterface.DefaultCalibrationCorners | lib/TouchInterface/TouchInterface.cpp:187-195 | with the default calibration the raw corners map to the display corners |
| TouchInterface.DegenerateCalibration | lib/TouchInterface/TouchInterface.cpp:187-195 | an empty calibration range maps every touch to (0, 0) |
| TouchInterface.MapMonotone | lib/TouchInterface/TouchInterface.cpp:189-190 | the range mapping is monotone |
| TouchInterface.CDivMonotone | lib/TouchInterface/TouchInterface.cpp:189-190 | truncating division by a positive number is monotone |
| TouchInterface.FirstHit | lib/TouchInterface/TouchInterface.cpp:177-185 | the hit is -1 or an index of the searched range |
| TouchInterface.FirstHitIsLowest | lib/TouchInterface/TouchInterface.cpp:177-185 | -1 iff no rectangle contains the point. Otherwise the lowest index whose closed rectangle contains it |
| TouchInterface.Released | lib/TouchInterface/TouchInterface.cpp:165-172 | every button is kept except its pressed flag, which is cleared |
| TouchInterface.TouchRegistry.constructor | lib/TouchInterface/TouchInterface.cpp:4-24 | empty registry of the given capacity, default calibration, no touch |
| TouchInterface.TouchRegistry.AddButton | lib/TouchInterface/TouchInterface.cpp:38-56 | when full, -1 and nothing changes. Otherwise the old count is returned, the new enabled, unpressed button is appended, and only that slot of the array is written |
| TouchInterface.TouchRegistry.RemoveButton | lib/TouchInterface/TouchInterface.cpp:58-68 | out-of-range indices change nothing. Otherwise exactly that entry is removed and the later ones keep their order |
| TouchInterface.TouchRegistry.UpdateButton | lib/TouchInterface/TouchInterface.cpp:70-79 | in range, only the label and colours of that entry change. Otherwise nothing changes |
| TouchInterface.TouchRegistry.SetButtonEnabled | lib/TouchInterface/TouchInterface.cpp:81-88 | in range, only the enabled flag of that entry changes. Otherwise nothing changes |
| TouchInterface.TouchRegistry.ClearButtons | lib/TouchInterface/TouchInterface.cpp:226-228 | the registry is empty |
| TouchInterface.TouchRegistry.SetCalibration | lib/TouchInterface/TouchInterface.cpp:197-207 | the calibration is replaced |
| TouchInterface.TouchRegistry.GetButtonData | lib/TouchInterface/TouchInterface.cpp:230-235 | the entry's callback data in range, -1 otherwise |
| TouchInterface.TouchRegistry.GetButtonAt | lib/TouchInterface/TouchInterface.cpp:177-185 | -1 iff no registered rectangle contains the point. Otherwise the lowest such index |
| TouchInterface.TouchRegistry.ProcessTouch | lib/TouchInterface/TouchInterface.cpp:128-175 | for given effects of the callback and of onProfileSelect on the registry, the registry, touch state and calls are those of `Touch` |
| TouchInterface.TouchRegistry.PressButton | lib/TouchInterface/TouchInterface.cpp:145-158 | the registry and calls are those of `Press`: the callback runs first, then the slot is read again for the profile selection |
| TouchInterface.TouchRegistry.Handle | lib/UIManager/UIManager.cpp:87-98 | a screen switch leaves exactly the new screen's buttons in use, as addButton stores them up to the capacity. Every slot past the new count keeps what it held |
| TouchInterface.Added | lib/TouchInterface/TouchInterface.cpp:38-56 | clearButtons and then addButton per screen button give the first min(screen, capacity) of them, unpressed and enabled |
| TouchInterface.Press | lib/TouchInterface/TouchInterface.cpp:145-158 | defines the press of one button: set pressed, run the callback with its effect, then select a profile by the data the slot holds afterwards (`TouchCallsOnlyOnNewTouch`, `RebuildDropsPress`) |
| TouchInterface.DataAfterCallback | lib/TouchInterface/TouchInterface.cpp:149-157 | the reference for the data line 154 reads: the new screen's data when the callback rebuilt that slot, otherwise the touched button's own data |
| TouchInterface.TouchRegistry.ReleaseAll | lib/TouchInterface/TouchInterface.cpp:165-172 | every registered button becomes unpressed and is otherwise kept |
| TouchInterface.Touch | lib/TouchInterface/TouchInterface.cpp:138-174 | defines one touch sample. A new pressed touch presses the enabled button hit and runs its callback, which may rebuild the registry. It then selects a profile if the data read back from that slot is >= 0. A held touch only moves the touch point, and no touch releases every button (`TouchCallsOnlyOnNewTouch`, `HeldTouchIsQuiet`, `NoTouchReleasesAll`, `TouchKeepsRegistrySize`, `RebuildDropsPress`) |
| TouchInterface.TouchCallsOnlyOnNewTouch | lib/TouchInterface/TouchInterface.cpp:138-164 | calls happen only on a new, pressed touch that hits an enabled button: its callback if it has one, then the profile selection if the data its slot holds after the callback is not negative. That data is the rebuilt screen's at that slot, or else the button's own |
| TouchInterface.DefaultDataSelectsProfileZero | lib/TouchInterface/TouchInterface.cpp:157-160 | a button added with the default data 0 and no callback selects profile 0 |
| TouchInterface.ProfileIsOnAfter | lib/UIManager/UIManager.cpp:299-313 | defines the profile flag after the UI handlers of the calls: onProfileSelect sets it, the stop button's callback clears it |
| TouchInterface.CallbackButtonSelectsProfileZero | lib/TouchInterface/TouchInterface.cpp:149-158 | the button has a callback and the default data 0, and its callback either keeps the registry or switches to a screen whose buttons all carry data 0. Then a new touch calls the callback and selects profile 0, so touching STOP leaves the profile on |
| TouchInterface.NoProfileDataOnlyCalls | lib/TouchInterface/TouchInterface.cpp:149-158 | with -1 as the default data, for the button and for the screen its callback switches to, the same touch only calls the callback, and touching STOP turns the profile off |
| TouchInterface.StopTouchRestartsProfile | lib/UIManager/UIManager.cpp:185-248 | touching STOP on the running screen: onStopReflow switches to the main screen, whose slot 0 (Start) holds data 0, so profile 0 is selected, the running screen comes back and the profile is on |
| TouchInterface.RebuildDropsPress | lib/TouchInterface/TouchInterface.cpp:145-157 | when the touched button's callback rebuilds the registry, the buttons in use are a rebuilt screen and none of them is pressed |
| TouchInterface.HeldTouchIsQuiet | lib/TouchInterface/TouchInterface.cpp:142-166 | a held touch makes no call and changes no button |
| TouchInterface.NoTouchReleasesAll | lib/TouchInterface/TouchInterface.cpp:165-174 | with no touch every button is unpressed and otherwise kept, the touch state is cleared and nothing is called |
| TouchInterface.TouchKeepsRegistrySize | lib/TouchInterface/TouchInterface.cpp:138-166 | when no handler rebuilds the registry, a touch keeps its size and changes at most one button. Otherwise the registry is a screen a handler rebuilt |
| Ota.IndexOf | lib/OTA/OTA.cpp:90 | the first position of the character at or after the start, or -1 if there is none |
| Ota.ScanFrom | lib/OTA/OTA.cpp:89-97 | defines the do-while scan from an index: the segment up to the next dot or the end, and another pass only when a dot was found and the new index is below length - 1 (`ScanFromIsDotFreeSlice`, `SelectedSegmentExamples`) |
| Ota.ScanFromIsDotFreeSlice | lib/OTA/OTA.cpp:89-97 | every segment the scan selects is a slice of the version string without a dot |
| Ota.Substring | lib/OTA/OTA.cpp:92-94 | within bounds, the slice between the two positions. It is never longer than the string |
| Ota.SelectedSegment | lib/OTA/OTA.cpp:81-97 | the selected word is a dot-free slice of the version string |
| Ota.ScanVersion | lib/OTA/OTA.cpp:81-97 | the do-while scan returns exactly the selected segment, and terminates |
| Ota.NoDotSelectsWhole | lib/OTA/OTA.cpp:90-93 | a version without a dot is taken whole |
| Ota.SelectedSegmentExamples | lib/OTA/OTA.cpp:81-97 | "1.0" selects "1", "1.10" selects "10", "0.3.0.0" selects its third segment, "1.2.3" selects "2" |
| Ota.LeadingDigits | lib/OTA/OTA.cpp:113-114 | the longest all-digit prefix |
| Ota.SkipSpace | lib/OTA/OTA.cpp:113-114 | the suffix after the leading white space |
| Ota.Decimal | lib/OTA/OTA.cpp:113-114 | a nonempty string of digits |
| Ota.DecimalValue | lib/OTA/OTA.cpp:113-114 | the digits of a number read back as that number |
| Ota.AllDigitsLead | lib/OTA/OTA.cpp:113-114 | an all-digit string is its own leading digits |
| Ota.ToInt | lib/OTA/OTA.cpp:113-114 | defines `String::toInt` as `atol`: leading white space, an optional sign, then the longest run of digits, and 0 without a number (`ToIntDecimal`, `ToIntWithoutDigits`) |
| Ota.ToIntDecimal | lib/OTA/OTA.cpp:113-114 | toInt reads a written number back |
| Ota.ToIntWithoutDigits | lib/OTA/OTA.cpp:113-114 | toInt of a string that starts with no number is 0 |
| Ota.NewerOnServer | lib/OTA/OTA.cpp:113-126 | defines the decision: the server's selected segment read as a number exceeds the current one's (`NewerOnServerIsStrict`, `OneCharMinorSkipped`) |
| Ota.NewerOnServerIsStrict | lib/OTA/OTA.cpp:119-126 | identical versions never report an update, and newer is asymmetric |
| Ota.OneCharMinorSkipped | lib/OTA/OTA.cpp:96-97 | "1.5" and "1.6" both select "1", so "1.6" is not seen as newer than "1.5" |
| Ota.OneCharMinorSegment | lib/OTA/OTA.cpp:96-97 | any "x.y" version with a one-character second part selects x |
| Ota.LastSegment | lib/OTA/OTA.cpp:89-97 | the corrected selection: a dot-free suffix, preceded by a dot unless it is the whole string |
| Ota.NewerLastSegment | lib/OTA/OTA.cpp:113-126 | the corrected decision: the server's last segment read as a number exceeds the current one's (`LastSegmentDetectsMinor`) |
| Ota.LastSegmentOfDotted | lib/OTA/OTA.cpp:89-97 | the corrected selection of prefix.tail is tail |
| Ota.LastSegmentDetectsMinor | lib/OTA/OTA.cpp:113-126 | with the corrected selection, major.a to major.b with a < b is an update |
| Ota.OtaClient.constructor | lib/OTA/OTA.cpp:3-9 | URLs and version as given, no server version, no update available, error callback present |
| Ota.OtaClient.CheckForUpdate | lib/OTA/OTA.cpp:11-14 | the server version is replaced only on HTTP 200. The update flag is then the comparison of the current and server versions |
| Ota.OtaClient.PerformUpdate | lib/OTA/OTA.cpp:16-24 | the firmware update is started iff an update is available. Otherwise "No update available" is reported when there is an error callback |
| Ota.OtaClient.IsUpdateAvailable | lib/OTA/OTA.cpp:26-28 | the update flag |
| Ota.OtaClient.SetVersionUrl | lib/OTA/OTA.cpp:30-32 | only the version URL is replaced |
| Ota.OtaClient.SetFirmwareUrl | lib/OTA/OTA.cpp:34-36 | only the firmware URL is replaced |
| Ota.OtaClient.SetCurrentVersion | lib/OTA/OTA.cpp:38-40 | only the current version is replaced |
| Ota.OtaClient.SetUpdateErrorCallback | lib/OTA/OTA.cpp:50-52 | only the presence of the error callback is replaced |
| Ota.OtaClient.ParseVersion | lib/OTA/OTA.cpp:80-127 | the update flag is set iff the server's selected number exceeds the current one |
| ProfileManager.Le16 | lib/ProfileManager/ProfileManager.h:12-29 | a 16-bit field takes two bytes |
| ProfileManager.Words | lib/ProfileManager/ProfileManager.h:12-29 | n words take 2n bytes |
| ProfileManager.ReadWords | lib/ProfileManager/ProfileManager.h:12-29 | 2n bytes read as n words |
| ProfileManager.WordsRoundTrip | lib/ProfileManager/ProfileManager.h:12-29 | reading written words gives them back |
| ProfileManager.ReadWordsRoundTrip | lib/ProfileManager/ProfileManager.h:12-29 | writing read words gives the bytes back |
| ProfileManager.ProfileBytes | lib/ProfileManager/ProfileManager.h:12-29 | a profile's image is 218 bytes |
| ProfileManager.DecodeProfile | lib/ProfileManager/ProfileManager.h:12-29 | any 218 bytes read as a well-sized profile |
| ProfileManager.DecodeEncode | lib/ProfileManager/ProfileManager.h:12-29 | reading a profile's image gives the profile |
| ProfileManager.EncodeDecode | lib/ProfileManager/ProfileManager.h:12-29 | writing a read image gives the bytes |
| ProfileManager.FitsPrefix | lib/ProfileManager/ProfileManager.cpp:19-26 | a strided write that fits stays in bounds for its prefixes |
| ProfileManager.Strided | lib/ProfileManager/ProfileManager.cpp:19-26 | a strided write keeps the buffer length |
| ProfileManager.StridedByOne | lib/ProfileManager/ProfileManager.cpp:19-26 | with multiplier 1 the value is copied to the front of the buffer |
| ProfileManager.StridedByZero | lib/ProfileManager/ProfileManager.cpp:19-26 | with multiplier 0 only byte 0 changes, to the value's last byte |
| ProfileManager.ConvertToByte | lib/ProfileManager/ProfileManager.cpp:19-26 | byte i of the value goes to position multiplier × i, and the value's size is returned |
| ProfileManager.LoadAcceptsOneRecord | lib/ProfileManager/ProfileManager.cpp:177-207 | a stored record is accepted iff it is exactly one profile long. There is no data iff its length is 0 |
| ProfileManager.LoadCheck | lib/ProfileManager/ProfileManager.cpp:177-207 | defines the checks on the stored length: no data when 0, wrong size when not a multiple of 218, not one record when more than one (`LoadAcceptsOneRecord`) |
| ProfileManager.SavedImage | lib/ProfileManager/ProfileManager.cpp:136-139 | the saved image is 218 bytes |
| ProfileManager.SavedImageIsScratch | lib/ProfileManager/ProfileManager.cpp:136-139 | the saved image is the stale buffer with only byte 0 changed, to the profile's last byte. It reads back as the profile only if it is the profile's image |
| ProfileManager.SavedImageLosesTitle | lib/ProfileManager/ProfileManager.cpp:136-139 | a profile whose second title byte differs from the stale buffer does not survive a save |
| ProfileManager.IntendedImage | lib/ProfileManager/ProfileManager.cpp:136-139 | the corrected save stores the profile's image, which passes the load check and reads back as the profile |
| ProfileManager.SingleCharacterComparison | lib/ProfileManager/ProfileManager.cpp:238-246 | for any profile index below 32, equal title characters at that index count as a match even when the profiles differ |
| ProfileManager.TitlesMatchAt | lib/ProfileManager/ProfileManager.cpp:239 | defines the comparison as written: the two titles' characters at the profile index (`SingleCharacterComparison`) |
| ProfileManager.SameProfile | lib/ProfileManager/ProfileManager.cpp:238-246 | the corrected comparison: the two 218-byte images are equal (`SameProfileIsEquality`) |
| ProfileManager.SameProfileIsEquality | lib/ProfileManager/ProfileManager.cpp:238-246 | the corrected comparison matches iff the profiles are equal |
| ProfileManager.ProfileStore.constructor | lib/ProfileManager/ProfileManager.cpp:8-11 | the store holds the given flash records and selection |
| ProfileManager.ProfileStore.StoredLength | lib/ProfileManager/ProfileManager.cpp:177 | defines the length `getBytes` reports: the stored record's length, 0 when the namespace holds nothing |
| ProfileManager.ProfileStore.SaveProfiles | lib/ProfileManager/ProfileManager.cpp:132-166 | the record at the index becomes the saved image, and no other record changes |
| ProfileManager.ProfileStore.LoadProfiles | lib/ProfileManager/ProfileManager.cpp:169-218 | the outcome is the length check of the stored record. Only when the record is loaded is that profile slot replaced, by its decoding |
| ProfileManager.ProfileStore.CompareProfiles | lib/ProfileManager/ProfileManager.cpp:238-246 | the result is a match iff the title characters at the index agree. On no match the new profile is saved there |
| ProfileManager.ProfileStore.SaveSelectedProfile | lib/ProfileManager/ProfileManager.cpp:221-227 | the selection becomes the index |
| ProfileManager.ProfileStore.GetSelectedProfile | lib/ProfileManager/ProfileManager.cpp:230-235 | the stored selection, or 0 when none is stored |
| ProfileManager.MaskOrder | lib/ProfileManager/ProfileManager.cpp:414-441 | the nine masks in listing order |
| ProfileManager.ActiveTexts | lib/ProfileManager/ProfileManager.cpp:414-441 | the texts for set masks among the first n are fault texts, at most n of them |
| ProfileManager.TextsOfMasks | lib/ProfileManager/ProfileManager.cpp:414-441 | the texts for set masks are fault texts, at most one per mask |
| ProfileManager.ActiveTextsNext | lib/ProfileManager/ProfileManager.cpp:414-441 | mask n adds its text at the end iff it intersects the fault |
| ProfileManager.TerminatedIsJoinPlusSeparator | lib/ProfileManager/ProfileManager.cpp:414-443 | appending text + ", " for each part is the ", " join followed by one separator |
| ProfileManager.ActiveTextsStep | lib/ProfileManager/ProfileManager.cpp:414-441 | each check appends its text and ", " iff its mask intersects the fault |
| ProfileManager.NoActiveTexts | lib/ProfileManager/ProfileManager.cpp:414-441 | no text is listed iff no mask intersects the fault |
| ProfileManager.Join | lib/ProfileManager/ProfileManager.cpp:411-449 | defines the parts separated by ", " (`JoinEnds`, `TerminatedIsJoinPlusSeparator`) |
| ProfileManager.FaultDescription | lib/ProfileManager/ProfileManager.cpp:411-449 | defines the description: the joined texts of the set masks in their fixed order, or "No Fault" (`DescriptionNoFault`, `EveryFaultListed`) |
| ProfileManager.TextsStartWithCapital | lib/ProfileManager/ProfileManager.cpp:414-441 | every fault text is nonempty and ends in neither ' ' nor ',' |
| ProfileManager.JoinEnds | lib/ProfileManager/ProfileManager.cpp:442-444 | a join starts with the first part's first character and ends with the last part's last character |
| ProfileManager.DescriptionNoFault | lib/ProfileManager/ProfileManager.cpp:442-446 | the description is "No Fault" iff no mask intersects the fault. It never ends in a separator |
| ProfileManager.EveryFaultListed | lib/ProfileManager/ProfileManager.cpp:414-441 | when all masks are set the texts are listed in the fixed order Open, Short VCC, Short GND, Short Data, Alert 1-4, Die Temp |
| ProfileManager.AppendFault | lib/ProfileManager/ProfileManager.cpp:414-441 | one check extends the partial description by exactly its contribution |
| ProfileManager.Mcp9600Manager.constructor | lib/ProfileManager/ProfileManager.cpp:269-272 | the address as given, sensor uninitialised |
| ProfileManager.Mcp9600Manager.Begin | lib/ProfileManager/ProfileManager.cpp:285-301 | the sensor is initialised iff the driver found it |
| ProfileManager.Mcp9600Manager.ReadThermocoupleTemperature | lib/ProfileManager/ProfileManager.cpp:304-320 | -999 when uninitialised or faulted, the raw reading otherwise |
| ProfileManager.Mcp9600Manager.ReadAmbientTemperature | lib/ProfileManager/ProfileManager.cpp:323-330 | the raw reading when initialised, -999 otherwise |
| ProfileManager.Mcp9600Manager.Configure | lib/ProfileManager/ProfileManager.cpp:333-390 | a setter succeeds iff the sensor is initialised and the driver succeeds |
| ProfileManager.Mcp9600Manager.CheckFault | lib/ProfileManager/ProfileManager.cpp:393-399 | a fault iff uninitialised or the driver reports one |
| ProfileManager.Mcp9600Manager.GetFaultStatus | lib/ProfileManager/ProfileManager.cpp:402-408 | the driver's fault bits when initialised, 0xFF otherwise |
| ProfileManager.Mcp9600Manager.GetFaultDescription | lib/ProfileManager/ProfileManager.cpp:411-449 | the successive appends and the final trim build exactly the joined description, or "No Fault" |
| ProfileManager.Mcp9600Manager.IsConnected | lib/ProfileManager/ProfileManager.cpp:452-454 | defines the connection query: whether the sensor was initialised by `Begin` |

## Left out

- The PID computation is not part of this model: its library is not among the sources. The
  tick records which set-up, tuning and `Compute` calls are made, and takes the controller
  `output` as a tick input in [0, 2000].
- Hardware access becomes inputs and outputs. Pin reads and writes become levels. `millis()`
  becomes one `now` value per tick, which never decreases. MCP9600 reads become the tick's
  reading parameter, and I2C driver results become parameters of the manager's methods.
  `Serial` output is left out.
- Wrap-around of the Arduino `unsigned long` clock is not modelled: `now` is an unbounded
  natural number. The code compares absolute times with `>`, which is not wrap-safe either.
- Temperatures, setpoint and output are `real`, not `double`. Only comparisons and ±5 steps
  are made, so nothing is lost. The display-only truncation `inputInt` and its logging are
  left out.
- `profileIsOn` is written by the UI between ticks, so the tick takes it as the input
  `profileRequest`. The tick's own clearing of it, in Complete, is modelled.
- Only the debouncer's own AXIS_X read is modelled. The second read of that axis by
  `readAnalogButtons` in the same loop pass is not, so in the model the debouncer's CHECK
  state never sees a second fresh edge (`NoPressFromDebouncerAlone`).
- The buttons' `event1`, `event2` and callback dispatch (ButtonNav.cpp:314-503) and the
  example sketch are left out. Callbacks become emitted events or UI calls, and
  `verboseOutput` logging is dropped.
- `ButtonHandler`'s six parallel arrays are modelled as one array of per-button records.
- `ButtonHandler.ReadAnalogButtons` models the code as written. That includes the unguarded
  horizontal decrement; the guarded variant is `NavigateGuarded`.
- Of the callback pointers, the navigation's three (`loopScreen`, `mainMenuScreen`,
  `UpdateSettingsPointer`) are modelled as presence flags set by `SetMainCallbacks`; the other
  twenty-three pointers of `setMainCallbacks`, and `setEvent1Callback` and `setEvent2Callback`,
  are left out with the dispatch that uses them. `src/main.cpp` never calls `setMainCallbacks`,
  so in that firmware the navigation moves the pointer without any UI call
  (`NullCallbacksMakeNoCalls`).
- ButtonNav.ButtonHandler.Begin: its requires asks for at least min(numButtons, 10) pins. It
  excludes the call at `src/main.cpp:166`, which passes three pins with `numDigButtons`
  computed as `sizeof` of the pin array (12, a byte count), so `begin` would read past the
  array there; that read is not modelled.
- The effect of UIManager's `onProfileSelect` and `onStopReflow` on `profileIsOn` is modelled
  by `ProfileIsOnAfter`, and the rest of UIManager is not.
- TouchInterface.TouchRegistry.ProcessTouch and TouchInterface.Touch: what the touched button's
  callback and `onProfileSelect` do to the registry is a parameter of each: keep it, or switch
  screens, which is clearButtons and then one addButton per button of the new screen
  (UIManager.cpp:87-98). The callbacks themselves are not modelled, and neither is which
  screen each one switches to. Line 154 re-reads the slot after the callback. So the data of
  the profile selection is the rebuilt screen's at that slot, or the button's own when the
  new screen is shorter, and the press set at line 145 does not survive a rebuild.
  `StopTouchRestartsProfile` fixes the running and main screens of UIManager.cpp:185-196 and
  239-248 as constants.
- Display and UI code is not part of this model: LCD, UIManager, and TouchInterface's drawing,
  `begin` and `getTouchPoint`.
- Arduino `map()` follows the ESP32 core: truncating division, and -1 for an empty input
  range. Its source is not part of this model.
- JSON profile parsing (`parseJsonProfile`) and `printProfileInfo` are left out.
- The Preferences storage behind `saveProfiles`, `loadProfiles` and `saveSelectedProfile` is
  modelled as a map from index to stored bytes plus an optional selection.
- `sizeof(profile_t)` is taken as 218 bytes: 16-bit alignment, no trailing padding, and
  little-endian fields.
- The MCP9600 fault masks are library constants that are not among the sources. They are a
  parameter of nine bytes.
- `Mcp9600Manager.Configure` stands for the six setters of ProfileManager.cpp:333-390, which
  share one shape.
- `printSensorInfo`, `reset` and `begin()` without a bus are left out.
- The OTA HTTP request (`getVersion`), `updateFirmware`, `ESP.restart` and the start/success
  callback setters are left out. The HTTP result is a parameter of `CheckForUpdate`, and the
  firmware update is an opaque action.
- `Ota.ToInt`: the 32-bit overflow of `toInt` on very long digit strings is not modelled.
  Strings with embedded NUL characters are not distinguished.
- `setup`, `listDir`, `readFile`, `wifiSetup` and `updatePreferences` (src/main.cpp:132-388) are
  left out. So is setup's call of `loadProfiles` with an already-offset array pointer: only
  the values at src/main.cpp:234-245 are kept.
- `TEMPERATURE_REFLOW_MAX` is declared but no guard reads it. The model carries the constant
  and uses it nowhere.
- The duplicate two-state enums in ButtonNav.h:62-70 are not modelled; Reflow_logic.h's are.

## Findings

| source | as written | input that shows it | evidently intended | confidence | as-written member | corrected member |
|---|---|---|---|---|---|---|
| lib/OTA/OTA.cpp:96-97 | the scan stops when the next index reaches `length - 1`, so a final segment of one character is never read | current "1.5", server "1.6": both select "1", no update | compare the last (minor) segment | not executed | Ota.OneCharMinorSkipped | Ota.LastSegmentDetectsMinor |
| lib/ProfileManager/ProfileManager.cpp:139 | `convert_to_byte(profile, content, 0)` writes every byte to `content[0]` | any profile whose second title byte is not the stale buffer's | copy the image with stride 1 | not executed | ProfileManager.SavedImageLosesTitle | ProfileManager.IntendedImage |
| lib/ProfileManager/ProfileManager.cpp:239 | only `title[profileIndex]` is compared | two profiles whose titles agree at the profile index and whose stages differ | compare the whole profile | not executed | ProfileManager.SingleCharacterComparison | ProfileManager.SameProfileIsEquality |
| lib/ButtonNav/ButtonNav.cpp:289 | the horizontal Y-up branch decrements without the `> 0` guard | horizontal board, pointer 0, Y-axis edge code 2: pointer -1 | guard it like the other upward steps | not executed | ButtonNav.HorizontalUpLeavesRange | ButtonNav.NavigateGuardedKeepsPointerInRange |
| lib/TouchInterface/TouchInterface.h:59 | `addButton` defaults `callbackData` to 0, and `processTouch` selects a profile for any data >= 0 read from the slot after the callback | touching STOP (`UIManager.cpp:245`): onStopReflow clears `profileIsOn` and switches to the main screen. Slot 0 is then Start, also added with the default 0, so onProfileSelect(0) sets the flag again. The defect is latent: `src/main.cpp` never builds a TouchInterface or UIManager, and the `uiManager` that UIManager.h:95 declares `extern` is defined in none of the sources modelled here | default to -1, so that buttons added without data select no profile | not executed | TouchInterface.CallbackButtonSelectsProfileZero | TouchInterface.NoProfileDataOnlyCalls |
