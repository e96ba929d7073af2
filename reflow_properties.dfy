/** Properties of the reflow tick (ReflowSpec): one lemma group per stage, then invariants
    of whole runs. */
module ReflowProperties {
  import opened ReflowLogic
  import opened Joystick
  import opened ReflowSpec

  // ---------------------------------------------------------------------------
  // Stage 1: sampling

  /** A sample is taken only when it is due; it then moves the schedule by exactly one
      sampling period and replaces the reading. */
  lemma SampleSchedule(c: Ctl, now: nat, reading: real)
    ensures now <= c.sensor.nextRead ==> Sample(c, now, reading) == c
    ensures now > c.sensor.nextRead ==>
      Sample(c, now, reading).sensor.nextRead == c.sensor.nextRead + 1000 && Sample(c, now, reading).sensor.input == reading
  {
  }

  /** A due reading of exactly -999 stops the heater on the very tick it arrives: the tick
      ends in Error with the status Off, the relay LOW and no PID call. */
  lemma ErrorReadingStopsHeater(c: Ctl, i: Inputs)
    requires i.now > c.sensor.nextRead && i.reading == ErrorReading
    ensures Step(c, i).next.run.reflowState == Error
    ensures Step(c, i).next.run.reflowStatus == StatusOff
    ensures !Step(c, i).next.ssr && Step(c, i).pid == []
  {
    ErrorTick(c, i);
  }

  /** The whole effect of a due -999 reading on the run variables. */
  lemma ErrorTick(c: Ctl, i: Inputs)
    requires i.now > c.sensor.nextRead && i.reading == ErrorReading
    ensures Step(c, i).next.run ==
            c.run.(profileIsOn := i.profileRequest, reflowState := Error, reflowStatus := StatusOff)
    ensures !Step(c, i).next.ssr && Step(c, i).pid == []
  {
    var c1 := Sample(c.(run := c.run.(profileIsOn := i.profileRequest)), i.now, i.reading);
    assert c1.run == c.run.(profileIsOn := i.profileRequest, reflowState := Error, reflowStatus := StatusOff);
    assert c1.sensor.input == ErrorReading;
    var s := Heartbeat(c1, i.now);
    assert s.run == c1.run && s.sensor == c1.sensor;
    assert StateMachine(s, i.now, i.profile) == Stepped(s, []);
    OffTickTail(s, i.now, i.axisSample, i.output);
  }

  /** The last three stages of a tick whose switch left the status Off: nothing is cancelled,
      the debouncer touches only its own variables, and the relay is LOW without a PID call. */
  lemma OffTickTail(c: Ctl, now: nat, sample: int, output: real)
    requires c.run.reflowStatus == StatusOff
    ensures Relay(Debounce(Cancel(c), now, sample), now, output) ==
            Stepped(c.(deb := DebounceStep(c.deb, now, sample), ssr := false), [])
  {
  }

  /** Any other implausible reading only raises the fault flag; nothing else changes
      beyond what every due sample changes. */
  lemma ImplausibleReadingOnlyFlags(c: Ctl, now: nat, reading: real)
    requires now > c.sensor.nextRead && reading != ErrorReading
    requires reading < ReadingMin || reading > ReadingMax
    ensures Sample(c, now, reading) == c.(sensor := SensorVars(c.sensor.nextRead + SensorSamplingTime, reading, true))
  {
  }

  /** The fault flag is never cleared by a tick... */
  lemma FaultFlagStaysSet(c: Ctl, i: Inputs)
    requires c.sensor.isFault
    ensures Step(c, i).next.sensor.isFault
  {
  }

  /** ...nor by any sequence of ticks. */
  lemma {:induction false} FaultFlagStaysSetInRun(c: Ctl, ins: seq<Inputs>)
    requires c.sensor.isFault
    ensures Run(c, ins).sensor.isFault
    decreases |ins|
  {
    if ins != [] {
      FaultFlagStaysSet(c, ins[0]);
      FaultFlagStaysSetInRun(Step(c, ins[0]).next, ins[1..]);
    }
  }

  // ---------------------------------------------------------------------------
  // Stage 2: heartbeat

  /** The seconds counter advances by one per due heartbeat while the status is On, and only
      then; with the status Off a due heartbeat drives the LED LOW. */
  lemma HeartbeatCountsOnlyWhileOn(c: Ctl, now: nat)
    ensures Heartbeat(c, now).run.timerSeconds ==
            c.run.timerSeconds + (if now > c.beat.nextCheck && c.run.reflowStatus == StatusOn then 1 else 0)
    ensures now > c.beat.nextCheck && c.run.reflowStatus == StatusOff ==> !Heartbeat(c, now).beat.led
    ensures now > c.beat.nextCheck ==> Heartbeat(c, now).beat.nextCheck == c.beat.nextCheck + HeartbeatPeriod
  {
  }

  // ---------------------------------------------------------------------------
  // Stage 3: the reflow switch

  /** Idle: too warm to start goes to TooHot. */
  lemma IdleTooHot(c: Ctl, now: nat, p: Profile)
    requires c.run.reflowState == Idle && c.sensor.input >= TemperatureRoom as real
    ensures StateMachine(c, now, p).next.run.reflowState == TooHot
    ensures StateMachine(c, now, p).pid == []
  {
  }

  /** Idle, cool enough and asked to start: the profile starts. The setpoint is the preheat
      temperature, the relay window opens now, the seconds counter restarts, the PID is
      configured and switched on, and the status is left as it was. */
  lemma IdleStartsProfile(c: Ctl, now: nat, p: Profile)
    requires c.run.reflowState == Idle && c.sensor.input < TemperatureRoom as real && c.run.profileIsOn
    ensures var s := StateMachine(c, now, p);
      s.next.run.reflowState == Preheat && s.next.run.setpoint == p.preheat as real &&
      s.next.run.windowStartTime == now && s.next.run.timerSeconds == 0 &&
      s.next.run.reflowStatus == c.run.reflowStatus &&
      s.pid == [SetOutputLimits(0.0, 2000.0), SetSampleTime(1000), SetModeAutomatic]
  {
  }

  /** Idle, cool enough, not asked to start: only the status text is written. */
  lemma IdleWaits(c: Ctl, now: nat, p: Profile)
    requires c.run.reflowState == Idle && c.sensor.input < TemperatureRoom as real && !c.run.profileIsOn
    ensures StateMachine(c, now, p) == Stepped(c.(run := c.run.(activeStatus := "Idle")), [])
  {
  }

  /** Preheat switches the status On on every tick and enters Soak exactly when the preheat
      temperature is reached, one soak step above it, with the soak gains. */
  lemma PreheatStage(c: Ctl, now: nat, p: Profile)
    requires c.run.reflowState == Preheat
    ensures StateMachine(c, now, p).next.run.reflowStatus == StatusOn
    ensures StateMachine(c, now, p).next.run.reflowState == Soak <==> c.sensor.input >= p.preheat as real
    ensures c.sensor.input >= p.preheat as real ==>
      StateMachine(c, now, p).next.run.setpoint == p.preheat as real + 5.0 &&
      StateMachine(c, now, p).next.run.timerSoak == now + 9000 &&
      StateMachine(c, now, p).pid == [SetTunings(Gains(300.0, 0.05, 250.0))]
    ensures c.sensor.input < p.preheat as real ==>
      StateMachine(c, now, p) == Stepped(c.(run := c.run.(activeStatus := "Preheat", reflowStatus := StatusOn)), [])
  {
  }

  /** Soak: while it stays in Soak the setpoint never decreases; a due micro period adds
      exactly 5 and re-arms the timer; passing the soak temperature jumps to the reflow peak
      with the reflow gains. */
  lemma SoakStage(c: Ctl, now: nat, p: Profile)
    requires c.run.reflowState == Soak
    ensures var s := StateMachine(c, now, p).next;
      s.run.reflowState == Soak ==> s.run.setpoint >= c.run.setpoint
    ensures now <= c.run.timerSoak ==> StateMachine(c, now, p).next == c.(run := c.run.(activeStatus := "Soak"))
    ensures now > c.run.timerSoak && c.run.setpoint + 5.0 <= p.soak as real ==>
      StateMachine(c, now, p).next.run.reflowState == Soak &&
      StateMachine(c, now, p).next.run.setpoint == c.run.setpoint + 5.0 &&
      StateMachine(c, now, p).next.run.timerSoak == now + 9000
    ensures StateMachine(c, now, p).next.run.reflowState == Reflow <==>
      now > c.run.timerSoak && c.run.setpoint + 5.0 > p.soak as real
    ensures StateMachine(c, now, p).next.run.reflowState == Reflow ==>
      StateMachine(c, now, p).next.run.setpoint == p.reflow as real &&
      StateMachine(c, now, p).pid == [SetTunings(Gains(300.0, 0.05, 350.0))]
  {
  }

  /** Reflow: within 5 degrees of the peak the controller aims for the cooling floor. */
  lemma ReflowStage(c: Ctl, now: nat, p: Profile)
    requires c.run.reflowState == Reflow
    ensures StateMachine(c, now, p).next.run.reflowState == Cool <==> c.sensor.input >= p.reflow as real - 5.0
    ensures c.sensor.input >= p.reflow as real - 5.0 ==>
      StateMachine(c, now, p).next.run.setpoint == 50.0 &&
      StateMachine(c, now, p).pid == [SetTunings(ReflowGains)]
    ensures StateMachine(c, now, p).next.run.reflowStatus == c.run.reflowStatus
  {
  }

  /** Cool: at or below the floor the run completes; the heater stops and the buzzer sounds
      for one second. */
  lemma CoolStage(c: Ctl, now: nat, p: Profile)
    requires c.run.reflowState == Cool
    ensures StateMachine(c, now, p).next.run.reflowState == Complete <==> c.sensor.input <= 50.0
    ensures c.sensor.input <= 50.0 ==>
      var s := StateMachine(c, now, p).next;
      s.run.reflowStatus == StatusOff && s.run.buzzer && s.run.buzzerPeriod == now + 1000
  {
  }

  /** Complete: once the buzzer period has passed the buzzer stops and the controller returns
      to Idle with the profile flag and the menu lock cleared. */
  lemma CompleteStage(c: Ctl, now: nat, p: Profile)
    requires c.run.reflowState == Complete
    ensures StateMachine(c, now, p).next.run.reflowState == Idle <==> now > c.run.buzzerPeriod
    ensures now > c.run.buzzerPeriod ==>
      var s := StateMachine(c, now, p).next;
      !s.run.buzzer && !s.run.profileIsOn && !s.run.disableMenu
  {
  }

  /** TooHot and Error: each is left for Idle exactly when its condition clears, and neither
      writes the status text or anything but the state. */
  lemma HoldingStates(c: Ctl, now: nat, p: Profile)
    requires c.run.reflowState == TooHot || c.run.reflowState == Error
    ensures c.run.reflowState == TooHot ==>
      (StateMachine(c, now, p).next.run.reflowState == Idle <==> c.sensor.input < 50.0)
    ensures c.run.reflowState == Error ==>
      (StateMachine(c, now, p).next.run.reflowState == Idle <==> c.sensor.input != -999.0)
    ensures StateMachine(c, now, p).next == c.(run := c.run.(reflowState := StateMachine(c, now, p).next.run.reflowState))
    ensures StateMachine(c, now, p).pid == []
  {
  }

  /** The room threshold and the cooling floor are the same 50 degrees: a run may complete at
      exactly 50, and Idle at exactly 50 goes straight to TooHot. */
  lemma CoolFloorIsTooHotForIdle(c: Ctl, now: nat, p: Profile)
    requires c.sensor.input == TemperatureCoolMin as real
    ensures c.run.reflowState == Cool ==> StateMachine(c, now, p).next.run.reflowState == Complete
    ensures c.run.reflowState == Idle ==> StateMachine(c, now, p).next.run.reflowState == TooHot
  {
  }

  // ---------------------------------------------------------------------------
  // The soak ramp

  /** The reflow switch alone, run once at each of the given times. */
  function SwitchRun(c: Ctl, times: seq<nat>, p: Profile): Ctl
    decreases |times|
  {
    if times == [] then c else SwitchRun(StateMachine(c, times[0], p).next, times[1..], p)
  }

  /** Each time is past the soak timer armed by the previous one (the first past `t0`). */
  predicate SoakDue(t0: nat, times: seq<nat>)
    decreases |times|
  {
    times == [] || (times[0] > t0 && SoakDue(times[0] + SoakMicroPeriod, times[1..]))
  }

  /** k due soak ticks that stay at or below the soak temperature raise the setpoint by
      exactly 5k and stay in Soak. */
  lemma {:induction false} SoakRamp(c: Ctl, times: seq<nat>, p: Profile)
    requires c.run.reflowState == Soak && SoakDue(c.run.timerSoak, times)
    requires c.run.setpoint + (5 * |times|) as real <= p.soak as real
    ensures SwitchRun(c, times, p).run.reflowState == Soak
    ensures SwitchRun(c, times, p).run.setpoint == c.run.setpoint + (5 * |times|) as real
    decreases |times|
  {
    if times != [] {
      var c1 := StateMachine(c, times[0], p).next;
      assert c1.run.reflowState == Soak && c1.run.setpoint == c.run.setpoint + 5.0;
      assert c1.run.timerSoak == times[0] + SoakMicroPeriod;
      SoakRamp(c1, times[1..], p);
    }
  }

  /** The worked example: with the profile {preheat 100, soak 150, reflow 183} the soak
      starts at 105, nine due steps reach 150 still in Soak, and the tenth (155 > 150)
      jumps to the reflow peak 183. */
  lemma SoakExample(c: Ctl, times: seq<nat>, last: nat)
    requires c.run.reflowState == Soak && c.run.setpoint == 105.0
    requires |times| == 9 && SoakDue(c.run.timerSoak, times) && last > times[8] + SoakMicroPeriod
    ensures SwitchRun(c, times, Profile(100, 150, 183)).run.reflowState == Soak
    ensures SwitchRun(c, times, Profile(100, 150, 183)).run.setpoint == 150.0
    ensures StateMachine(SwitchRun(c, times, Profile(100, 150, 183)), last, Profile(100, 150, 183)).next.run.reflowState == Reflow
    ensures StateMachine(SwitchRun(c, times, Profile(100, 150, 183)), last, Profile(100, 150, 183)).next.run.setpoint == 183.0
  {
    var p := Profile(100, 150, 183);
    SoakRamp(c, times, p);
    SoakTimerAfterRamp(c, times, p);
  }

  /** After a non-empty soak ramp the timer is armed from the last time. */
  lemma {:induction false} SoakTimerAfterRamp(c: Ctl, times: seq<nat>, p: Profile)
    requires c.run.reflowState == Soak && SoakDue(c.run.timerSoak, times) && times != []
    requires c.run.setpoint + (5 * |times|) as real <= p.soak as real
    ensures SwitchRun(c, times, p).run.timerSoak == times[|times| - 1] + SoakMicroPeriod
    decreases |times|
  {
    var c1 := StateMachine(c, times[0], p).next;
    if |times| > 1 {
      SoakTimerAfterRamp(c1, times[1..], p);
    }
  }

  /** Entering Soak from Preheat with the example profile starts the ramp at 105. */
  lemma SoakExampleStart(c: Ctl, now: nat)
    requires c.run.reflowState == Preheat && c.sensor.input >= 100.0
    ensures StateMachine(c, now, Profile(100, 150, 183)).next.run.reflowState == Soak
    ensures StateMachine(c, now, Profile(100, 150, 183)).next.run.setpoint == 105.0
  {
  }

  // ---------------------------------------------------------------------------
  // Stage 4: cancel

  /** A debounced press cancels a running profile; cancel never touches the profile flag and
      does nothing while the status is Off. */
  lemma CancelStage(c: Ctl)
    ensures Cancel(c).run.profileIsOn == c.run.profileIsOn
    ensures c.run.reflowStatus == StatusOff ==> Cancel(c) == c
    ensures c.deb.switchStatus == Switch1 && c.run.reflowStatus == StatusOn ==>
      Cancel(c).run.reflowState == Idle && Cancel(c).run.reflowStatus == StatusOff
  {
  }

  /** The cancel check of a tick sees the switch value the previous tick's debouncer left:
      with no press pending, the tick's state is the reflow switch's, whatever the debouncer
      reports during the tick. */
  lemma SwitchTakesEffectNextTick(c: Ctl, i: Inputs)
    requires c.deb.switchStatus == SwitchNone
    ensures Step(c, i).next.run.reflowState == StateMachine(Sensed(c, i), i.now, i.profile).next.run.reflowState
    ensures Step(c, i).next.run.reflowStatus == StateMachine(Sensed(c, i), i.now, i.profile).next.run.reflowStatus
  {
  }

  /** With a press pending, a tick whose reflow switch leaves the status On is cancelled. */
  lemma PendingPressCancels(c: Ctl, i: Inputs)
    requires c.deb.switchStatus == Switch1
    requires StateMachine(Sensed(c, i), i.now, i.profile).next.run.reflowStatus == StatusOn
    ensures Step(c, i).next.run.reflowState == Idle && Step(c, i).next.run.reflowStatus == StatusOff
    ensures !Step(c, i).next.ssr
  {
  }

  // ---------------------------------------------------------------------------
  // Stage 5: the debouncer

  /** IDLE clears the switch and arms CHECK on an upward edge, recording the time. */
  lemma DebounceFromIdle(c: Ctl, now: nat, sample: int)
    requires c.deb.debounceState == DebounceIdle
    ensures Debounce(c, now, sample).deb.switchStatus == SwitchNone
    ensures Debounce(c, now, sample).deb.debounceState == DebounceCheck <==>
      sample > c.deb.axis.threshold && c.deb.axis.currentValue <= c.deb.axis.threshold
    ensures Debounce(c, now, sample).deb.debounceState == DebounceCheck ==>
      Debounce(c, now, sample).deb.lastDebounceTime == now
  {
  }

  /** CHECK goes on to RELEASE only on a second upward edge more than 50 ms later, and falls
      back to IDLE on anything but an upward edge. */
  lemma DebounceFromCheck(c: Ctl, now: nat, sample: int)
    requires c.deb.debounceState == DebounceCheck
    ensures Debounce(c, now, sample).deb.debounceState == DebounceRelease <==>
      PressCode(c.deb.axis.threshold, c.deb.axis.currentValue, sample) == 1 && now as int - c.deb.lastDebounceTime > 50
    ensures Debounce(c, now, sample).deb.debounceState == DebounceIdle <==>
      PressCode(c.deb.axis.threshold, c.deb.axis.currentValue, sample) != 1
    ensures Debounce(c, now, sample).deb.switchStatus == c.deb.switchStatus
  {
  }

  /** RELEASE reports the press and returns to IDLE on any edge. */
  lemma DebounceFromRelease(c: Ctl, now: nat, sample: int)
    requires c.deb.debounceState == DebounceRelease
    ensures Debounce(c, now, sample).deb.switchStatus == Switch1 <==>
      PressCode(c.deb.axis.threshold, c.deb.axis.currentValue, sample) > 0 || c.deb.switchStatus == Switch1
    ensures PressCode(c.deb.axis.threshold, c.deb.axis.currentValue, sample) > 0 ==>
      Debounce(c, now, sample).deb.debounceState == DebounceIdle
  {
  }

  /** The debouncer's own samples can never produce a press: CHECK is entered just after a
      sample above the threshold, so the next sample cannot be an upward edge. */
  ghost predicate DebouncerQuiet(c: Ctl)
  {
    c.deb.debounceState != DebounceRelease && c.deb.switchStatus == SwitchNone &&
    (c.deb.debounceState == DebounceCheck ==> c.deb.axis.currentValue > c.deb.axis.threshold)
  }

  lemma DebounceKeepsQuiet(c: Ctl, now: nat, sample: int)
    requires DebouncerQuiet(c)
    ensures DebouncerQuiet(Debounce(c, now, sample))
  {
  }

  lemma StepKeepsQuiet(c: Ctl, i: Inputs)
    requires DebouncerQuiet(c)
    ensures DebouncerQuiet(Step(c, i).next)
  {
    var switched := StateMachine(Sensed(c, i), i.now, i.profile).next;
    assert switched.deb == c.deb;
    DebounceKeepsQuiet(Cancel(switched), i.now, i.axisSample);
  }

  /** From power-up, no sequence of ticks ever delivers SWITCH_1 when the debouncer is the only
      reader of the axis. */
  lemma {:induction false} NoPressFromDebouncerAlone(c: Ctl, ins: seq<Inputs>)
    requires DebouncerQuiet(c)
    ensures Run(c, ins).deb.switchStatus == SwitchNone
    ensures Run(c, ins).deb.debounceState != DebounceRelease
    decreases |ins|
  {
    if ins != [] {
      StepKeepsQuiet(c, ins[0]);
      NoPressFromDebouncerAlone(Step(c, ins[0]).next, ins[1..]);
    }
  }

  lemma InitialQuiet(now0: nat, led: bool)
    ensures DebouncerQuiet(Initial(now0, led))
  {
  }

  // ---------------------------------------------------------------------------
  // Stage 6: the relay window

  /** With the status Off the relay is LOW and the PID is not computed. With it On the window
      moves by exactly one window length, at most once, when it has expired, and the relay is
      HIGH exactly when the PID output exceeds the time elapsed in the window. */
  lemma RelayStage(c: Ctl, now: nat, output: real)
    ensures c.run.reflowStatus == StatusOff ==> !Relay(c, now, output).next.ssr && Relay(c, now, output).pid == []
    ensures c.run.reflowStatus == StatusOn ==>
      var r := Relay(c, now, output).next;
      (r.run.windowStartTime == c.run.windowStartTime || r.run.windowStartTime == c.run.windowStartTime + 2000) &&
      (r.run.windowStartTime == c.run.windowStartTime + 2000 <==> now as int - c.run.windowStartTime > 2000) &&
      (r.ssr <==> output > (now as int - r.run.windowStartTime) as real) &&
      Relay(c, now, output).pid == [Compute]
    ensures var r := Relay(c, now, output).next;
      r.sensor == c.sensor && r.beat == c.beat && r.deb == c.deb &&
      r.run == c.run.(windowStartTime := r.run.windowStartTime)
  {
  }

  // ---------------------------------------------------------------------------
  // Invariants of whole runs

  /** The stages in which the status may be On. */
  predicate RunStage(s: ReflowState)
  {
    s == Preheat || s == Soak || s == Reflow || s == Cool
  }

  /** The status is On only in a run stage, and always On past Preheat. */
  predicate StatusFitsStage(r: RunVars)
  {
    (r.reflowStatus == StatusOn ==> RunStage(r.reflowState)) &&
    (r.reflowState == Soak || r.reflowState == Reflow || r.reflowState == Cool ==> r.reflowStatus == StatusOn)
  }

  /** The above, and a reported press lasts only while the debouncer is idle. */
  predicate StatusMatchesStage(c: Ctl)
  {
    StatusFitsStage(c.run) && (c.deb.switchStatus == Switch1 ==> c.deb.debounceState == DebounceIdle)
  }

  /** The invariant between ticks: the above, and the relay is LOW whenever the status is Off. */
  predicate Inv(c: Ctl)
  {
    StatusMatchesStage(c) && (c.run.reflowStatus == StatusOff ==> !c.ssr)
  }

  lemma SensedKeepsStatus(c: Ctl, i: Inputs)
    requires StatusMatchesStage(c)
    ensures StatusMatchesStage(Sensed(c, i))
  {
  }

  /** The reflow switch turns the status On only in Preheat and Off only on leaving Cool, so
      the status keeps fitting the stage. */
  lemma SwitchKeepsStatus(r: RunVars, input: real, now: nat, p: Profile)
    requires StatusFitsStage(r)
    ensures StatusFitsStage(ReflowSwitch(r, input, now, p).run)
  {
    match r.reflowState
    case Idle =>
      assert r.reflowStatus == StatusOff;
    case Preheat =>
    case Soak =>
    case Reflow =>
    case Cool =>
    case Complete =>
      assert r.reflowStatus == StatusOff;
    case TooHot =>
    case Error =>
  }

  lemma StateMachineKeepsStatus(c: Ctl, now: nat, p: Profile)
    requires StatusMatchesStage(c)
    ensures StatusMatchesStage(StateMachine(c, now, p).next)
  {
    SwitchKeepsStatus(c.run, c.sensor.input, now, p);
  }

  lemma StepKeepsInv(c: Ctl, i: Inputs)
    requires Inv(c)
    ensures Inv(Step(c, i).next)
  {
    SensedKeepsStatus(c, i);
    StateMachineKeepsStatus(Sensed(c, i), i.now, i.profile);
  }

  lemma {:induction false} RunKeepsInv(c: Ctl, ins: seq<Inputs>)
    requires Inv(c)
    ensures Inv(Run(c, ins))
    decreases |ins|
  {
    if ins != [] {
      StepKeepsInv(c, ins[0]);
      RunKeepsInv(Step(c, ins[0]).next, ins[1..]);
    }
  }

  /** After any sequence of ticks from power-up the heater relay is LOW unless a profile is
      in one of its heating stages, and the status is On past Preheat. */
  lemma HeaterOffOutsideRun(now0: nat, led: bool, ins: seq<Inputs>)
    ensures !RunStage(Run(Initial(now0, led), ins).run.reflowState) ==> !Run(Initial(now0, led), ins).ssr
    ensures !RunStage(Run(Initial(now0, led), ins).run.reflowState) ==>
      Run(Initial(now0, led), ins).run.reflowStatus == StatusOff
  {
    RunKeepsInv(Initial(now0, led), ins);
  }

  /** The tick that starts a profile leaves the heater off: the status only turns On in the
      Preheat case of the next tick, so the only PID calls are the three configuration calls. */
  lemma ProfileStartTick(c: Ctl, i: Inputs)
    requires Inv(c)
    requires Sensed(c, i).run.reflowState == Idle && Sensed(c, i).sensor.input < 50.0 && i.profileRequest
    ensures Step(c, i).next.run.reflowState == Preheat && Step(c, i).next.run.reflowStatus == StatusOff
    ensures !Step(c, i).next.ssr
    ensures Step(c, i).pid == [SetOutputLimits(0.0, 2000.0), SetSampleTime(1000), SetModeAutomatic]
  {
    SensedKeepsStatus(c, i);
  }

  // ---------------------------------------------------------------------------
  // The completion buzzer

  /** A -999 reading while the buzzer sounds in Complete moves the controller to Error, and
      neither Error nor the Idle it returns to ever drives the buzzer LOW again. */
  lemma BuzzerStaysOnAfterErrorInComplete(c: Ctl, i: Inputs, j: Inputs)
    requires c.run.reflowState == Complete && c.run.buzzer && Inv(c)
    requires i.now > c.sensor.nextRead && i.reading == ErrorReading
    requires j.now > Step(c, i).next.sensor.nextRead && j.reading == 20.0
    ensures Step(c, i).next.run.reflowState == Error && Step(c, i).next.run.buzzer
    ensures Step(Step(c, i).next, j).next.run.reflowState == Idle
    ensures Step(Step(c, i).next, j).next.run.buzzer
  {
    ErrorTick(c, i);
    var e := Step(c, i).next;
    var c1 := Sample(e.(run := e.run.(profileIsOn := j.profileRequest)), j.now, j.reading);
    assert c1.run == e.run.(profileIsOn := j.profileRequest) && c1.sensor.input == 20.0;
    var s := Heartbeat(c1, j.now);
    assert s.run == c1.run && s.sensor == c1.sensor;
    assert StateMachine(s, j.now, j.profile).next.run == s.run.(reflowState := Idle);
    OffTickTail(StateMachine(s, j.now, j.profile).next, j.now, j.axisSample, j.output);
  }

  // ---------------------------------------------------------------------------
  // The loop gate

  /** In the UI's output-test screen the tick does not run at all. */
  lemma OutputTestScreenSkipsTick(c: Ctl, i: Inputs)
    ensures LoopStep(c, 9, i) == Stepped(c, [])
    ensures forall ui: int :: ui != 9 ==> LoopStep(c, ui, i) == Step(c, i)
  {
  }
}
