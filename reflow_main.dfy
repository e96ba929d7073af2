/** The reflow controller of src/main.cpp: the globals reflow_main updates, as the fields of one
    object, and the tick as a method that updates them stage by stage. Each stage method is proved
    against the matching stage function of ReflowSpec, so Tick is proved against ReflowSpec.Step. */
module ReflowMain {
  import opened ReflowLogic
  import opened Joystick
  import opened ReflowSpec

  class ReflowController {
    var reflowState: ReflowState
    var reflowStatus: ReflowStatus
    var input: real
    var setpoint: real
    var nextRead: nat
    var nextCheck: nat
    var timerSoak: nat
    var buzzerPeriod: nat
    var windowStartTime: nat
    var timerSeconds: int
    var debounceState: DebounceState
    var switchStatus: Switch
    var lastDebounceTime: nat
    var profileIsOn: bool
    var disableMenu: bool
    var isFault: bool
    var activeStatus: string
    // Pin levels (true is HIGH)
    var ssr: bool
    var buzzer: bool
    var led: bool
    /** The AXIS_X joystick object the debouncer samples. */
    const axisX: JoystickAxis
    /** The clock value of the last tick; the clock never goes backwards. */
    ghost var lastNow: nat

    /** Recorded times never lie in the future. */
    ghost predicate Valid()
      reads this
    {
      windowStartTime <= lastNow && lastDebounceTime <= lastNow
    }

    /** The recorded times and the clock are as they were. */
    twostate predicate UnchangedTimes()
      reads this
    {
      windowStartTime == old(windowStartTime) && lastDebounceTime == old(lastDebounceTime) &&
      lastNow == old(lastNow)
    }

    /** The abstract value of the globals. */
    function Snapshot(): Ctl
      reads this, axisX
    {
      Ctl(RunVars(reflowState, reflowStatus, activeStatus, setpoint, timerSoak, buzzerPeriod,
                  windowStartTime, timerSeconds, buzzer, profileIsOn, disableMenu),
          SensorVars(nextRead, input, isFault),
          BeatVars(nextCheck, led),
          DebounceVars(debounceState, switchStatus, lastDebounceTime,
                       AxisVars(axisX.threshold, axisX.lastValue, axisX.currentValue)),
          ssr)
    }

    /** The values setup leaves at time `now0` (globals not assigned there are zero). */
    constructor (now0: nat, ledLevel: bool)
      ensures Valid() && lastNow == now0 && fresh(axisX)
      ensures Snapshot() == Initial(now0, ledLevel)
    {
      reflowState, reflowStatus := Idle, StatusOff;
      input, setpoint := 0.0, 0.0;
      nextRead, nextCheck := now0, now0;
      timerSoak, buzzerPeriod, windowStartTime := 0, 0, 0;
      timerSeconds := 0;
      debounceState, switchStatus, lastDebounceTime := DebounceIdle, SwitchNone, 0;
      profileIsOn, disableMenu, isFault := false, false, false;
      activeStatus := "";
      ssr, buzzer, led := false, false, ledLevel;
      axisX := new JoystickAxis(0, AxisXThreshold);
      lastNow := now0;
    }

    /** One call of reflow_main at time i.now. */
    method Tick(i: Inputs) returns (pid: seq<PidCall>)
      requires Valid() && i.now >= lastNow
      requires 0.0 <= i.output <= WindowSize as real
      modifies this, axisX
      ensures Valid() && lastNow == i.now
      ensures Snapshot() == Step(old(Snapshot()), i).next
      ensures pid == Step(old(Snapshot()), i).pid
    {
      lastNow := i.now;
      Sense(i);
      var switchCalls := RunStateMachine(i.now, i.profile);
      CheckCancel();
      RunDebouncer(i.now, i.axisSample);
      var relayCalls := DriveRelay(i.now, i.output);
      pid := switchCalls + relayCalls;
    }

    /** One pass of loop(): the tick runs unless the UI is in its output-test screen. */
    method LoopStep(uiState: int, i: Inputs) returns (pid: seq<PidCall>)
      requires Valid() && i.now >= lastNow
      requires 0.0 <= i.output <= WindowSize as real
      modifies this, axisX
      ensures Valid()
      ensures Snapshot() == ReflowSpec.LoopStep(old(Snapshot()), uiState, i).next
      ensures pid == ReflowSpec.LoopStep(old(Snapshot()), uiState, i).pid
    {
      if uiState != 9 {
        pid := Tick(i);
      } else {
        pid := [];
      }
    }

    /** The first two stages, after the UI's profile flag is taken over. */
    method Sense(i: Inputs)
      modifies this
      ensures Snapshot() == Sensed(old(Snapshot()), i)
      ensures UnchangedTimes()
    {
      profileIsOn := i.profileRequest;
      SampleSensor(i.now, i.reading);
      BeatHeart(i.now);
    }

    method SampleSensor(now: nat, reading: real)
      modifies this
      ensures UnchangedTimes()
      ensures Snapshot() == Sample(old(Snapshot()), now, reading)
    {
      if now > nextRead {
        nextRead := nextRead + SensorSamplingTime;
        input := reading;
        if input < ReadingMin || input > ReadingMax {
          isFault := true;
        }
        if input == ErrorReading {
          reflowState := Error;
          reflowStatus := StatusOff;
        }
      }
    }

    method BeatHeart(now: nat)
      modifies this
      ensures Snapshot() == Heartbeat(old(Snapshot()), now)
      ensures UnchangedTimes()
    {
      if now > nextCheck {
        nextCheck := nextCheck + HeartbeatPeriod;
        if reflowStatus == StatusOn {
          led := !led;
          timerSeconds := timerSeconds + 1;
        } else {
          led := false;
        }
      }
    }

    method RunStateMachine(now: nat, p: Profile) returns (calls: seq<PidCall>)
      requires Valid() && now == lastNow
      modifies this
      ensures Valid() && lastNow == old(lastNow)
      ensures Snapshot() == StateMachine(old(Snapshot()), now, p).next
      ensures calls == StateMachine(old(Snapshot()), now, p).pid
    {
      match reflowState {
        case Idle => calls := IdleStage(now, p);
        case Preheat => calls := PreheatStage(now, p);
        case Soak => calls := SoakStage(now, p);
        case Reflow => calls := ReflowStage(p);
        case Cool => calls := CoolStage(now);
        case Complete => calls := CompleteStage(now);
        case TooHot =>
          calls := [];
          if input < TemperatureRoom as real {
            reflowState := Idle;
          }
        case Error =>
          calls := [];
          if input == ErrorReading {
            reflowState := Error;
          } else {
            reflowState := Idle;
          }
      }
    }

    method IdleStage(now: nat, p: Profile) returns (calls: seq<PidCall>)
      requires Valid() && now == lastNow
      modifies this
      ensures Valid() && lastNow == old(lastNow)
      ensures Snapshot() == old(Snapshot()).(run := IdleCase(old(Snapshot()).run, input, now, p).run)
      ensures calls == IdleCase(old(Snapshot()).run, input, now, p).pid
    {
      calls := [];
      activeStatus := LabelIdle;
      if input >= TemperatureRoom as real {
        reflowState := TooHot;
      } else if profileIsOn {
        calls := [SetOutputLimits(0.0, WindowSize as real), SetSampleTime(PidSampleTime), SetModeAutomatic];
        StartProfile(now, p);
      }
    }

    /** Idle to Preheat: restart the seconds counter and the relay window, aim for preheat. */
    method StartProfile(now: nat, p: Profile)
      requires Valid() && now == lastNow
      modifies this
      ensures Valid() && lastNow == old(lastNow)
      ensures Snapshot() == old(Snapshot()).(run := old(Snapshot()).run.(
                timerSeconds := 0, windowStartTime := now, setpoint := p.preheat as real,
                reflowState := Preheat))
    {
      timerSeconds := 0;
      windowStartTime := now;
      setpoint := p.preheat as real;
      reflowState := Preheat;
    }

    method PreheatStage(now: nat, p: Profile) returns (calls: seq<PidCall>)
      modifies this
      ensures UnchangedTimes()
      ensures Snapshot() == old(Snapshot()).(run := PreheatCase(old(Snapshot()).run, input, now, p).run)
      ensures calls == PreheatCase(old(Snapshot()).run, input, now, p).pid
    {
      calls := [];
      activeStatus := LabelPreheat;
      reflowStatus := StatusOn;
      if input >= p.preheat as real {
        calls := [SetTunings(SoakGains)];
        EnterSoak(now, p);
      }
    }

    /** Preheat to Soak: arm the micro-period timer and take the first soak step. */
    method EnterSoak(now: nat, p: Profile)
      modifies this
      ensures UnchangedTimes()
      ensures Snapshot() == old(Snapshot()).(run := old(Snapshot()).run.(
                timerSoak := now + SoakMicroPeriod, setpoint := (p.preheat + SoakTemperatureStep) as real,
                reflowState := Soak))
    {
      timerSoak := now + SoakMicroPeriod;
      setpoint := (p.preheat + SoakTemperatureStep) as real;
      reflowState := Soak;
    }

    method SoakStage(now: nat, p: Profile) returns (calls: seq<PidCall>)
      modifies this
      ensures UnchangedTimes()
      ensures Snapshot() == old(Snapshot()).(run := SoakCase(old(Snapshot()).run, now, p).run)
      ensures calls == SoakCase(old(Snapshot()).run, now, p).pid
    {
      calls := [];
      activeStatus := LabelSoak;
      if now > timerSoak {
        RaiseSoakSetpoint(now);
        if setpoint > p.soak as real {
          calls := [SetTunings(ReflowGains)];
          EnterReflow(p);
        }
      }
    }

    /** One soak micro period has passed: re-arm the timer and raise the setpoint one step. */
    method RaiseSoakSetpoint(now: nat)
      modifies this
      ensures UnchangedTimes()
      ensures Snapshot() == old(Snapshot()).(run := old(Snapshot()).run.(
                timerSoak := now + SoakMicroPeriod, setpoint := old(setpoint) + SoakTemperatureStep as real))
    {
      timerSoak := now + SoakMicroPeriod;
      setpoint := setpoint + SoakTemperatureStep as real;
    }

    /** Soak to Reflow: aim for the reflow peak. */
    method EnterReflow(p: Profile)
      modifies this
      ensures UnchangedTimes()
      ensures Snapshot() == old(Snapshot()).(run := old(Snapshot()).run.(
                setpoint := p.reflow as real, reflowState := Reflow))
    {
      setpoint := p.reflow as real;
      reflowState := Reflow;
    }

    method ReflowStage(p: Profile) returns (calls: seq<PidCall>)
      modifies this
      ensures UnchangedTimes()
      ensures Snapshot() == old(Snapshot()).(run := ReflowCase(old(Snapshot()).run, input, p).run)
      ensures calls == ReflowCase(old(Snapshot()).run, input, p).pid
    {
      calls := [];
      activeStatus := LabelReflow;
      if input >= (p.reflow as int - 5) as real {
        calls := [SetTunings(ReflowGains)];
        setpoint := TemperatureCoolMin as real;
        reflowState := Cool;
      }
    }

    method CoolStage(now: nat) returns (calls: seq<PidCall>)
      modifies this
      ensures UnchangedTimes()
      ensures Snapshot() == old(Snapshot()).(run := CoolCase(old(Snapshot()).run, input, now).run)
      ensures calls == CoolCase(old(Snapshot()).run, input, now).pid
    {
      calls := [];
      activeStatus := LabelCool;
      if input <= TemperatureCoolMin as real {
        FinishCooling(now);
      }
    }

    /** Cool to Complete: stop heating and start the completion buzzer. */
    method FinishCooling(now: nat)
      modifies this
      ensures UnchangedTimes()
      ensures Snapshot() == old(Snapshot()).(run := old(Snapshot()).run.(
                buzzerPeriod := now + BuzzerDuration, buzzer := true, reflowStatus := StatusOff,
                reflowState := Complete))
    {
      buzzerPeriod := now + BuzzerDuration;
      buzzer := true;
      reflowStatus := StatusOff;
      reflowState := Complete;
    }

    method CompleteStage(now: nat) returns (calls: seq<PidCall>)
      modifies this
      ensures UnchangedTimes()
      ensures Snapshot() == old(Snapshot()).(run := CompleteCase(old(Snapshot()).run, now).run)
      ensures calls == CompleteCase(old(Snapshot()).run, now).pid
    {
      calls := [];
      activeStatus := LabelComplete;
      if now > buzzerPeriod {
        ReturnToIdle();
      }
    }

    /** Complete to Idle: silence the buzzer and hand the profile flag and the menu back. */
    method ReturnToIdle()
      modifies this
      ensures UnchangedTimes()
      ensures Snapshot() == old(Snapshot()).(run := old(Snapshot()).run.(
                buzzer := false, reflowState := Idle, profileIsOn := false, disableMenu := false))
    {
      buzzer := false;
      reflowState := Idle;
      profileIsOn := false;
      disableMenu := false;
    }

    method CheckCancel()
      modifies this
      ensures Snapshot() == Cancel(old(Snapshot()))
      ensures UnchangedTimes()
    {
      if switchStatus == Switch1 {
        if reflowStatus == StatusOn {
          reflowStatus := StatusOff;
          reflowState := Idle;
        }
      }
    }

    method RunDebouncer(now: nat, sample: int)
      requires Valid() && now == lastNow
      modifies this, axisX
      ensures Valid() && lastNow == old(lastNow)
      ensures Snapshot() == Debounce(old(Snapshot()), now, sample)
    {
      match debounceState {
        case DebounceIdle => DebounceFromIdle(now, sample);
        case DebounceCheck => DebounceFromCheck(now, sample);
        case DebounceRelease => DebounceFromRelease(now, sample);
      }
    }

    method DebounceFromIdle(now: nat, sample: int)
      requires Valid() && now == lastNow && debounceState == DebounceIdle
      modifies this, axisX
      ensures Valid() && lastNow == old(lastNow)
      ensures Snapshot() == Debounce(old(Snapshot()), now, sample)
    {
      switchStatus := SwitchNone;
      axisX.ReadAxis(sample);
      if axisX.WasAxisPressed() == 1 {
        lastDebounceTime := now;
        debounceState := DebounceCheck;
      }
    }

    method DebounceFromCheck(now: nat, sample: int)
      requires Valid() && now == lastNow && debounceState == DebounceCheck
      modifies this, axisX
      ensures Valid() && lastNow == old(lastNow)
      ensures Snapshot() == Debounce(old(Snapshot()), now, sample)
    {
      axisX.ReadAxis(sample);
      if axisX.WasAxisPressed() == 1 {
        if now - lastDebounceTime > DebouncePeriodMin {
          debounceState := DebounceRelease;
        }
      } else {
        debounceState := DebounceIdle;
      }
    }

    method DebounceFromRelease(now: nat, sample: int)
      requires Valid() && now == lastNow && debounceState == DebounceRelease
      modifies this, axisX
      ensures Valid() && lastNow == old(lastNow)
      ensures Snapshot() == Debounce(old(Snapshot()), now, sample)
    {
      axisX.ReadAxis(sample);
      if axisX.WasAxisPressed() > 0 {
        switchStatus := Switch1;
        debounceState := DebounceIdle;
      }
    }

    method DriveRelay(now: nat, output: real) returns (calls: seq<PidCall>)
      requires Valid() && now == lastNow
      modifies this
      ensures Valid() && lastNow == old(lastNow)
      ensures Snapshot() == Relay(old(Snapshot()), now, output).next
      ensures calls == Relay(old(Snapshot()), now, output).pid
    {
      if reflowStatus == StatusOn {
        calls := [Compute];
        if now - windowStartTime > WindowSize {
          windowStartTime := windowStartTime + WindowSize;
        }
        ssr := output > (now - windowStartTime) as real;
      } else {
        calls := [];
        ssr := false;
      }
    }
  }
}
