/** The reflow tick of src/main.cpp (reflow_main) as pure functions over a snapshot of the
    controller's globals, one function per stage, composed in the order the tick runs them.
    The snapshot groups the globals by the stage that owns them, so that a stage's function
    visibly leaves every other group alone. */
module ReflowSpec {
  import opened ReflowLogic
  import opened Joystick

  /** Relay window length set in setup. */
  const WindowSize: nat := 2000
  /** Threshold of the AXIS_X joystick object the debouncer reads. */
  const AxisXThreshold: int := 512
  /** The sensor's error reading. */
  const ErrorReading: real := -999.0
  /** Plausibility window of a reading. */
  const ReadingMin: real := -200.0
  const ReadingMax: real := 1000.0
  /** Heartbeat period and completion-buzzer duration. */
  const HeartbeatPeriod: nat := 1000
  const BuzzerDuration: nat := 1000
  /** The stage names the tick publishes in activeStatus. */
  const LabelIdle: string := "Idle"
  const LabelPreheat: string := "Preheat"
  const LabelSoak: string := "Soak"
  const LabelReflow: string := "Reflow"
  const LabelCool: string := "Cool"
  const LabelComplete: string := "Complete"

  /** The three stage boundaries of the active profile the tick reads
      (stages_preheat_1, stages_soak_1, stages_reflow_1; uint16 in the source). */
  datatype Profile = Profile(preheat: nat, soak: nat, reflow: nat)

  /** A call the tick makes on the PID object; its arithmetic is not modelled. */
  datatype PidCall =
    | SetOutputLimits(lo: real, hi: real)
    | SetSampleTime(ms: nat)
    | SetModeAutomatic
    | SetTunings(gains: Gains)
    | Compute

  /** What one tick consumes: the clock, the sensor reading (used only when a sample is due),
      one AXIS_X sample, the profile flag as the UI left it, the PID output and the profile. */
  datatype Inputs = Inputs(now: nat, reading: real, axisSample: int, profileRequest: bool,
                           output: real, profile: Profile)

  /** The variables of the reflow switch; the buzzer is its pin level. */
  datatype RunVars = RunVars(
    reflowState: ReflowState,
    reflowStatus: ReflowStatus,
    activeStatus: string,
    setpoint: real,
    timerSoak: nat,
    buzzerPeriod: nat,
    windowStartTime: nat,
    timerSeconds: int,
    buzzer: bool,
    profileIsOn: bool,
    disableMenu: bool)

  /** The sensor schedule, the last reading and the sticky fault flag. */
  datatype SensorVars = SensorVars(nextRead: nat, input: real, isFault: bool)

  /** The heartbeat schedule and the LED level. */
  datatype BeatVars = BeatVars(nextCheck: nat, led: bool)

  /** The two samples of the AXIS_X object and its threshold. */
  datatype AxisVars = AxisVars(threshold: int, lastValue: int, currentValue: int)

  /** The debouncer's variables and the axis it samples. */
  datatype DebounceVars = DebounceVars(debounceState: DebounceState, switchStatus: Switch,
                                       lastDebounceTime: nat, axis: AxisVars)

  /** The globals reflow_main reads and writes, and the relay level. */
  datatype Ctl = Ctl(run: RunVars, sensor: SensorVars, beat: BeatVars, deb: DebounceVars, ssr: bool)

  /** The result of a stage that may call into the PID object. */
  datatype Stepped = Stepped(next: Ctl, pid: seq<PidCall>)

  /** The reflow switch's result: its variables and its PID calls. */
  datatype Switched = Switched(run: RunVars, pid: seq<PidCall>)

  /** The controller right after setup at time `now0`; `led` is the start-up LED level. */
  function Initial(now0: nat, led: bool): (c: Ctl)
    ensures c.run.reflowState == Idle && c.run.reflowStatus == StatusOff
    ensures c.deb.debounceState == DebounceIdle && c.deb.switchStatus == SwitchNone
    ensures c.run.timerSeconds == 0 && c.sensor.nextRead == now0 && c.beat.nextCheck == now0
    ensures !c.ssr && !c.run.buzzer
  {
    Ctl(RunVars(Idle, StatusOff, "", 0.0, 0, 0, 0, 0, false, false, false),
        SensorVars(now0, 0.0, false),
        BeatVars(now0, led),
        DebounceVars(DebounceIdle, SwitchNone, 0, AxisVars(AxisXThreshold, 0, 0)),
        false)
  }

  /** Stage 1: fixed-period sensor sampling and the error-reading check. */
  function Sample(c: Ctl, now: nat, reading: real): Ctl
  {
    if now > c.sensor.nextRead then
      var sensor := SensorVars(c.sensor.nextRead + SensorSamplingTime, reading,
                               c.sensor.isFault || reading < ReadingMin || reading > ReadingMax);
      if reading == ErrorReading then
        c.(sensor := sensor, run := c.run.(reflowState := Error, reflowStatus := StatusOff))
      else c.(sensor := sensor)
    else c
  }

  /** Stage 2: the one-second heartbeat; counts seconds and blinks the LED while heating. */
  function Heartbeat(c: Ctl, now: nat): Ctl
  {
    if now > c.beat.nextCheck then
      if c.run.reflowStatus == StatusOn then
        c.(beat := BeatVars(c.beat.nextCheck + HeartbeatPeriod, !c.beat.led),
           run := c.run.(timerSeconds := c.run.timerSeconds + 1))
      else c.(beat := BeatVars(c.beat.nextCheck + HeartbeatPeriod, false))
    else c
  }

  /** Stage 3: the reflow state switch, which changes only the run variables. */
  function StateMachine(c: Ctl, now: nat, p: Profile): Stepped
  {
    var s := ReflowSwitch(c.run, c.sensor.input, now, p);
    Stepped(c.(run := s.run), s.pid)
  }

  /** The reflow switch over the run variables, given the last reading. */
  function ReflowSwitch(r: RunVars, input: real, now: nat, p: Profile): Switched
  {
    match r.reflowState
    case Idle => IdleCase(r, input, now, p)
    case Preheat => PreheatCase(r, input, now, p)
    case Soak => SoakCase(r, now, p)
    case Reflow => ReflowCase(r, input, p)
    case Cool => CoolCase(r, input, now)
    case Complete => CompleteCase(r, now)
    case TooHot =>
      if input < TemperatureRoom as real then Switched(r.(reflowState := Idle), [])
      else Switched(r, [])
    case Error =>
      if input == ErrorReading then Switched(r, [])
      else Switched(r.(reflowState := Idle), [])
  }

  /** Idle: wait for the oven to be cool and a profile to be requested, then start it. */
  function IdleCase(r: RunVars, input: real, now: nat, p: Profile): Switched
  {
    var r1 := r.(activeStatus := LabelIdle);
    if input >= TemperatureRoom as real then Switched(r1.(reflowState := TooHot), [])
    else if r.profileIsOn then
      Switched(r1.(timerSeconds := 0, windowStartTime := now, setpoint := p.preheat as real,
                   reflowState := Preheat),
               [SetOutputLimits(0.0, WindowSize as real), SetSampleTime(PidSampleTime), SetModeAutomatic])
    else Switched(r1, [])
  }

  /** Preheat: heat towards the preheat temperature, then arm the soak ramp. */
  function PreheatCase(r: RunVars, input: real, now: nat, p: Profile): Switched
  {
    var r1 := r.(activeStatus := LabelPreheat, reflowStatus := StatusOn);
    if input >= p.preheat as real then
      Switched(r1.(timerSoak := now + SoakMicroPeriod,
                   setpoint := (p.preheat + SoakTemperatureStep) as real, reflowState := Soak),
               [SetTunings(SoakGains)])
    else Switched(r1, [])
  }

  /** Soak: raise the setpoint one step per micro period, then aim for the reflow peak. */
  function SoakCase(r: RunVars, now: nat, p: Profile): Switched
  {
    var r1 := r.(activeStatus := LabelSoak);
    if now > r.timerSoak then
      var stepped := r.setpoint + SoakTemperatureStep as real;
      var r2 := r1.(timerSoak := now + SoakMicroPeriod, setpoint := stepped);
      if stepped > p.soak as real then
        Switched(r2.(setpoint := p.reflow as real, reflowState := Reflow), [SetTunings(ReflowGains)])
      else Switched(r2, [])
    else Switched(r1, [])
  }

  /** Reflow: near the peak, aim for the cooling floor (the peak is uint16, the
      subtraction is done in int). */
  function ReflowCase(r: RunVars, input: real, p: Profile): Switched
  {
    var r1 := r.(activeStatus := LabelReflow);
    if input >= (p.reflow as int - 5) as real then
      Switched(r1.(setpoint := TemperatureCoolMin as real, reflowState := Cool), [SetTunings(ReflowGains)])
    else Switched(r1, [])
  }

  /** Cool: at the floor, stop heating and sound the buzzer. */
  function CoolCase(r: RunVars, input: real, now: nat): Switched
  {
    var r1 := r.(activeStatus := LabelCool);
    if input <= TemperatureCoolMin as real then
      Switched(r1.(buzzerPeriod := now + BuzzerDuration, buzzer := true, reflowStatus := StatusOff,
                   reflowState := Complete), [])
    else Switched(r1, [])
  }

  /** Complete: after the buzzer period, silence it and release the UI. */
  function CompleteCase(r: RunVars, now: nat): Switched
  {
    var r1 := r.(activeStatus := LabelComplete);
    if now > r.buzzerPeriod then
      Switched(r1.(buzzer := false, reflowState := Idle, profileIsOn := false, disableMenu := false), [])
    else Switched(r1, [])
  }

  /** Stage 4: a debounced press cancels a running profile. */
  function Cancel(c: Ctl): Ctl
  {
    if c.deb.switchStatus == Switch1 && c.run.reflowStatus == StatusOn then
      c.(run := c.run.(reflowStatus := StatusOff, reflowState := Idle))
    else c
  }

  /** Stage 5: the debouncer, which changes only its own variables. */
  function Debounce(c: Ctl, now: nat, sample: int): Ctl
  {
    c.(deb := DebounceStep(c.deb, now, sample))
  }

  /** The debouncer's step: every state first reads one AXIS_X sample, then looks at the
      axis's edge code. */
  function DebounceStep(d: DebounceVars, now: nat, sample: int): DebounceVars
  {
    var d1 := d.(axis := d.axis.(lastValue := d.axis.currentValue, currentValue := sample));
    var code := PressCode(d.axis.threshold, d.axis.currentValue, sample);
    match d.debounceState
    case DebounceIdle =>
      var d2 := d1.(switchStatus := SwitchNone);
      if code == 1 then d2.(lastDebounceTime := now, debounceState := DebounceCheck) else d2
    case DebounceCheck =>
      if code == 1 then
        if now as int - d.lastDebounceTime > DebouncePeriodMin then d1.(debounceState := DebounceRelease)
        else d1
      else d1.(debounceState := DebounceIdle)
    case DebounceRelease =>
      if code > 0 then d1.(switchStatus := Switch1, debounceState := DebounceIdle) else d1
  }

  /** Stage 6: PID compute and the time-proportioning relay window. */
  function Relay(c: Ctl, now: nat, output: real): Stepped
  {
    if c.run.reflowStatus == StatusOn then
      var start := if now as int - c.run.windowStartTime > WindowSize then c.run.windowStartTime + WindowSize
                   else c.run.windowStartTime;
      Stepped(c.(run := c.run.(windowStartTime := start), ssr := output > (now as int - start) as real),
              [Compute])
    else Stepped(c.(ssr := false), [])
  }

  /** The state after the first two stages (the one the reflow switch sees). */
  function Sensed(c: Ctl, i: Inputs): Ctl
  {
    Heartbeat(Sample(c.(run := c.run.(profileIsOn := i.profileRequest)), i.now, i.reading), i.now)
  }

  /** One whole tick: the six stages in order; the PID calls in the order they are made. */
  function Step(c: Ctl, i: Inputs): Stepped
  {
    var switched := StateMachine(Sensed(c, i), i.now, i.profile);
    var debounced := Debounce(Cancel(switched.next), i.now, i.axisSample);
    var relayed := Relay(debounced, i.now, i.output);
    Stepped(relayed.next, switched.pid + relayed.pid)
  }

  /** The loop step: the tick is skipped while the UI is in its output-test screen (state 9). */
  function LoopStep(c: Ctl, uiState: int, i: Inputs): Stepped
  {
    if uiState != 9 then Step(c, i) else Stepped(c, [])
  }

  /** The state after a sequence of ticks. */
  function Run(c: Ctl, ins: seq<Inputs>): Ctl
    decreases |ins|
  {
    if ins == [] then c else Run(Step(c, ins[0]).next, ins[1..])
  }
}
