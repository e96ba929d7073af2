/** Types and constants of the reflow controller (include/Reflow_logic.h). */
module ReflowLogic {

  /** The eight reflow stages, in declaration order. */
  datatype ReflowState = Idle | Preheat | Soak | Reflow | Cool | Complete | TooHot | Error

  /** Whether the heater loop is running. */
  datatype ReflowStatus = StatusOff | StatusOn

  /** States of the cancel-button debouncer. */
  datatype DebounceState = DebounceIdle | DebounceCheck | DebounceRelease

  /** Debounced switch value consumed by the cancel check. */
  datatype Switch = SwitchNone | Switch1

  /** A PID gain triple. */
  datatype Gains = Gains(kp: real, ki: real, kd: real)

  // Temperature constants (degrees Celsius)
  const TemperatureRoom: int := 50
  const TemperatureCoolMin: int := 50
  const TemperatureReflowMax: int := 250

  // Per-stage PID gains
  const PreheatGains: Gains := Gains(100.0, 0.025, 20.0)
  const SoakGains: Gains := Gains(300.0, 0.05, 250.0)
  const ReflowGains: Gains := Gains(300.0, 0.05, 350.0)

  // Timing constants (milliseconds) and the soak step (degrees Celsius)
  const PidSampleTime: nat := 1000
  const SensorSamplingTime: nat := 1000
  const SoakMicroPeriod: nat := 9000
  const SoakTemperatureStep: int := 5
  const DebouncePeriodMin: nat := 50

  /** The numeric value C assigns to each enumerator. */
  function StateIndex(s: ReflowState): (n: nat)
    ensures n < 8
  {
    match s
    case Idle => 0
    case Preheat => 1
    case Soak => 2
    case Reflow => 3
    case Cool => 4
    case Complete => 5
    case TooHot => 6
    case Error => 7
  }

  /** The enumerator with numeric value n. */
  function StateAt(n: nat): (s: ReflowState)
    requires n < 8
    ensures StateIndex(s) == n
  {
    if n == 0 then Idle
    else if n == 1 then Preheat
    else if n == 2 then Soak
    else if n == 3 then Reflow
    else if n == 4 then Cool
    else if n == 5 then Complete
    else if n == 6 then TooHot
    else Error
  }

  /** The numbering is a bijection between the eight states and 0..7. */
  lemma StateNumbering(s: ReflowState)
    ensures StateAt(StateIndex(s)) == s
  {
  }
}
