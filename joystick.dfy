/** The analog joystick axis of lib/ButtonNav/ButtonNav.h: a two-sample threshold-crossing detector. */
module Joystick {

  /** Full scale of the 10-bit analog reading the axis compares against. */
  const AnalogFullScale: int := 1023
  const DefaultThreshold: int := 512

  // Button configuration constants of the header (a count, and milliseconds)
  const MaxDigitalButtons: nat := 10
  const DebounceTime: nat := 50
  const HoldTime: nat := 1000

  /** Edge code of an axis whose previous and current samples are `last` and `current`:
      1 for an upward crossing of `threshold`, 2 for a downward crossing of the mirrored
      threshold `1023 - threshold`, 0 otherwise. */
  function PressCode(threshold: int, last: int, current: int): (r: int)
    ensures 0 <= r <= 2
    ensures r == 1 <==> current > threshold && last <= threshold
    ensures r == 2 <==> !(current > threshold && last <= threshold)
                        && current < AnalogFullScale - threshold && last >= AnalogFullScale - threshold
  {
    if current > threshold && last <= threshold then 1
    else if current < AnalogFullScale - threshold && last >= AnalogFullScale - threshold then 2
    else 0
  }

  /** Two equal consecutive samples never report a press. */
  lemma SteadyAxisReportsNothing(threshold: int, v: int)
    ensures PressCode(threshold, v, v) == 0
  {
  }

  class JoystickAxis {
    const pin: int
    const threshold: int
    var lastValue: int
    var currentValue: int

    constructor (axisPin: int, pressThreshold: int)
      ensures pin == axisPin && threshold == pressThreshold
      ensures lastValue == 0 && currentValue == 0
    {
      pin := axisPin;
      threshold := pressThreshold;
      lastValue := 0;
      currentValue := 0;
    }

    /** Shifts the current sample into `lastValue` and stores the new analog sample. */
    method ReadAxis(sample: int)
      modifies this
      ensures lastValue == old(currentValue) && currentValue == sample
    {
      lastValue := currentValue;
      currentValue := sample;
    }

    /** The edge code of the two stored samples; reads the fields, changes none. */
    function WasAxisPressed(): int
      reads this
    {
      PressCode(threshold, lastValue, currentValue)
    }
  }

  /** A freshly built axis with the default threshold reports a press on the first sample
      above 512 and nothing when the same sample is read again. */
  method FirstPressThenRepeat(sample: int) returns (first: int, second: int)
    requires sample > DefaultThreshold
    ensures first == 1 && second == 0
  {
    var axis := new JoystickAxis(0, DefaultThreshold);
    axis.ReadAxis(sample);
    first := axis.WasAxisPressed();
    axis.ReadAxis(sample);
    second := axis.WasAxisPressed();
  }
}
