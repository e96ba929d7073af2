/** The button handler of lib/ButtonNav/ButtonNav.cpp: per-button click and hold detection over
    an array of button slots, and the settings-pointer navigation driven by the two joystick
    axes. Callbacks are modelled as the events and UI calls the handler emits. */
module ButtonNav {
  import opened Joystick

  /** The bookkeeping of one digital button (HIGH is true): the level read this call, the
      level of the previous call, the last down and up times, and the two flags. */
  datatype Button = Button(val: bool, last: bool, dnTime: nat, upTime: nat, ignoreUp: bool,
                           menuMode: bool)

  /** A slot as the constructor leaves it. */
  const ReleasedButton: Button := Button(false, false, 0, 0, false, false)

  /** event1 fires on a click, event2 on a release in menu mode; each carries the pin. */
  datatype ButtonEvent = Event1(pin: int) | Event2(pin: int)

  /** One button's new bookkeeping and the events it fired. */
  datatype ButtonStepped = ButtonStepped(button: Button, events: seq<ButtonEvent>)

  /** A release edge (HIGH to LOW) outside the debounce time since the last up time. */
  predicate ReleaseEdge(b: Button, level: bool, now: nat, debounce: nat)
  {
    !level && b.last && now as int - b.upTime > debounce
  }

  /** A press-up edge (LOW to HIGH) outside the debounce time since the last down time. */
  predicate PressEdge(b: Button, level: bool, now: nat, debounce: nat)
  {
    level && !b.last && now as int - b.dnTime > debounce
  }

  /** One iteration of the processDigitalButtons loop for a button read at `level`, written
      as the five tests of the loop body in their order. */
  function ButtonStep(b: Button, level: bool, now: nat, debounce: nat, holdTime: nat, pin: int)
    : (r: ButtonStepped)
    ensures r.button.val == level && r.button.last == level
    ensures r.button.dnTime == b.dnTime || r.button.dnTime == now
    ensures r.button.upTime == b.upTime || r.button.upTime == now
    ensures |r.events| <= 2
  {
    var b1 := b.(val := level);
    var b2 := if PressEdge(b, level, now, debounce) then b1.(upTime := now) else b1;
    var released := ReleaseEdge(b2, level, now, debounce);
    var e1 := if released && !b2.ignoreUp then [Event1(pin)] else [];
    var b3 := if released then b2.(ignoreUp := false, dnTime := now) else b2;
    var b4 := if !level && !b3.menuMode && now as int - b3.dnTime > holdTime
              then b3.(ignoreUp := true, dnTime := now, menuMode := true) else b3;
    var pressed := level && !b.last && now as int - b4.dnTime > debounce;
    var e2 := if pressed && !b4.ignoreUp && b4.menuMode then [Event2(pin)] else [];
    var b5 := if pressed then b4.(ignoreUp := false, upTime := now) else b4;
    var b6 := if !level && b5.menuMode && now as int - b5.dnTime > holdTime
              then b5.(ignoreUp := true, dnTime := now, menuMode := false) else b5;
    ButtonStepped(b6.(last := level), e1 + e2)
  }

  /** The slots after the loop has stepped the buttons below `n`, one slot at a time. */
  function SteppedButtons(bs: seq<Button>, levels: seq<bool>, pins: seq<int>, now: nat,
                          debounce: nat, holdTime: nat, n: nat): (r: seq<Button>)
    requires n <= |bs| == |pins| && n <= |levels|
    ensures |r| == |bs|
  {
    if n == 0 then bs
    else SteppedButtons(bs, levels, pins, now, debounce, holdTime, n - 1)[n - 1 :=
           ButtonStep(bs[n - 1], levels[n - 1], now, debounce, holdTime, pins[n - 1]).button]
  }

  /** Each of the buttons below `n` is stepped from its own old slot, and the slots at or
      beyond `n` are untouched. */
  lemma {:induction false} SteppedButtonsFrame(bs: seq<Button>, levels: seq<bool>, pins: seq<int>,
                                              now: nat, debounce: nat, holdTime: nat, n: nat)
    requires n <= |bs| == |pins| && n <= |levels|
    ensures forall j :: 0 <= j < n ==>
      SteppedButtons(bs, levels, pins, now, debounce, holdTime, n)[j] ==
      ButtonStep(bs[j], levels[j], now, debounce, holdTime, pins[j]).button
    ensures forall j :: n <= j < |bs| ==> SteppedButtons(bs, levels, pins, now, debounce, holdTime, n)[j] == bs[j]
  {
    if n > 0 {
      SteppedButtonsFrame(bs, levels, pins, now, debounce, holdTime, n - 1);
    }
  }

  /** Stepping one more button appends exactly its events. */
  lemma EventsOfNext(bs: seq<Button>, levels: seq<bool>, pins: seq<int>, now: nat,
                     debounce: nat, holdTime: nat, n: nat)
    requires n < |bs| == |pins| && n < |levels|
    ensures EventsOf(bs, levels, pins, now, debounce, holdTime, n + 1) ==
      EventsOf(bs, levels, pins, now, debounce, holdTime, n) +
      ButtonStep(bs[n], levels[n], now, debounce, holdTime, pins[n]).events
  {
  }

  /** The events of the buttons below `n`, in index order. */
  function EventsOf(bs: seq<Button>, levels: seq<bool>, pins: seq<int>, now: nat, debounce: nat,
                    holdTime: nat, n: nat): seq<ButtonEvent>
    requires n <= |bs| == |pins| && n <= |levels|
  {
    if n == 0 then []
    else EventsOf(bs, levels, pins, now, debounce, holdTime, n - 1) +
         ButtonStep(bs[n - 1], levels[n - 1], now, debounce, holdTime, pins[n - 1]).events
  }

  /** A call the analog navigation makes into the UI. */
  datatype UiCall = LoopScreen | MainMenuScreen | UpdateSettingsPointer

  /** The configuration the analog navigation reads. */
  datatype NavConfig = NavConfig(horizontal: int, buttons: int, state: int,
                                 previousSettingsPointer: int, numOfPointers: int)

  /** Which of the three UI callbacks the navigation uses are installed (non-null). */
  datatype NavCallbacks = NavCallbacks(loopScreen: bool, mainMenuScreen: bool,
                                       updateSettingsPointer: bool)

  /** The constructor's callbacks: every pointer null. */
  const NoCallbacks: NavCallbacks := NavCallbacks(false, false, false)

  /** Every callback installed. */
  const AllCallbacks: NavCallbacks := NavCallbacks(true, true, true)

  /** The new settings pointer and the UI calls made. */
  datatype NavStepped = NavStepped(pointer: int, calls: seq<UiCall>)

  /** `if (f) f();`: the call is made only when the callback is installed. */
  function CallIf(installed: bool, c: UiCall): seq<UiCall>
  {
    if installed then [c] else []
  }

  /** The calls a set of installed callbacks can make. */
  predicate Installed(cb: NavCallbacks, c: UiCall)
  {
    match c
    case LoopScreen => cb.loopScreen
    case MainMenuScreen => cb.mainMenuScreen
    case UpdateSettingsPointer => cb.updateSettingsPointer
  }

  /** The "back" action of a board without a dedicated back button. */
  function Back(cfg: NavConfig, cb: NavCallbacks, ptr: int): NavStepped
  {
    if cfg.buttons != 1 then
      if cfg.state == 1 || cfg.state == 7 || cfg.state == 8 then
        NavStepped(0, CallIf(cb.loopScreen, LoopScreen))
      else if cfg.state > 0 then
        NavStepped(cfg.previousSettingsPointer, CallIf(cb.mainMenuScreen, MainMenuScreen))
      else NavStepped(ptr, [])
    else NavStepped(ptr, [])
  }

  /** The "menu" action of a board without a dedicated menu button. */
  function Menu(cfg: NavConfig, cb: NavCallbacks, ptr: int): NavStepped
  {
    if cfg.buttons != 1 && cfg.state == 0 then NavStepped(ptr, CallIf(cb.mainMenuScreen, MainMenuScreen))
    else NavStepped(ptr, [])
  }

  /** Guarded step down the settings list. */
  function Down(cfg: NavConfig, cb: NavCallbacks, ptr: int): NavStepped
  {
    if ptr < cfg.numOfPointers then NavStepped(ptr + 1, CallIf(cb.updateSettingsPointer, UpdateSettingsPointer))
    else NavStepped(ptr, [])
  }

  /** Guarded step up the settings list. */
  function Up(cb: NavCallbacks, ptr: int): NavStepped
  {
    if ptr > 0 then NavStepped(ptr - 1, CallIf(cb.updateSettingsPointer, UpdateSettingsPointer))
    else NavStepped(ptr, [])
  }

  /** The navigation for the axes' edge codes: the first of X = 1, X = 2, Y = 1, Y = 2 that holds
      decides, and the horizontal setting swaps the roles of the two axes. */
  function Navigate(codeX: int, codeY: int, cfg: NavConfig, cb: NavCallbacks, ptr: int): NavStepped
  {
    if codeX == 1 then (if cfg.horizontal != 0 then Back(cfg, cb, ptr) else Down(cfg, cb, ptr))
    else if codeX == 2 then (if cfg.horizontal != 0 then Menu(cfg, cb, ptr) else Up(cb, ptr))
    else if codeY == 1 then (if cfg.horizontal != 0 then Down(cfg, cb, ptr) else Menu(cfg, cb, ptr))
    else if codeY == 2 then
      (if cfg.horizontal != 0 then NavStepped(ptr - 1, CallIf(cb.updateSettingsPointer, UpdateSettingsPointer))
       else Back(cfg, cb, ptr))
    else NavStepped(ptr, [])
  }

  /** Copying one more element of `b` over `a`. */
  lemma CopyNext(a: seq<int>, b: seq<int>, i: nat)
    requires i < |a| && i < |b|
    ensures (b[..i] + a[i..])[i := b[i]] == b[..i + 1] + a[i + 1..]
  {
    assert b[..i + 1] == b[..i] + [b[i]];
  }

  function Min(a: int, b: int): int
  {
    if a < b then a else b
  }

  /** The number of loop iterations of `for (i = 0; i < n; i++)`. */
  function Count(n: int): nat
  {
    if n < 0 then 0 else n
  }

  class ButtonHandler {
    var numDigButtons: int
    var debounce: nat
    var holdTime: nat
    /** digitalButtonPins */
    const pins: array<int>
    /** buttonVal, buttonLast, btnDnTime, btnUpTime, ignoreUp and menuMode, one slot per button. */
    const slots: array<Button>
    var axisX: JoystickAxis?
    var axisY: JoystickAxis?
    // The configuration the analog navigation reads, and the pointer it moves
    var horizontal: int
    var buttons: int
    var state: int
    var settingsPointer: int
    var previousSettingsPointer: int
    var numOfPointers: int
    // Whether loopScreen, mainMenuScreen and UpdateSettingsPointer are non-null
    var hasLoopScreen: bool
    var hasMainMenuScreen: bool
    var hasUpdateSettingsPointer: bool
    /** The clock value of the last processDigitalButtons call. */
    ghost var lastNow: nat

    /** Ten slots, at most ten buttons in use, and no recorded time in the future. */
    ghost predicate Valid()
      reads this, slots
    {
      pins.Length == MaxDigitalButtons && slots.Length == MaxDigitalButtons &&
      numDigButtons <= MaxDigitalButtons &&
      forall j :: 0 <= j < slots.Length ==> slots[j].dnTime <= lastNow && slots[j].upTime <= lastNow
    }

    function Config(): NavConfig
      reads this
    {
      NavConfig(horizontal, buttons, state, previousSettingsPointer, numOfPointers)
    }

    function Callbacks(): NavCallbacks
      reads this
    {
      NavCallbacks(hasLoopScreen, hasMainMenuScreen, hasUpdateSettingsPointer)
    }

    /** No buttons, the default debounce and hold times, every slot released, no axes, a
        zero configuration and every callback null. */
    constructor ()
      ensures Valid() && lastNow == 0 && fresh(pins) && fresh(slots)
      ensures numDigButtons == 0 && debounce == DebounceTime && holdTime == HoldTime
      ensures pins[..] == seq(MaxDigitalButtons, _ => 0)
      ensures slots[..] == seq(MaxDigitalButtons, _ => ReleasedButton)
      ensures axisX == null && axisY == null
      ensures Config() == NavConfig(0, 0, 0, 0, 0) && settingsPointer == 0
      ensures Callbacks() == NoCallbacks
    {
      numDigButtons := 0;
      debounce := DebounceTime;
      holdTime := HoldTime;
      pins := new int[MaxDigitalButtons](_ => 0);
      slots := new Button[MaxDigitalButtons](_ => ReleasedButton);
      axisX, axisY := null, null;
      horizontal, buttons, state := 0, 0, 0;
      settingsPointer, previousSettingsPointer, numOfPointers := 0, 0, 0;
      hasLoopScreen, hasMainMenuScreen, hasUpdateSettingsPointer := false, false, false;
      lastNow := 0;
    }

    /** Takes min(numButtons, 10) buttons and copies exactly that many pins. */
    method Begin(newPins: seq<int>, numButtons: int, debounceTime: nat, holdTimeMs: nat)
      requires Valid() && Count(Min(numButtons, MaxDigitalButtons)) <= |newPins|
      modifies this`numDigButtons, this`debounce, this`holdTime, pins
      ensures Valid()
      ensures numDigButtons == Min(numButtons, MaxDigitalButtons)
      ensures debounce == debounceTime && holdTime == holdTimeMs
      ensures pins[..] == newPins[..Count(numDigButtons)] + old(pins[..])[Count(numDigButtons)..]
    {
      numDigButtons := Min(numButtons, MaxDigitalButtons);
      debounce := debounceTime;
      holdTime := holdTimeMs;
      ghost var oldPins := pins[..];
      var i := 0;
      while i < numDigButtons
        invariant 0 <= i <= Count(numDigButtons)
        invariant pins[..] == newPins[..i] + oldPins[i..]
        modifies pins
      {
        CopyNext(oldPins, newPins, i);
        pins[i] := newPins[i];
        i := i + 1;
      }
    }

    method SetJoystickAxes(x: JoystickAxis?, y: JoystickAxis?)
      modifies this`axisX, this`axisY
      ensures axisX == x && axisY == y
    {
      axisX := x;
      axisY := y;
    }

    /** The part of setConfiguration the navigation reads. */
    method SetNavConfiguration(cfg: NavConfig, ptr: int)
      modifies this`horizontal, this`buttons, this`state, this`settingsPointer,
               this`previousSettingsPointer, this`numOfPointers
      ensures Config() == cfg && settingsPointer == ptr
    {
      horizontal := cfg.horizontal;
      buttons := cfg.buttons;
      state := cfg.state;
      settingsPointer := ptr;
      previousSettingsPointer := cfg.previousSettingsPointer;
      numOfPointers := cfg.numOfPointers;
    }

    /** The part of setMainCallbacks the navigation reads: which of its three callbacks are
        non-null. */
    method SetMainCallbacks(cb: NavCallbacks)
      modifies this`hasLoopScreen, this`hasMainMenuScreen, this`hasUpdateSettingsPointer
      ensures Callbacks() == cb
    {
      hasLoopScreen := cb.loopScreen;
      hasMainMenuScreen := cb.mainMenuScreen;
      hasUpdateSettingsPointer := cb.updateSettingsPointer;
    }

    /** One pass over the buttons at time `now`; levels[i] is what digitalRead returns for
        button i. */
    method ProcessDigitalButtons(levels: seq<bool>, now: nat) returns (events: seq<ButtonEvent>)
      requires Valid() && now >= lastNow && Count(numDigButtons) <= |levels|
      modifies this`lastNow, slots
      ensures Valid() && lastNow == now
      ensures slots[..] == SteppedButtons(old(slots[..]), levels, pins[..], now, debounce, holdTime,
                                          Count(numDigButtons))
      ensures events == EventsOf(old(slots[..]), levels, pins[..], now, debounce, holdTime,
                                 Count(numDigButtons))
    {
      lastNow := now;
      events := StepPass(levels, now);
    }

    /** The loop of a pass, once the clock has been read: every button in use takes its turn. */
    method StepPass(levels: seq<bool>, now: nat) returns (events: seq<ButtonEvent>)
      requires Valid() && now == lastNow && Count(numDigButtons) <= |levels|
      modifies slots
      ensures Valid()
      ensures slots[..] == SteppedButtons(old(slots[..]), levels, pins[..], now, debounce, holdTime,
                                          Count(numDigButtons))
      ensures events == EventsOf(old(slots[..]), levels, pins[..], now, debounce, holdTime,
                                 Count(numDigButtons))
    {
      ghost var before, pinSeq := slots[..], pins[..];
      events := [];
      var i := 0;
      while i < numDigButtons
        invariant 0 <= i <= Count(numDigButtons)
        invariant Valid()
        invariant slots[..] == SteppedButtons(before, levels, pinSeq, now, debounce, holdTime, i)
        invariant events == EventsOf(before, levels, pinSeq, now, debounce, holdTime, i)
        modifies slots
      {
        var fired := StepInPass(i, levels, now, before);
        EventsOfNext(before, levels, pinSeq, now, debounce, holdTime, i);
        events := events + fired;
        i := i + 1;
      }
    }

    /** Button i's turn in the pass that started from the slots `before`. */
    method StepInPass(i: nat, levels: seq<bool>, now: nat, ghost before: seq<Button>)
      returns (fired: seq<ButtonEvent>)
      requires Valid() && now == lastNow && i < MaxDigitalButtons && i < |levels|
      requires |before| == MaxDigitalButtons
      requires slots[..] == SteppedButtons(before, levels, pins[..], now, debounce, holdTime, i)
      modifies slots
      ensures Valid()
      ensures slots[..] == SteppedButtons(before, levels, pins[..], now, debounce, holdTime, i + 1)
      ensures fired == ButtonStep(before[i], levels[i], now, debounce, holdTime, pins[i]).events
    {
      SteppedButtonsFrame(before, levels, pins[..], now, debounce, holdTime, i);
      assert slots[i] == before[i];
      fired := StepButton(i, levels[i], now);
    }

    /** The body of the processDigitalButtons loop for button i. */
    method StepButton(i: nat, level: bool, now: nat) returns (fired: seq<ButtonEvent>)
      requires Valid() && i < MaxDigitalButtons && now == lastNow
      modifies slots
      ensures Valid()
      ensures slots[i] == ButtonStep(old(slots[i]), level, now, debounce, holdTime, pins[i]).button
      ensures fired == ButtonStep(old(slots[i]), level, now, debounce, holdTime, pins[i]).events
      ensures slots[..] == old(slots[..])[i := slots[i]]
    {
      var b := slots[i];
      var was := b.last;
      fired := [];
      b := b.(val := level);
      if b.val && !was && now - b.dnTime > debounce {
        b := b.(upTime := now);
      }
      if !b.val && was && now - b.upTime > debounce {
        if !b.ignoreUp {
          fired := fired + [Event1(pins[i])];
        } else {
          b := b.(ignoreUp := false);
        }
        b := b.(dnTime := now);
      }
      if !b.val && !b.menuMode && now - b.dnTime > holdTime {
        b := b.(ignoreUp := true, dnTime := now, menuMode := true);
      }
      if b.val && !was && now - b.dnTime > debounce {
        if !b.ignoreUp && b.menuMode {
          fired := fired + [Event2(pins[i])];
        } else {
          b := b.(ignoreUp := false);
        }
        b := b.(upTime := now);
      }
      if !b.val && b.menuMode && now - b.dnTime > holdTime {
        b := b.(ignoreUp := true, dnTime := now, menuMode := false);
      }
      b := b.(last := b.val);
      slots[i] := b;
    }

    /** Reads both axes and moves the settings pointer for the first edge found; does nothing
        when an axis is missing. */
    method ReadAnalogButtons(sampleX: int, sampleY: int) returns (calls: seq<UiCall>)
      modifies this`settingsPointer, axisX, axisY
      ensures axisX == null || axisY == null ==>
        calls == [] && settingsPointer == old(settingsPointer)
      ensures axisX != null && axisY != null ==>
        axisY.currentValue == sampleY &&
        axisY.lastValue == (if axisX == axisY then sampleX else old(axisY.currentValue)) &&
        axisX.currentValue == (if axisX == axisY then sampleY else sampleX) &&
        axisX.lastValue == (if axisX == axisY then sampleX else old(axisX.currentValue)) &&
        NavStepped(settingsPointer, calls) ==
          Navigate(axisX.WasAxisPressed(), axisY.WasAxisPressed(), Config(), Callbacks(), old(settingsPointer))
    {
      if axisX == null || axisY == null {
        calls := [];
        return;
      }
      axisX.ReadAxis(sampleX);
      axisY.ReadAxis(sampleY);
      var codeX, codeY := axisX.WasAxisPressed(), axisY.WasAxisPressed();
      calls := [];
      if codeX == 1 {
        if horizontal != 0 {
          calls := GoBack();
        } else if settingsPointer < numOfPointers {
          settingsPointer := settingsPointer + 1;
          if hasUpdateSettingsPointer {
            calls := [UpdateSettingsPointer];
          }
        }
      } else if codeX == 2 {
        if horizontal != 0 {
          if buttons != 1 && state == 0 && hasMainMenuScreen {
            calls := [MainMenuScreen];
          }
        } else if settingsPointer > 0 {
          settingsPointer := settingsPointer - 1;
          if hasUpdateSettingsPointer {
            calls := [UpdateSettingsPointer];
          }
        }
      } else if codeY == 1 {
        if horizontal != 0 {
          if settingsPointer < numOfPointers {
            settingsPointer := settingsPointer + 1;
            if hasUpdateSettingsPointer {
              calls := [UpdateSettingsPointer];
            }
          }
        } else if buttons != 1 && state == 0 && hasMainMenuScreen {
          calls := [MainMenuScreen];
        }
      } else if codeY == 2 {
        if horizontal != 0 {
          settingsPointer := settingsPointer - 1;
          if hasUpdateSettingsPointer {
            calls := [UpdateSettingsPointer];
          }
        } else {
          calls := GoBack();
        }
      }
    }

    /** The back action on the pointer. */
    method GoBack() returns (calls: seq<UiCall>)
      modifies this`settingsPointer
      ensures NavStepped(settingsPointer, calls) == Back(Config(), Callbacks(), old(settingsPointer))
    {
      calls := [];
      if buttons != 1 {
        if state == 1 || state == 7 || state == 8 {
          if hasLoopScreen {
            calls := [LoopScreen];
          }
          settingsPointer := 0;
        } else if state > 0 {
          settingsPointer := previousSettingsPointer;
          if hasMainMenuScreen {
            calls := [MainMenuScreen];
          }
        }
      }
    }
  }

  // ---------------------------------------------------------------------------
  // Properties of one button

  /** The events of one call, stated without the sequence of tests: a click (release edge)
      fires event1 unless a hold is being released, a press-up edge fires event2 only in menu
      mode, and nothing else fires. */
  lemma ButtonEvents(b: Button, level: bool, now: nat, debounce: nat, holdTime: nat, pin: int)
    ensures ButtonStep(b, level, now, debounce, holdTime, pin).events ==
      if ReleaseEdge(b, level, now, debounce) && !b.ignoreUp then [Event1(pin)]
      else if PressEdge(b, level, now, debounce) && !b.ignoreUp && b.menuMode then [Event2(pin)]
      else []
  {
  }

  /** A release edge records the down time now, clears the ignore flag and leaves menu mode
      alone: the hold tests cannot fire with a down time of now. */
  lemma ReleaseRecordsDownTime(b: Button, level: bool, now: nat, debounce: nat, holdTime: nat, pin: int)
    requires ReleaseEdge(b, level, now, debounce)
    ensures var r := ButtonStep(b, level, now, debounce, holdTime, pin).button;
      r.dnTime == now && !r.ignoreUp && r.menuMode == b.menuMode && r.upTime == b.upTime
  {
  }

  /** Held LOW past the hold time (and not a release this call), the button toggles menu mode
      once, sets the ignore flag and restarts the hold time. */
  lemma HoldTogglesMenuMode(b: Button, level: bool, now: nat, debounce: nat, holdTime: nat, pin: int)
    requires !level && !ReleaseEdge(b, level, now, debounce) && now as int - b.dnTime > holdTime
    ensures var r := ButtonStep(b, level, now, debounce, holdTime, pin).button;
      r.menuMode == !b.menuMode && r.ignoreUp && r.dnTime == now
    ensures ButtonStep(b, level, now, debounce, holdTime, pin).events == []
  {
  }

  /** Menu mode changes at most once per call, and only on a LOW level past the hold time. */
  lemma MenuModeTogglesOnlyOnHold(b: Button, level: bool, now: nat, debounce: nat, holdTime: nat, pin: int)
    ensures var r := ButtonStep(b, level, now, debounce, holdTime, pin).button;
      r.menuMode != b.menuMode ==>
        !level && !ReleaseEdge(b, level, now, debounce) && now as int - b.dnTime > holdTime
  {
  }

  /** A press-up edge records the up time now and clears the ignore flag; the down time and
      menu mode are kept. */
  lemma PressRecordsUpTime(b: Button, level: bool, now: nat, debounce: nat, holdTime: nat, pin: int)
    requires PressEdge(b, level, now, debounce)
    ensures var r := ButtonStep(b, level, now, debounce, holdTime, pin).button;
      r.upTime == now && !r.ignoreUp && r.dnTime == b.dnTime && r.menuMode == b.menuMode
  {
  }

  /** A steady level with no hold due changes nothing but the stored level. */
  lemma SteadyButtonKeepsState(b: Button, level: bool, now: nat, debounce: nat, holdTime: nat, pin: int)
    requires level == b.last && (level || now as int - b.dnTime <= holdTime)
    ensures ButtonStep(b, level, now, debounce, holdTime, pin) == ButtonStepped(b.(val := level), [])
  {
  }

  /** The events of a pass, one button at a time: each event belongs to a button in use and
      carries its pin. */
  lemma {:induction false} EventsFromButtonsInUse(bs: seq<Button>, levels: seq<bool>, pins: seq<int>,
                                                 now: nat, debounce: nat, holdTime: nat, n: nat, k: nat)
    requires n <= |bs| == |pins| && n <= |levels|
    requires k < |EventsOf(bs, levels, pins, now, debounce, holdTime, n)|
    ensures exists j :: 0 <= j < n && EventsOf(bs, levels, pins, now, debounce, holdTime, n)[k].pin == pins[j]
  {
    var prefix := EventsOf(bs, levels, pins, now, debounce, holdTime, n - 1);
    if k < |prefix| {
      EventsFromButtonsInUse(bs, levels, pins, now, debounce, holdTime, n - 1, k);
    } else {
      var last := ButtonStep(bs[n - 1], levels[n - 1], now, debounce, holdTime, pins[n - 1]).events;
      ButtonEvents(bs[n - 1], levels[n - 1], now, debounce, holdTime, pins[n - 1]);
      assert last[k - |prefix|].pin == pins[n - 1];
    }
  }

  /** After a pass every button in use stores the level it read; the others are untouched. */
  lemma StoredLevelFollowsRead(bs: seq<Button>, levels: seq<bool>, pins: seq<int>, now: nat,
                               debounce: nat, holdTime: nat, n: nat)
    requires n <= |bs| == |pins| && n <= |levels|
    ensures forall j :: 0 <= j < n ==>
      SteppedButtons(bs, levels, pins, now, debounce, holdTime, n)[j].last == levels[j] &&
      SteppedButtons(bs, levels, pins, now, debounce, holdTime, n)[j].val == levels[j]
  {
    SteppedButtonsFrame(bs, levels, pins, now, debounce, holdTime, n);
  }

  // ---------------------------------------------------------------------------
  // Properties of the navigation

  /** At most one UI call per read, made only through an installed callback; the pointer moves
      by one, returns to 0, or takes the stored previous pointer; and with every callback
      installed the pointer never moves without a call. */
  lemma NavigateMovesLittle(codeX: int, codeY: int, cfg: NavConfig, cb: NavCallbacks, ptr: int)
    ensures |Navigate(codeX, codeY, cfg, cb, ptr).calls| <= 1
    ensures forall c :: c in Navigate(codeX, codeY, cfg, cb, ptr).calls ==> Installed(cb, c)
    ensures var q := Navigate(codeX, codeY, cfg, cb, ptr).pointer;
      q == ptr || q == ptr + 1 || q == ptr - 1 || q == 0 || q == cfg.previousSettingsPointer
    ensures cb == AllCallbacks && Navigate(codeX, codeY, cfg, cb, ptr).pointer != ptr ==>
      Navigate(codeX, codeY, cfg, cb, ptr).calls != []
  {
  }

  /** The callbacks decide only whether the call is made: the pointer moves the same way
      whatever is installed, and the call is the one a fully installed handler makes, kept
      exactly when its own callback is installed. */
  lemma CallbacksGateOnlyCalls(codeX: int, codeY: int, cfg: NavConfig, cb: NavCallbacks, ptr: int)
    ensures Navigate(codeX, codeY, cfg, cb, ptr).pointer ==
      Navigate(codeX, codeY, cfg, AllCallbacks, ptr).pointer
    ensures var full := Navigate(codeX, codeY, cfg, AllCallbacks, ptr).calls;
      Navigate(codeX, codeY, cfg, cb, ptr).calls ==
        if full != [] && Installed(cb, full[0]) then full else []
  {
  }

  /** With every callback null, as the constructor leaves them, the navigation moves the
      pointer and makes no UI call at all. */
  lemma NullCallbacksMakeNoCalls(codeX: int, codeY: int, cfg: NavConfig, ptr: int)
    ensures Navigate(codeX, codeY, cfg, NoCallbacks, ptr).calls == []
  {
  }

  /** The guarded moves keep the pointer within [0, numOfPointers], except the unguarded
      decrement of a horizontal board's second Y edge. */
  lemma NavigateKeepsPointerInRange(codeX: int, codeY: int, cfg: NavConfig, cb: NavCallbacks, ptr: int)
    requires 0 <= ptr <= cfg.numOfPointers && 0 <= cfg.previousSettingsPointer <= cfg.numOfPointers
    requires !(cfg.horizontal != 0 && codeX != 1 && codeX != 2 && codeY == 2)
    ensures 0 <= Navigate(codeX, codeY, cfg, cb, ptr).pointer <= cfg.numOfPointers
  {
  }

  /** That decrement does leave the range: on a horizontal board at pointer 0 the pointer
      becomes -1. */
  lemma HorizontalUpLeavesRange(cfg: NavConfig, cb: NavCallbacks)
    requires cfg.horizontal != 0
    ensures Navigate(0, 2, cfg, cb, 0).pointer == -1
  {
  }

  /** The horizontal second Y edge with the same guard as every other upward step. */
  function NavigateGuarded(codeX: int, codeY: int, cfg: NavConfig, cb: NavCallbacks, ptr: int): NavStepped
  {
    if codeX != 1 && codeX != 2 && codeY != 1 && codeY == 2 && cfg.horizontal != 0 then Up(cb, ptr)
    else Navigate(codeX, codeY, cfg, cb, ptr)
  }

  /** With the guard in place the pointer stays within [0, numOfPointers] on every edge. */
  lemma NavigateGuardedKeepsPointerInRange(codeX: int, codeY: int, cfg: NavConfig, cb: NavCallbacks, ptr: int)
    requires 0 <= ptr <= cfg.numOfPointers && 0 <= cfg.previousSettingsPointer <= cfg.numOfPointers
    ensures 0 <= NavigateGuarded(codeX, codeY, cfg, cb, ptr).pointer <= cfg.numOfPointers
  {
  }

  /** The guard changes nothing except at pointer 0 or below on that one edge. */
  lemma NavigateGuardedAgrees(codeX: int, codeY: int, cfg: NavConfig, cb: NavCallbacks, ptr: int)
    requires ptr > 0 || !(cfg.horizontal != 0 && codeX != 1 && codeX != 2 && codeY == 2)
    ensures NavigateGuarded(codeX, codeY, cfg, cb, ptr) == Navigate(codeX, codeY, cfg, cb, ptr)
  {
  }

  /** With no edge on either axis nothing happens. */
  lemma NoEdgeNoNavigation(cfg: NavConfig, cb: NavCallbacks, ptr: int)
    ensures Navigate(0, 0, cfg, cb, ptr) == NavStepped(ptr, [])
  {
  }
}
