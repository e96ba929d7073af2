/** The touch button registry of lib/TouchInterface/TouchInterface.cpp: a bounded array of
    buttons with a count, hit-testing, the touch-to-display mapping, and the press/release
    bookkeeping of a touch. Drawing is not modelled; callbacks are the calls a touch emits,
    and what a called handler does to the registry is given as its effect. */
module TouchInterface {

  type uint16 = x: int | 0 <= x < 0x1_0000

  /** One touch button; `hasCallback` says whether its callback pointer is set. */
  datatype TouchButton = TouchButton(x: int, y: int, width: int, height: int, labelText: string,
                                     color: uint16, textColor: uint16, pressed: bool,
                                     enabled: bool, hasCallback: bool, callbackData: int)

  /** The contents of a slot not yet written by addButton. */
  const BlankButton: TouchButton := TouchButton(0, 0, 0, 0, "", 0, 0, false, false, false, 0)

  /** The eight calibration values: touch corners, then display corners. */
  datatype Calibration = Calibration(touchX1: int, touchY1: int, touchX2: int, touchY2: int,
                                     displayX1: int, displayY1: int, displayX2: int, displayY2: int)

  const DefaultCalibration: Calibration := Calibration(0, 0, 4095, 4095, 0, 0, 320, 240)
  const DefaultMaxButtons: nat := 20
  /** The display's largest coordinates, the clamp bounds of the mapping. */
  const DisplayMaxX: int := 319
  const DisplayMaxY: int := 239
  /** A touch counts when its pressure exceeds this. */
  const PressureMin: int := 10

  /** A raw touch sample. */
  datatype TouchPoint = TouchPoint(x: int, y: int, z: int)

  /** A call made by a new touch on a button: its callback, and the profile selection. */
  datatype TouchCall = ButtonCallback(index: nat) | ProfileSelect(profileIndex: int)

  /** The registry as the touch logic sees it. */
  datatype TouchView = TouchView(buttons: seq<TouchButton>, lastTouchState: bool,
                                 lastTouchX: int, lastTouchY: int)

  datatype Touched = Touched(view: TouchView, calls: seq<TouchCall>)

  /** What a handler called from processTouch does to the registry: nothing, or a screen
      switch, which clears the registry and then adds the new screen's buttons in order. */
  datatype RegistryEffect = KeepsRegistry | Rebuilds(screen: seq<TouchButton>)

  function Abs(a: int): nat
  {
    if a < 0 then -a else a
  }

  /** C integer division, which truncates toward zero. */
  function CDiv(a: int, b: int): int
    requires b != 0
  {
    var q := Abs(a) / Abs(b);
    if (a < 0) == (b < 0) then q else -q
  }

  /** Arduino's map() as the ESP32 core defines it: -1 for an empty input range, otherwise
      the truncating linear interpolation. */
  function ArduinoMap(x: int, inMin: int, inMax: int, outMin: int, outMax: int): int
  {
    if inMax - inMin == 0 then -1
    else CDiv((x - inMin) * (outMax - outMin), inMax - inMin) + outMin
  }

  /** Arduino's constrain(). */
  function Constrain(v: int, lo: int, hi: int): int
  {
    if v < lo then lo else if v > hi then hi else v
  }

  /** The display point of a touch: both coordinates mapped, then clamped to the screen. */
  function ConvertTouchToDisplay(cal: Calibration, touchX: int, touchY: int): (p: (int, int))
    ensures 0 <= p.0 <= DisplayMaxX && 0 <= p.1 <= DisplayMaxY
  {
    (Constrain(ArduinoMap(touchX, cal.touchX1, cal.touchX2, cal.displayX1, cal.displayX2), 0, DisplayMaxX),
     Constrain(ArduinoMap(touchY, cal.touchY1, cal.touchY2, cal.displayY1, cal.displayY2), 0, DisplayMaxY))
  }

  /** The closed rectangle of a button contains the point. */
  predicate Contains(b: TouchButton, x: int, y: int)
  {
    x >= b.x && x <= b.x + b.width && y >= b.y && y <= b.y + b.height
  }

  /** The index of the first button from `from` on that contains the point, or -1. */
  function FirstHit(bs: seq<TouchButton>, x: int, y: int, from: nat): (r: int)
    requires from <= |bs|
    ensures r == -1 || from <= r < |bs|
    decreases |bs| - from
  {
    if from == |bs| then -1
    else if Contains(bs[from], x, y) then from
    else FirstHit(bs, x, y, from + 1)
  }

  /** FirstHit is the lowest containing index, or -1 when none contains the point. */
  lemma {:induction false} FirstHitIsLowest(bs: seq<TouchButton>, x: int, y: int, from: nat)
    requires from <= |bs|
    ensures var r := FirstHit(bs, x, y, from);
      (r == -1 <==> forall j :: from <= j < |bs| ==> !Contains(bs[j], x, y)) &&
      (r != -1 ==> Contains(bs[r], x, y) && forall j :: from <= j < r ==> !Contains(bs[j], x, y))
    decreases |bs| - from
  {
    if from < |bs| && !Contains(bs[from], x, y) {
      FirstHitIsLowest(bs, x, y, from + 1);
    }
  }

  function Min(a: int, b: int): int
  {
    if a < b then a else b
  }

  /** The button addButton stores for the arguments `b` carries: unpressed and enabled. */
  function AsAdded(b: TouchButton): TouchButton
  {
    b.(pressed := false, enabled := true)
  }

  /** The buttons in use after clearButtons and one addButton per button of `screen`, in a
      registry with room for `capacity`; the calls past the capacity add nothing. */
  function Added(screen: seq<TouchButton>, capacity: nat): (r: seq<TouchButton>)
    ensures |r| == Min(|screen|, capacity)
    ensures forall j :: 0 <= j < |r| ==> r[j] == AsAdded(screen[j])
  {
    seq(Min(|screen|, capacity), j requires 0 <= j < Min(|screen|, capacity) => AsAdded(screen[j]))
  }

  /** The buttons in use after a handler with effect `e` ran on the buttons `bs`. */
  function After(bs: seq<TouchButton>, e: RegistryEffect, capacity: nat): seq<TouchButton>
  {
    match e
    case KeepsRegistry => bs
    case Rebuilds(screen) => Added(screen, capacity)
  }

  /** Slot `i` of the array after the handler: a rebuilt screen overwrites only the slots it
      adds, and the slots past them keep what they held. */
  function SlotAfter(bs: seq<TouchButton>, i: nat, e: RegistryEffect, capacity: nat): TouchButton
    requires i < |bs|
  {
    var r := After(bs, e, capacity);
    if i < |r| then r[i] else bs[i]
  }

  /** The effect of processTouch on the registry for the sample `p`, when the touched
      button's callback has the effect `onButton` on the registry, onProfileSelect has the
      effect `onSelect`, and the registry has room for `capacity` buttons. The callback
      data is read from the button's slot after its callback ran. */
  function Touch(v: TouchView, cal: Calibration, p: TouchPoint,
                 onButton: RegistryEffect, onSelect: RegistryEffect, capacity: nat): Touched
  {
    if p.z > PressureMin then
      var d := ConvertTouchToDisplay(cal, p.x, p.y);
      var hit := if v.lastTouchState then -1 else FirstHit(v.buttons, d.0, d.1, 0);
      var moved := v.(lastTouchState := true, lastTouchX := d.0, lastTouchY := d.1);
      if hit >= 0 && v.buttons[hit].enabled then
        var r := Press(v.buttons, hit, onButton, onSelect, capacity);
        Touched(moved.(buttons := r.0), r.1)
      else
        Touched(moved, [])
    else
      Touched(v.(buttons := Released(v.buttons), lastTouchState := false), [])
  }

  /** The buttons and calls after a new touch pressed the button at `hit`: its callback runs,
      then the data its slot holds afterwards decides the profile selection. */
  function Press(bs: seq<TouchButton>, hit: nat, onButton: RegistryEffect, onSelect: RegistryEffect,
                 capacity: nat): (seq<TouchButton>, seq<TouchCall>)
    requires hit < |bs|
  {
    var b := bs[hit];
    var pressed := bs[hit := b.(pressed := true)];
    var called := if b.hasCallback then After(pressed, onButton, capacity) else pressed;
    var data := if b.hasCallback then SlotAfter(pressed, hit, onButton, capacity).callbackData
                else b.callbackData;
    var selected := if data >= 0 then After(called, onSelect, capacity) else called;
    (selected, (if b.hasCallback then [ButtonCallback(hit)] else []) +
               (if data >= 0 then [ProfileSelect(data)] else []))
  }

  /** Every button with its pressed flag cleared. */
  function Released(bs: seq<TouchButton>): (r: seq<TouchButton>)
    ensures |r| == |bs|
    ensures forall j :: 0 <= j < |bs| ==> r[j] == bs[j].(pressed := false)
  {
    seq(|bs|, j requires 0 <= j < |bs| => bs[j].(pressed := false))
  }

  class TouchRegistry {
    const maxButtons: nat
    const buttons: array<TouchButton>
    var buttonCount: int
    var calibration: Calibration
    var lastTouchState: bool
    var lastTouchX: int
    var lastTouchY: int

    /** The count stays within the allocated capacity. */
    ghost predicate Valid()
      reads this
    {
      buttons.Length == maxButtons && 0 <= buttonCount <= maxButtons
    }

    /** The buttons in use. */
    function Buttons(): seq<TouchButton>
      requires Valid()
      reads this, buttons
    {
      buttons[..buttonCount]
    }

    function View(): TouchView
      requires Valid()
      reads this, buttons
    {
      TouchView(Buttons(), lastTouchState, lastTouchX, lastTouchY)
    }

    /** An empty registry of the given capacity with the default calibration. */
    constructor (maxButtonCount: nat)
      ensures Valid() && fresh(buttons) && maxButtons == maxButtonCount
      ensures Buttons() == [] && calibration == DefaultCalibration
      ensures !lastTouchState && lastTouchX == 0 && lastTouchY == 0
    {
      maxButtons := maxButtonCount;
      buttonCount := 0;
      buttons := new TouchButton[maxButtonCount](_ => BlankButton);
      calibration := DefaultCalibration;
      lastTouchState := false;
      lastTouchX, lastTouchY := 0, 0;
    }

    /** Appends an enabled, unpressed button and returns its index, or returns -1 and changes
        nothing when the registry is full. */
    method AddButton(x: int, y: int, width: int, height: int, labelText: string, color: uint16,
                     textColor: uint16, hasCallback: bool, callbackData: int) returns (r: int)
      requires Valid()
      modifies this`buttonCount, buttons
      ensures Valid()
      ensures old(buttonCount) >= maxButtons ==> r == -1 && unchanged(this) && unchanged(buttons)
      ensures old(buttonCount) < maxButtons ==>
        r == old(buttonCount) && buttonCount == old(buttonCount) + 1 &&
        Buttons() == old(Buttons()) + [TouchButton(x, y, width, height, labelText, color, textColor,
                                                   false, true, hasCallback, callbackData)] &&
        buttons[..] == old(buttons[..])[old(buttonCount) := TouchButton(x, y, width, height, labelText, color,
                                                   textColor, false, true, hasCallback, callbackData)]
    {
      if buttonCount >= maxButtons {
        return -1;
      }
      buttons[buttonCount] := TouchButton(x, y, width, height, labelText, color, textColor,
                                          false, true, hasCallback, callbackData);
      r := buttonCount;
      buttonCount := buttonCount + 1;
    }

    /** Deletes the button at `index`, keeping the order of the others; ignores an index out of
        range. */
    method RemoveButton(index: int)
      requires Valid()
      modifies this`buttonCount, buttons
      ensures Valid()
      ensures !(0 <= index < old(buttonCount)) ==> buttonCount == old(buttonCount) && Buttons() == old(Buttons())
      ensures 0 <= index < old(buttonCount) ==>
        buttonCount == old(buttonCount) - 1 &&
        Buttons() == old(Buttons())[..index] + old(Buttons())[index + 1..]
    {
      if index < 0 || index >= buttonCount {
        return;
      }
      var i := index;
      while i < buttonCount - 1
        invariant index <= i <= buttonCount - 1
        invariant buttons[..i] == old(buttons[..])[..index] + old(buttons[..])[index + 1..i + 1]
        invariant buttons[i..] == old(buttons[..])[i..]
        modifies buttons
      {
        buttons[i] := buttons[i + 1];
        i := i + 1;
      }
      buttonCount := buttonCount - 1;
    }

    /** Replaces the label text and colours of one button; ignores an index out of range. */
    method UpdateButton(index: int, labelText: string, color: uint16, textColor: uint16)
      requires Valid()
      modifies buttons
      ensures Valid()
      ensures Buttons() == if 0 <= index < buttonCount
        then old(Buttons())[index := old(Buttons())[index].(labelText := labelText, color := color, textColor := textColor)]
        else old(Buttons())
    {
      if index < 0 || index >= buttonCount {
        return;
      }
      buttons[index] := buttons[index].(labelText := labelText, color := color, textColor := textColor);
    }

    /** Enables or disables one button; ignores an index out of range. */
    method SetButtonEnabled(index: int, enabled: bool)
      requires Valid()
      modifies buttons
      ensures Valid()
      ensures Buttons() == if 0 <= index < buttonCount
        then old(Buttons())[index := old(Buttons())[index].(enabled := enabled)]
        else old(Buttons())
    {
      if index < 0 || index >= buttonCount {
        return;
      }
      buttons[index] := buttons[index].(enabled := enabled);
    }

    method ClearButtons()
      requires Valid()
      modifies this`buttonCount
      ensures Valid() && Buttons() == []
    {
      buttonCount := 0;
    }

    method SetCalibration(cal: Calibration)
      modifies this`calibration
      ensures calibration == cal
    {
      calibration := cal;
    }

    /** The callback data of a button in use, or -1. */
    function GetButtonData(index: int): (r: int)
      requires Valid()
      reads this, buttons
      ensures 0 <= index < buttonCount ==> r == Buttons()[index].callbackData
      ensures !(0 <= index < buttonCount) ==> r == -1
    {
      if index >= 0 && index < buttonCount then buttons[index].callbackData else -1
    }

    /** The lowest index of a button whose rectangle contains the point, or -1. */
    method GetButtonAt(x: int, y: int) returns (r: int)
      requires Valid()
      ensures r == FirstHit(Buttons(), x, y, 0)
      ensures r == -1 <==> forall j :: 0 <= j < buttonCount ==> !Contains(buttons[j], x, y)
      ensures r != -1 ==> 0 <= r < buttonCount && Contains(buttons[r], x, y) &&
                          forall j :: 0 <= j < r ==> !Contains(buttons[j], x, y)
    {
      FirstHitIsLowest(Buttons(), x, y, 0);
      var i := 0;
      while i < buttonCount
        invariant 0 <= i <= buttonCount
        invariant FirstHit(Buttons(), x, y, 0) == FirstHit(Buttons(), x, y, i)
      {
        if x >= buttons[i].x && x <= buttons[i].x + buttons[i].width &&
           y >= buttons[i].y && y <= buttons[i].y + buttons[i].height {
          return i;
        }
        i := i + 1;
      }
      return -1;
    }

    /** One touch sample: a new touch presses the enabled button under it and makes its calls,
        each handler changing the registry as its effect says; no touch releases every button. */
    method ProcessTouch(p: TouchPoint, onButton: RegistryEffect, onSelect: RegistryEffect)
      returns (calls: seq<TouchCall>)
      requires Valid()
      modifies this`buttonCount, this`lastTouchState, this`lastTouchX, this`lastTouchY, buttons
      ensures Valid()
      ensures View() == Touch(old(View()), calibration, p, onButton, onSelect, maxButtons).view
      ensures calls == Touch(old(View()), calibration, p, onButton, onSelect, maxButtons).calls
    {
      calls := [];
      if p.z > PressureMin {
        var d := ConvertTouchToDisplay(calibration, p.x, p.y);
        if !lastTouchState {
          var buttonIndex := GetButtonAt(d.0, d.1);
          if buttonIndex >= 0 && buttons[buttonIndex].enabled {
            calls := PressButton(buttonIndex, onButton, onSelect);
          }
        }
        lastTouchState := true;
        lastTouchX, lastTouchY := d.0, d.1;
      } else {
        ReleaseAll();
        lastTouchState := false;
      }
    }

    /** Presses the button at `buttonIndex`, runs its callback, then selects a profile by the
        data its slot holds after the callback. */
    method PressButton(buttonIndex: int, onButton: RegistryEffect, onSelect: RegistryEffect)
      returns (calls: seq<TouchCall>)
      requires Valid() && 0 <= buttonIndex < buttonCount
      modifies this`buttonCount, buttons
      ensures Valid()
      ensures Buttons() == Press(old(Buttons()), buttonIndex, onButton, onSelect, maxButtons).0
      ensures calls == Press(old(Buttons()), buttonIndex, onButton, onSelect, maxButtons).1
    {
      calls := [];
      buttons[buttonIndex] := buttons[buttonIndex].(pressed := true);
      if buttons[buttonIndex].hasCallback {
        calls := calls + [ButtonCallback(buttonIndex)];
        Handle(onButton);
      }
      if buttons[buttonIndex].callbackData >= 0 {
        calls := calls + [ProfileSelect(buttons[buttonIndex].callbackData)];
        Handle(onSelect);
      }
    }

    /** What a handler does to the registry: a screen switch clears it and adds the new
        screen's buttons, so the slots past the new count keep what they held. */
    method Handle(e: RegistryEffect)
      requires Valid()
      modifies this`buttonCount, buttons
      ensures Valid()
      ensures Buttons() == After(old(Buttons()), e, maxButtons)
      ensures forall j :: buttonCount <= j < maxButtons ==> buttons[j] == old(buttons[j])
    {
      match e
      case KeepsRegistry =>
      case Rebuilds(screen) =>
        ClearButtons();
        var i := 0;
        while i < |screen|
          invariant Valid() && 0 <= i <= |screen|
          invariant buttonCount == Min(i, maxButtons)
          invariant forall j :: 0 <= j < buttonCount ==> buttons[j] == AsAdded(screen[j])
          invariant forall j :: buttonCount <= j < maxButtons ==> buttons[j] == old(buttons[j])
        {
          var b := screen[i];
          var index := AddButton(b.x, b.y, b.width, b.height, b.labelText, b.color, b.textColor,
                                 b.hasCallback, b.callbackData);
          i := i + 1;
        }
        assert Buttons() == Added(screen, maxButtons);
    }

    /** The release loop of processTouch. */
    method ReleaseAll()
      requires Valid()
      modifies buttons
      ensures Buttons() == Released(old(Buttons()))
    {
      var i := 0;
      while i < buttonCount
        invariant 0 <= i <= buttonCount
        invariant buttons[..i] == Released(old(buttons[..i]))
        invariant buttons[i..] == old(buttons[i..])
      {
        if buttons[i].pressed {
          buttons[i] := buttons[i].(pressed := false);
        }
        i := i + 1;
      }
    }
  }

  // ---------------------------------------------------------------------------
  // Properties

  /** The callbackData processTouch finds in the touched button's slot once its callback has
      run: a callback that rebuilt the registry over that slot leaves the new screen's data
      there; otherwise the slot still holds the touched button. */
  function DataAfterCallback(b: TouchButton, hit: nat, onButton: RegistryEffect, capacity: nat): int
  {
    if b.hasCallback && onButton.Rebuilds? && hit < |onButton.screen| && hit < capacity
    then onButton.screen[hit].callbackData
    else b.callbackData
  }

  /** Calls happen only on a new touch that lands on an enabled button, and then the button's
      callback comes first and the profile selection carries the data its slot holds after
      that callback. */
  lemma TouchCallsOnlyOnNewTouch(v: TouchView, cal: Calibration, p: TouchPoint,
                                 onButton: RegistryEffect, onSelect: RegistryEffect, capacity: nat)
    ensures Touch(v, cal, p, onButton, onSelect, capacity).calls != [] ==>
      p.z > PressureMin && !v.lastTouchState &&
      var d := ConvertTouchToDisplay(cal, p.x, p.y);
      var hit := FirstHit(v.buttons, d.0, d.1, 0);
      hit >= 0 && v.buttons[hit].enabled &&
      var data := DataAfterCallback(v.buttons[hit], hit, onButton, capacity);
      Touch(v, cal, p, onButton, onSelect, capacity).calls ==
        (if v.buttons[hit].hasCallback then [ButtonCallback(hit)] else []) +
        (if data >= 0 then [ProfileSelect(data)] else [])
  {
  }

  /** A button without a callback, added with the default callback data, selects profile 0
      when touched. */
  lemma DefaultDataSelectsProfileZero(v: TouchView, cal: Calibration, p: TouchPoint,
                                      onButton: RegistryEffect, onSelect: RegistryEffect, capacity: nat)
    requires p.z > PressureMin && !v.lastTouchState
    requires var d := ConvertTouchToDisplay(cal, p.x, p.y);
      var hit := FirstHit(v.buttons, d.0, d.1, 0);
      hit >= 0 && v.buttons[hit].enabled && !v.buttons[hit].hasCallback && v.buttons[hit].callbackData == 0
    ensures Touch(v, cal, p, onButton, onSelect, capacity).calls == [ProfileSelect(0)]
  {
  }

  /** The callbackData addButton takes when the caller gives none. */
  const DefaultCallbackData: int := 0

  /** A default that marks "no profile", which the `>= 0` test of processTouch skips. */
  const NoProfileData: int := -1

  /** The profileIsOn flag after the UI handlers of `calls` ran in order: onProfileSelect sets
      it, the callback of the stop button clears it, any other callback leaves it. */
  function ProfileIsOnAfter(on: bool, calls: seq<TouchCall>, stopButton: nat): bool
    decreases |calls|
  {
    if calls == [] then on
    else
      var on1 := match calls[0]
        case ProfileSelect(_) => true
        case ButtonCallback(i) => if i == stopButton then false else on;
      ProfileIsOnAfter(on1, calls[1..], stopButton)
  }

  /** The callback keeps the registry, or switches to a screen whose every button carries the
      callback data `data`. */
  predicate ScreenData(onButton: RegistryEffect, data: int)
  {
    onButton.Rebuilds? ==> forall j :: 0 <= j < |onButton.screen| ==> onButton.screen[j].callbackData == data
  }

  /** A new touch on an enabled button with a callback and the default data 0, whose callback
      keeps the registry or switches to a screen of buttons added with the default data (as
      STOP switches to the main screen), runs the callback and then selects profile 0; for
      the STOP button that leaves the profile on. */
  lemma CallbackButtonSelectsProfileZero(v: TouchView, cal: Calibration, p: TouchPoint,
                                         onButton: RegistryEffect, onSelect: RegistryEffect,
                                         capacity: nat, on: bool)
    requires p.z > PressureMin && !v.lastTouchState
    requires var d := ConvertTouchToDisplay(cal, p.x, p.y);
      var hit := FirstHit(v.buttons, d.0, d.1, 0);
      hit >= 0 && v.buttons[hit].enabled && v.buttons[hit].hasCallback &&
      v.buttons[hit].callbackData == DefaultCallbackData
    requires ScreenData(onButton, DefaultCallbackData)
    ensures var d := ConvertTouchToDisplay(cal, p.x, p.y);
      var hit := FirstHit(v.buttons, d.0, d.1, 0);
      Touch(v, cal, p, onButton, onSelect, capacity).calls == [ButtonCallback(hit), ProfileSelect(0)] &&
      ProfileIsOnAfter(on, Touch(v, cal, p, onButton, onSelect, capacity).calls, hit)
  {
  }

  /** With "no profile" as the default data, the same touch runs only the button's callback,
      and touching the STOP button turns the profile off. */
  lemma NoProfileDataOnlyCalls(v: TouchView, cal: Calibration, p: TouchPoint,
                               onButton: RegistryEffect, onSelect: RegistryEffect,
                               capacity: nat, on: bool)
    requires p.z > PressureMin && !v.lastTouchState
    requires var d := ConvertTouchToDisplay(cal, p.x, p.y);
      var hit := FirstHit(v.buttons, d.0, d.1, 0);
      hit >= 0 && v.buttons[hit].enabled && v.buttons[hit].hasCallback &&
      v.buttons[hit].callbackData == NoProfileData
    requires ScreenData(onButton, NoProfileData)
    ensures var d := ConvertTouchToDisplay(cal, p.x, p.y);
      var hit := FirstHit(v.buttons, d.0, d.1, 0);
      Touch(v, cal, p, onButton, onSelect, capacity).calls == [ButtonCallback(hit)] &&
      !ProfileIsOnAfter(on, Touch(v, cal, p, onButton, onSelect, capacity).calls, hit)
  {
  }

  const Red: uint16 := 0xF800
  const Green: uint16 := 0x07E0
  const Blue: uint16 := 0x001F
  const Magenta: uint16 := 0xF81F
  const White: uint16 := 0xFFFF
  const Black: uint16 := 0x0000

  /** The buttons UIManager's running and main screens add, as addButton stores them. */
  const RunningScreen: seq<TouchButton> :=
    [TouchButton(120, 150, 80, 40, "STOP", Red, White, false, true, true, DefaultCallbackData)]
  const MainScreen: seq<TouchButton> :=
    [TouchButton(20, 150, 80, 40, "Start", Green, Black, false, true, true, DefaultCallbackData),
     TouchButton(120, 150, 80, 40, "Settings", Blue, White, false, true, true, DefaultCallbackData),
     TouchButton(220, 150, 80, 40, "Info", Magenta, White, false, true, true, DefaultCallbackData)]

  /** Touching STOP on the running screen with the default calibration: onStopReflow switches
      to the main screen, slot 0 then holds Start with data 0, so onProfileSelect(0) runs
      and switches back to the running screen with the profile on again. */
  lemma StopTouchRestartsProfile()
    ensures var t := Touch(TouchView(RunningScreen, false, 0, 0), DefaultCalibration, TouchPoint(2048, 2901, 50),
                           Rebuilds(MainScreen), Rebuilds(RunningScreen), DefaultMaxButtons);
      t.calls == [ButtonCallback(0), ProfileSelect(0)] && ProfileIsOnAfter(true, t.calls, 0) &&
      t.view.buttons == RunningScreen
  {
    assert ConvertTouchToDisplay(DefaultCalibration, 2048, 2901) == (160, 170);
    assert Added(MainScreen, DefaultMaxButtons)[0] == MainScreen[0];
    assert Added(RunningScreen, DefaultMaxButtons) == RunningScreen;
  }

  /** A touch whose callback rebuilds the registry keeps no press: every button in use
      afterwards is one a handler added, unpressed. */
  lemma RebuildDropsPress(v: TouchView, cal: Calibration, p: TouchPoint,
                          screen: seq<TouchButton>, onSelect: RegistryEffect, capacity: nat)
    requires p.z > PressureMin && !v.lastTouchState
    requires var d := ConvertTouchToDisplay(cal, p.x, p.y);
      var hit := FirstHit(v.buttons, d.0, d.1, 0);
      hit >= 0 && v.buttons[hit].enabled && v.buttons[hit].hasCallback
    ensures var w := Touch(v, cal, p, Rebuilds(screen), onSelect, capacity).view;
      w.buttons == Added(screen, capacity) ||
      (onSelect.Rebuilds? && w.buttons == Added(onSelect.screen, capacity))
    ensures var w := Touch(v, cal, p, Rebuilds(screen), onSelect, capacity).view;
      forall j :: 0 <= j < |w.buttons| ==> !w.buttons[j].pressed
  {
  }

  /** Holding a touch down makes no further calls and presses nothing new. */
  lemma HeldTouchIsQuiet(v: TouchView, cal: Calibration, p: TouchPoint,
                         onButton: RegistryEffect, onSelect: RegistryEffect, capacity: nat)
    requires v.lastTouchState && p.z > PressureMin
    ensures var t := Touch(v, cal, p, onButton, onSelect, capacity);
      t.calls == [] && t.view.buttons == v.buttons && t.view.lastTouchState
  {
  }

  /** With no touch every button is released and the touch state is cleared; the registry
      keeps its size and every other field of every button. */
  lemma NoTouchReleasesAll(v: TouchView, cal: Calibration, p: TouchPoint,
                           onButton: RegistryEffect, onSelect: RegistryEffect, capacity: nat)
    requires p.z <= PressureMin
    ensures var w := Touch(v, cal, p, onButton, onSelect, capacity).view;
      !w.lastTouchState && |w.buttons| == |v.buttons| &&
      forall j :: 0 <= j < |w.buttons| ==> !w.buttons[j].pressed && w.buttons[j].(pressed := v.buttons[j].pressed) == v.buttons[j]
    ensures Touch(v, cal, p, onButton, onSelect, capacity).calls == []
  {
  }

  /** A touch whose handlers keep the registry never changes how many buttons there are and
      changes at most one button; otherwise the registry is a screen a handler rebuilt. */
  lemma TouchKeepsRegistrySize(v: TouchView, cal: Calibration, p: TouchPoint,
                               onButton: RegistryEffect, onSelect: RegistryEffect, capacity: nat)
    requires p.z > PressureMin
    ensures var w := Touch(v, cal, p, onButton, onSelect, capacity).view;
      onButton == KeepsRegistry && onSelect == KeepsRegistry ==>
        |w.buttons| == |v.buttons| &&
        forall j, k :: 0 <= j < k < |v.buttons| ==> w.buttons[j] == v.buttons[j] || w.buttons[k] == v.buttons[k]
    ensures var w := Touch(v, cal, p, onButton, onSelect, capacity).view;
      (|w.buttons| == |v.buttons| &&
       forall j, k :: 0 <= j < k < |v.buttons| ==> w.buttons[j] == v.buttons[j] || w.buttons[k] == v.buttons[k]) ||
      (onButton.Rebuilds? && w.buttons == Added(onButton.screen, capacity)) ||
      (onSelect.Rebuilds? && w.buttons == Added(onSelect.screen, capacity))
  {
  }

  // ---------------------------------------------------------------------------
  // The mapping

  /** Truncating division by a positive divisor is monotone. */
  lemma CDivMonotone(a1: int, a2: int, b: int)
    requires a1 <= a2 && b > 0
    ensures CDiv(a1, b) <= CDiv(a2, b)
  {
    var n1, n2 := Abs(a1), Abs(a2);
    assert Abs(b) == b;
    if a1 >= 0 {
      DivMonotone(n1, n2, b);
    } else if a2 < 0 {
      DivMonotone(n2, n1, b);
    } else {
      DivMonotone(0, n1, b);
      DivMonotone(0, n2, b);
    }
  }

  /** Euclidean division of naturals by a positive divisor is monotone. */
  lemma DivMonotone(a1: nat, a2: nat, b: int)
    requires a1 <= a2 && b > 0
    ensures a1 / b <= a2 / b
  {
    var q1, q2 := a1 / b, a2 / b;
    assert b * q1 <= a1;
    assert a2 < b * (q2 + 1);
    StrictCancel(b, q1, q2 + 1);
  }

  lemma StrictCancel(b: int, x: int, y: int)
    requires b > 0 && b * x < b * y
    ensures x < y
  {
    assert b * (y - x) > 0;
  }

  /** The mapping keeps the order of touches along an axis when both ranges are increasing. */
  lemma MapMonotone(x1: int, x2: int, inMin: int, inMax: int, outMin: int, outMax: int)
    requires x1 <= x2 && inMin < inMax && outMin <= outMax
    ensures ArduinoMap(x1, inMin, inMax, outMin, outMax) <= ArduinoMap(x2, inMin, inMax, outMin, outMax)
  {
    var rise := outMax - outMin;
    var p1, p2 := (x1 - inMin) * rise, (x2 - inMin) * rise;
    ScaleMonotone(x1 - inMin, x2 - inMin, rise);
    CDivMonotone(p1, p2, inMax - inMin);
    assert ArduinoMap(x1, inMin, inMax, outMin, outMax) == CDiv(p1, inMax - inMin) + outMin;
    assert ArduinoMap(x2, inMin, inMax, outMin, outMax) == CDiv(p2, inMax - inMin) + outMin;
  }

  lemma ScaleMonotone(a1: int, a2: int, r: int)
    requires a1 <= a2 && r >= 0
    ensures a1 * r <= a2 * r
  {
    assert a2 * r - a1 * r == (a2 - a1) * r;
  }

  /** With the default calibration the touch corners map to the display corners (the far
      corner, 320 by 240, is clamped to 319 by 239). */
  lemma DefaultCalibrationCorners()
    ensures ConvertTouchToDisplay(DefaultCalibration, 0, 0) == (0, 0)
    ensures ConvertTouchToDisplay(DefaultCalibration, 4095, 4095) == (DisplayMaxX, DisplayMaxY)
  {
  }

  /** An empty touch range maps every touch to -1, which the clamp turns into 0. */
  lemma DegenerateCalibration(cal: Calibration, tx: int, ty: int)
    requires cal.touchX1 == cal.touchX2 && cal.touchY1 == cal.touchY2
    ensures ConvertTouchToDisplay(cal, tx, ty) == (0, 0)
  {
  }
}
