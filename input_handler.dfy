/** The input bridge (CEFCryInputHandler): device callbacks turn engine
    input into tagged events on a FIFO queue; once per frame GetInput drains
    the queue in order, keeps the three mouse-button flags and sends the
    matching calls to the browser host. The host's hardware mouse (its
    cursor counter and client position) is the HardwareMouse object;
    console state, the plugin's activity value, frame time and the
    code-page conversion are parameters. */
module InputBridge {
  import opened Engine
  import RenderBridge

  // ---------------------------------------------------------------- engine input

  datatype DeviceId = Keyboard | Mouse | XInput | OtherDevice

  /** eIS_* */
  datatype InputState = Unknown | Pressed | Released | Down | Changed | UI

  /** The eKI_* ids the handler distinguishes; every other id is OtherKey. */
  datatype KeyId =
    | Backspace | Tab | Enter | LShift | RShift | LCtrl | RCtrl | LAlt | RAlt | Escape
    | LeftArrow | UpArrow | RightArrow | DownArrow | Insert | Delete
    | MouseX | MouseY | Mouse1 | Mouse2 | Mouse3 | MouseWheelUp | MouseWheelDown
    | XIThumbLX | XIThumbLY | XIX | XIA | XIB | XIY | XIThumbL | XIThumbR | XIDPadUp | XIDPadDown
    | OtherKey(id: int)

  /** The eMM_* modifier bits of an engine input event. */
  datatype ModifierBit =
    | MmLCtrl | MmLShift | MmLAlt | MmLWin | MmRCtrl | MmRShift | MmRAlt | MmRWin
    | MmNumLock | MmCapsLock | MmScrollLock

  /** SInputEvent. asciiChar is what the engine's GetInputCharAscii
      reports for the event. */
  datatype SInputEvent = SInputEvent(
    deviceId: DeviceId, keyId: KeyId, state: InputState, value: real,
    modifiers: set<ModifierBit>, inputChar: int, asciiChar: int)

  /** The browser's EVENTFLAG_* values used here. */
  datatype EventFlag =
    | CapsLockOn | ShiftDown | ControlDown | AltDown
    | LeftMouseButton | MiddleMouseButton | RightMouseButton
    | NumLockOn | IsLeft | IsRight

  // Windows virtual-key codes.
  const VK_BACK: int := 0x08
  const VK_TAB: int := 0x09
  const VK_RETURN: int := 0x0D
  const VK_ESCAPE: int := 0x1B
  const VK_LEFT: int := 0x25
  const VK_UP: int := 0x26
  const VK_RIGHT: int := 0x27
  const VK_DOWN: int := 0x28
  const VK_INSERT: int := 0x2D
  const VK_DELETE: int := 0x2E
  const VK_LSHIFT: int := 0xA0
  const VK_RSHIFT: int := 0xA1
  const VK_LCONTROL: int := 0xA2
  const VK_RCONTROL: int := 0xA3
  const VK_LMENU: int := 0xA4
  const VK_RMENU: int := 0xA5

  /** The navigation and control keys that never yield a character. */
  const NON_PRINTABLE: set<KeyId> :=
    {Backspace, LShift, RShift, LCtrl, RCtrl, LAlt, RAlt, Escape,
     LeftArrow, UpArrow, RightArrow, DownArrow, Insert, Delete}

  /** The key table of MapKeyEvent's switch: the virtual-key code a key is
      rewritten to, or None when the character code is kept. */
  function VirtualKey(k: KeyId): (vk: Option<int>)
    ensures vk.Some? <==> k in NON_PRINTABLE || k == Tab || k == Enter
    ensures vk.Some? ==> vk.value in {VK_BACK, VK_TAB, VK_RETURN, VK_ESCAPE, VK_LEFT, VK_UP, VK_RIGHT,
      VK_DOWN, VK_INSERT, VK_DELETE, VK_LSHIFT, VK_RSHIFT, VK_LCONTROL, VK_RCONTROL, VK_LMENU, VK_RMENU}
  {
    match k
    case Backspace => Some(VK_BACK)
    case Tab => Some(VK_TAB)
    case Enter => Some(VK_RETURN)
    case LShift => Some(VK_LSHIFT)
    case RShift => Some(VK_RSHIFT)
    case LCtrl => Some(VK_LCONTROL)
    case RCtrl => Some(VK_RCONTROL)
    case LAlt => Some(VK_LMENU)
    case RAlt => Some(VK_RMENU)
    case Escape => Some(VK_ESCAPE)
    case LeftArrow => Some(VK_LEFT)
    case UpArrow => Some(VK_UP)
    case RightArrow => Some(VK_RIGHT)
    case DownArrow => Some(VK_DOWN)
    case Insert => Some(VK_INSERT)
    case Delete => Some(VK_DELETE)
    case _ => None
  }

  /** The browser modifier flags for the engine's modifier bits. */
  function ModifierFlags(m: set<ModifierBit>): (f: set<EventFlag>)
    ensures ShiftDown in f <==> MmLShift in m || MmRShift in m
    ensures ControlDown in f <==> MmLCtrl in m || MmRCtrl in m
    ensures AltDown in f <==> MmLAlt in m || MmRAlt in m
    ensures CapsLockOn in f <==> MmCapsLock in m
    ensures NumLockOn in f <==> MmNumLock in m
    ensures IsLeft in f <==> MmLShift in m || MmLCtrl in m || MmLAlt in m
    ensures IsRight in f <==> MmRShift in m || MmRCtrl in m || MmRAlt in m
    ensures LeftMouseButton !in f && MiddleMouseButton !in f && RightMouseButton !in f
  {
    (if MmLShift in m || MmRShift in m then {ShiftDown} else {})
    + (if MmLCtrl in m || MmRCtrl in m then {ControlDown} else {})
    + (if MmLAlt in m || MmRAlt in m then {AltDown} else {})
    + (if MmCapsLock in m then {CapsLockOn} else {})
    + (if MmNumLock in m then {NumLockOn} else {})
    + (if MmLShift in m || MmLCtrl in m || MmLAlt in m then {IsLeft} else {})
    + (if MmRShift in m || MmRCtrl in m || MmRAlt in m then {IsRight} else {})
  }

  /** What MapKeyEvent writes into the queued event (key, d2.code and
      modifiers) and whether it reports a printable key. */
  datatype KeyMapping = KeyMapping(key: int, code: int, modifiers: set<EventFlag>, printable: bool)

  /** MapKeyEvent. codePage is the code-page-to-UTF-8-to-UCS-2 conversion of
      one 8-bit character. */
  function MapKeyEvent(ev: SInputEvent, bChar: bool, codePage: int -> int): (m: KeyMapping)
    ensures m.printable <==> ev.keyId !in NON_PRINTABLE
    ensures m.modifiers == ModifierFlags(ev.modifiers)
    ensures VirtualKey(ev.keyId).Some? ==> m.key == VirtualKey(ev.keyId).value
    ensures !bChar ==> m.code == m.key
    ensures !bChar && VirtualKey(ev.keyId).None? ==> m.key == ev.asciiChar
    ensures bChar ==> m.code == if ev.state == UI then ev.inputChar else codePage(ev.asciiChar)
    ensures bChar && VirtualKey(ev.keyId).None? ==> m.key == m.code
  {
    var ch := if bChar then (if ev.state == UI then ev.inputChar else codePage(ev.asciiChar)) else ev.asciiChar;
    var vk := VirtualKey(ev.keyId);
    var key := if vk.Some? then vk.value else ch;
    var printable := vk.None? || ev.keyId == Tab || ev.keyId == Enter;
    KeyMapping(key, if bChar then ch else key, ModifierFlags(ev.modifiers), printable)
  }

  // ---------------------------------------------------------------- queued events

  /** The mouse key stored in a click event (eKI_Mouse1..3). */
  datatype MouseButton = Button1 | Button2 | Button3

  /** SCryInputEvent as a tagged value. */
  datatype InputEvent =
    | Position(x: int, y: int)
    | Click(state: InputState, button: MouseButton)
    | DoubleClick(button: MouseButton)
    | Scroll(amount: int)
    | Key(state: InputState, code: int, modifiers: set<EventFlag>, key: int)
    | TextChar(code: int, modifiers: set<EventFlag>, key: int)
    | LostFocus
    | GotFocus

  /** EHARDWAREMOUSEEVENT */
  datatype HardwareMouseEvent =
    | HwMove
    | LButtonDown | LButtonUp | LButtonDoubleClick
    | RButtonDown | RButtonUp | RButtonDoubleClick
    | MButtonDown | MButtonUp | MButtonDoubleClick
    | Wheel

  /** The hardware button a hardware mouse event is about. */
  function HardwareButton(kind: HardwareMouseEvent): Option<MouseButton> {
    match kind
    case LButtonDown | LButtonUp | LButtonDoubleClick => Some(Button1)
    case RButtonDown | RButtonUp | RButtonDoubleClick => Some(Button2)
    case MButtonDown | MButtonUp | MButtonDoubleClick => Some(Button3)
    case _ => None
  }

  predicate IsButtonDown(kind: HardwareMouseEvent) {
    kind == LButtonDown || kind == RButtonDown || kind == MButtonDown
  }

  predicate IsButtonUp(kind: HardwareMouseEvent) {
    kind == LButtonUp || kind == RButtonUp || kind == MButtonUp
  }

  predicate IsDoubleClick(kind: HardwareMouseEvent) {
    kind == LButtonDoubleClick || kind == RButtonDoubleClick || kind == MButtonDoubleClick
  }

  /** What OnHardwareMouseEvent queues in mode 3: the cursor position, then
      at most one event for the button or the wheel. */
  function HardwareMouseEvents(x: real, y: real, kind: HardwareMouseEvent, wheelDelta: int): (r: seq<InputEvent>)
    ensures 1 <= |r| <= 2 && r[0] == Position(Trunc(x), Trunc(y))
    ensures |r| == 1 <==> kind == HwMove
    ensures IsButtonDown(kind) ==> r[1] == Click(Pressed, HardwareButton(kind).value)
    ensures IsButtonUp(kind) ==> r[1] == Click(Released, HardwareButton(kind).value)
    ensures IsDoubleClick(kind) ==> r[1] == DoubleClick(HardwareButton(kind).value)
    ensures kind == Wheel ==> r[1] == Scroll(wheelDelta)
  {
    var pos := Position(Trunc(x), Trunc(y));
    match kind
    case HwMove => [pos]
    case LButtonDown => [pos, Click(Pressed, Button1)]
    case LButtonUp => [pos, Click(Released, Button1)]
    case LButtonDoubleClick => [pos, DoubleClick(Button1)]
    case RButtonDown => [pos, Click(Pressed, Button2)]
    case RButtonUp => [pos, Click(Released, Button2)]
    case RButtonDoubleClick => [pos, DoubleClick(Button2)]
    case MButtonDown => [pos, Click(Pressed, Button3)]
    case MButtonUp => [pos, Click(Released, Button3)]
    case MButtonDoubleClick => [pos, DoubleClick(Button3)]
    case Wheel => [pos, Scroll(wheelDelta)]
  }

  /** Pointer fields that OnInputEvent changes: the position and the analog
      stick's emulation values. */
  datatype Pointer = Pointer(x: real, y: real, xEmulation: real, yEmulation: real)

  /** A click event for Pressed and Released states only. */
  function ClickOn(state: InputState, button: MouseButton): (r: seq<InputEvent>)
    ensures r == [] <==> state != Pressed && state != Released
    ensures r != [] ==> r == [Click(state, button)]
  {
    if state == Released || state == Pressed then [Click(state, button)] else []
  }

  /** The mouse and controller branch of OnInputEvent. hw is the hardware
      mouse's client position, when a hardware mouse exists. */
  function PointerInput(p: Pointer, hw: Option<(real, real)>, ev: SInputEvent): (r: (Pointer, seq<InputEvent>))
    ensures |r.1| <= 1
    // the sticks only set the emulation values; the vertical one is inverted
    ensures ev.keyId == XIThumbLX ==> r.1 == [] && r.0 == p.(xEmulation := ev.value)
    ensures ev.keyId == XIThumbLY ==> r.1 == [] && r.0 == p.(yEmulation := -ev.value)
    // relative mouse motion moves from the hardware position and stops emulation on that axis
    ensures ev.keyId == MouseX ==>
      var base := if hw.Some? then hw.value else (p.x, p.y);
      r.0 == Pointer(base.0 + ev.value, base.1, 0.0, p.yEmulation) && r.1 == [Position(Trunc(r.0.x), Trunc(r.0.y))]
    ensures ev.keyId == MouseY ==>
      var base := if hw.Some? then hw.value else (p.x, p.y);
      r.0 == Pointer(base.0, base.1 + ev.value, p.xEmulation, 0.0) && r.1 == [Position(Trunc(r.0.x), Trunc(r.0.y))]
    // buttons, wheel and d-pad leave the pointer alone
    ensures ev.keyId !in {MouseX, MouseY, XIThumbLX, XIThumbLY} ==> r.0 == p
    ensures r.1 != [] && r.1[0].Click? ==> ev.state in {Pressed, Released} && r.1[0].state == ev.state
    ensures r.1 != [] && r.1[0].Scroll? ==> ev.state == Pressed && (r.1[0].amount == 50 || r.1[0].amount == -50)
  {
    var base := if hw.Some? then hw.value else (p.x, p.y);
    match ev.keyId
    case MouseX =>
      var x := base.0 + ev.value;
      (Pointer(x, base.1, 0.0, p.yEmulation), [Position(Trunc(x), Trunc(base.1))])
    case XIThumbLX => (p.(xEmulation := ev.value), [])
    case MouseY =>
      var y := base.1 + ev.value;
      (Pointer(base.0, y, p.xEmulation, 0.0), [Position(Trunc(base.0), Trunc(y))])
    case XIThumbLY => (p.(yEmulation := -1.0 * ev.value), [])
    case Mouse1 | XIX | XIA | XIThumbL => (p, ClickOn(ev.state, Button1))
    case Mouse2 | XIB | XIThumbR => (p, ClickOn(ev.state, Button2))
    case XIY | Mouse3 => (p, ClickOn(ev.state, Button3))
    case XIDPadUp | MouseWheelUp => (p, if ev.state == Pressed then [Scroll(50)] else [])
    case XIDPadDown | MouseWheelDown => (p, if ev.state == Pressed then [Scroll(-50)] else [])
    case _ => (p, [])
  }

  /** The keyboard branch of OnInputEvent: one Key event per press or
      release, and a TextChar after a press of a printable key. */
  function KeyboardEvents(ev: SInputEvent, codePage: int -> int): (r: seq<InputEvent>)
    ensures ev.state != Pressed && ev.state != Released ==> r == []
    ensures ev.state == Released ==> |r| == 1
    ensures ev.state == Pressed ==> |r| == if ev.keyId in NON_PRINTABLE then 1 else 2
    ensures r != [] ==>
      var k := MapKeyEvent(ev, false, codePage);
      r[0] == Key(ev.state, k.code, k.modifiers, k.key)
    ensures |r| == 2 ==>
      var t := MapKeyEvent(ev, true, codePage);
      r[1] == TextChar(t.code, t.modifiers, t.key)
    ensures forall i :: 0 <= i < |r| ==> (r[i].Key? <==> i == 0)
  {
    if ev.state == Released || ev.state == Pressed then
      var k := MapKeyEvent(ev, false, codePage);
      var key := Key(ev.state, k.code, k.modifiers, k.key);
      if ev.state == Pressed then
        var t := MapKeyEvent(ev, true, codePage);
        if t.printable then [key, TextChar(t.code, t.modifiers, t.key)] else [key]
      else [key]
    else []
  }

  /** OnInputEvent's dispatch on the input mode and device. */
  function InputEffect(mode: int, p: Pointer, hw: Option<(real, real)>, ev: SInputEvent, codePage: int -> int): (r: (Pointer, seq<InputEvent>))
    ensures mode < 1 ==> r == (p, [])
    ensures (ev.deviceId == Mouse || ev.deviceId == XInput) ==>
      r == if mode >= 2 then PointerInput(p, hw, ev) else (p, [])
    ensures ev.deviceId == Keyboard ==> r.0 == p && r.1 == if mode >= 1 then KeyboardEvents(ev, codePage) else []
    ensures ev.deviceId == OtherDevice ==> r == (p, [])
  {
    if mode >= 2 && (ev.deviceId == Mouse || ev.deviceId == XInput) then PointerInput(p, hw, ev)
    else if mode >= 1 && ev.deviceId == Keyboard then (p, KeyboardEvents(ev, codePage))
    else (p, [])
  }

  /** ESYSTEM_EVENT_* that the handler listens to. */
  datatype SystemEvent = Activate | ChangeFocus | OtherSystemEvent

  /** OnSystemEvent: deactivation and focus changes become focus events. */
  function FocusEvents(event: SystemEvent, wparam: int): (r: seq<InputEvent>)
    ensures event == Activate ==> r == if wparam == 0 then [LostFocus] else []
    ensures event == ChangeFocus ==> r == if wparam != 0 then [GotFocus] else [LostFocus]
    ensures event == OtherSystemEvent ==> r == []
  {
    match event
    case Activate => if wparam == 0 then [LostFocus] else []
    case ChangeFocus => [if wparam != 0 then GotFocus else LostFocus]
    case OtherSystemEvent => []
  }

  // ---------------------------------------------------------------- input mode

  /** The hardware-cursor reservation the handler holds in a mode. */
  function Reserved(mode: int): int {
    if mode == 3 then 1 else 0
  }

  /** SetInputMode's change to the host cursor counter. */
  function CounterDelta(from: int, to: int): (d: int)
    ensures d == Reserved(to) - Reserved(from)
    ensures d == 1 <==> to == 3 && from != 3
    ensures d == -1 <==> to != 3 && from == 3
  {
    if to != 3 && from == 3 then -1
    else if to == 3 && from != 3 then 1
    else 0
  }

  /** The mode after a sequence of SetInputMode calls. */
  function FinalMode(m0: int, modes: seq<int>): int {
    if modes == [] then m0 else modes[|modes| - 1]
  }

  /** The total counter change over a sequence of SetInputMode calls. */
  function NetCounterChange(m0: int, modes: seq<int>): int
    decreases |modes|
  {
    if modes == [] then 0
    else CounterDelta(m0, modes[0]) + NetCounterChange(modes[0], modes[1..])
  }

  /** Over any sequence of mode changes the counter moves by exactly the
      difference of the final and initial reservations: never more than one
      reservation is outstanding and none is left after leaving mode 3. */
  lemma {:induction false} NetCounterTelescopes(m0: int, modes: seq<int>)
    ensures NetCounterChange(m0, modes) == Reserved(FinalMode(m0, modes)) - Reserved(m0)
    ensures -1 <= NetCounterChange(m0, modes) <= 1
    decreases |modes|
  {
    if modes != [] {
      NetCounterTelescopes(modes[0], modes[1..]);
      assert FinalMode(modes[0], modes[1..]) == FinalMode(m0, modes);
    }
  }

  /** setMode(3), setMode(3), setMode(1) from a non-3 mode: one increment,
      no second one, and one decrement. */
  lemma RepeatedModeThreeCountsOnce(m0: int)
    requires m0 != 3
    ensures CounterDelta(m0, 3) == 1 && CounterDelta(3, 3) == 0 && CounterDelta(3, 1) == -1
    ensures NetCounterChange(m0, [3, 3, 1]) == 0
  {
    NetCounterTelescopes(m0, [3, 3, 1]);
  }

  // ---------------------------------------------------------------- drain

  datatype ButtonType = MbtLeft | MbtMiddle | MbtRight

  /** CefMouseEvent. */
  datatype CefMouse = CefMouse(x: int, y: int, modifiers: set<EventFlag>)

  datatype KeyEventType = KeyDownEvent | KeyUpEvent | CharEvent

  /** The browser-host calls GetInput makes. SendKeyEvent carries the fields
      the handler assigns; it never assigns the key event's modifiers. */
  datatype BrowserCall =
    | SendMouseMoveEvent(mouse: CefMouse, mouseLeave: bool)
    | SendMouseClickEvent(mouse: CefMouse, button: ButtonType, mouseUp: bool, clickCount: int)
    | SendMouseWheelEvent(mouse: CefMouse, deltaX: int, deltaY: int)
    | SendKeyEvent(kind: KeyEventType, windowsKeyCode: int, nativeKeyCode: int, character: int, unmodifiedCharacter: int)
    | SetFocus(focus: bool)
    | SendFocusEvent(focus: bool)

  datatype Buttons = Buttons(left: bool, middle: bool, right: bool)

  const NO_BUTTONS: Buttons := Buttons(false, false, false)

  /** The mouse modifiers for the button flags. */
  function ButtonFlags(b: Buttons): (f: set<EventFlag>)
    ensures LeftMouseButton in f <==> b.left
    ensures MiddleMouseButton in f <==> b.middle
    ensures RightMouseButton in f <==> b.right
    ensures f <= {LeftMouseButton, MiddleMouseButton, RightMouseButton}
  {
    (if b.left then {LeftMouseButton} else {})
    + (if b.middle then {MiddleMouseButton} else {})
    + (if b.right then {RightMouseButton} else {})
  }

  /** The viewport and surface size the drain scales with. */
  datatype Surface = Surface(viewport: Viewport, width: int, height: int)
  {
    predicate Usable() { viewport.Usable() && width >= 0 && height >= 0 }
  }

  /** ScaleMouse: viewport pixels to surface pixels, limited to the surface. */
  function ScaleMouse(t: Surface, m: CefMouse): (r: CefMouse)
    requires t.Usable()
    ensures 0 <= r.x <= t.width && 0 <= r.y <= t.height
    ensures r.modifiers == m.modifiers
  {
    var o := RenderBridge.ScaleCoordinates(t.width, t.height, t.viewport, m.x as real, m.y as real, true, true);
    CefMouse(Trunc(o.0), Trunc(o.1), m.modifiers)
  }

  /** Truncation of equal values, stated once for the two lemmas below. */
  lemma TruncOfEqual(a: real, b: real)
    requires a == b
    ensures Trunc(a) == Trunc(b)
  {
  }

  /** Inside the viewport, the x coordinate is scaled by surface width over
      viewport width and then truncated. */
  lemma ScaleMouseX(t: Surface, m: CefMouse)
    requires t.Usable()
    ensures 0 <= m.x <= t.viewport.width ==>
      ScaleMouse(t, m).x == Trunc(m.x as real * t.width as real / t.viewport.width as real)
  {
    var o := RenderBridge.ViewportScale(m.x as real, t.viewport.width, t.width, true);
    assert ScaleMouse(t, m).x == Trunc(o);
    if 0 <= m.x <= t.viewport.width {
      RenderBridge.ViewportScaleValue(m.x as real, t.viewport.width, t.width, true);
      TruncOfEqual(o, m.x as real * t.width as real / t.viewport.width as real);
    }
  }

  /** ... and the same for y with the heights. */
  lemma ScaleMouseY(t: Surface, m: CefMouse)
    requires t.Usable()
    ensures 0 <= m.y <= t.viewport.height ==>
      ScaleMouse(t, m).y == Trunc(m.y as real * t.height as real / t.viewport.height as real)
  {
    var o := RenderBridge.ViewportScale(m.y as real, t.viewport.height, t.height, true);
    assert ScaleMouse(t, m).y == Trunc(o);
    if 0 <= m.y <= t.viewport.height {
      RenderBridge.ViewportScaleValue(m.y as real, t.viewport.height, t.height, true);
      TruncOfEqual(o, m.y as real * t.height as real / t.viewport.height as real);
    }
  }

  /** The click GetInput sends for each stored mouse key. The second and
      third keys are swapped: Mouse2 sends a right click, Mouse3 a middle one. */
  function ClickButton(b: MouseButton): (c: ButtonType)
    ensures c == MbtLeft <==> b == Button1
    ensures c == MbtRight <==> b == Button2
    ensures c == MbtMiddle <==> b == Button3
  {
    match b
    case Button1 => MbtLeft
    case Button2 => MbtRight
    case Button3 => MbtMiddle
  }

  /** The flag kept for each stored mouse key: Mouse2's is the middle flag
      and Mouse3's the right flag. */
  predicate Held(bs: Buttons, b: MouseButton) {
    match b
    case Button1 => bs.left
    case Button2 => bs.middle
    case Button3 => bs.right
  }

  /** The flag a click event updates: its own key's flag, and no other. */
  function SetFlag(bs: Buttons, b: MouseButton, down: bool): (r: Buttons)
    ensures Held(r, b) == down
    ensures forall c :: c != b ==> Held(r, c) == Held(bs, c)
  {
    match b
    case Button1 => bs.(left := down)
    case Button2 => bs.(middle := down)
    case Button3 => bs.(right := down)
  }

  /** Because of the swap, a press of Mouse2 sends a right click that carries
      the middle-button modifier, and a press of Mouse3 a middle click that
      carries the right-button modifier. */
  lemma SwappedClickModifiers()
    ensures ClickButton(Button2) == MbtRight && ButtonFlags(SetFlag(NO_BUTTONS, Button2, true)) == {MiddleMouseButton}
    ensures ClickButton(Button3) == MbtMiddle && ButtonFlags(SetFlag(NO_BUTTONS, Button3, true)) == {RightMouseButton}
  {
  }

  /** The state the drain loop carries: the mouse event it reuses and the
      three button flags. */
  datatype DrainState = DrainState(mouse: CefMouse, buttons: Buttons)

  datatype Drained = Drained(state: DrainState, calls: seq<BrowserCall>)

  /** The character fields of a key event are 16-bit. */
  function Char16(code: int): (c: int)
    ensures 0 <= c < 0x1_0000
    ensures 0 <= code < 0x1_0000 ==> c == code
  {
    code % 0x1_0000
  }

  /** The number of browser calls one queued event produces. */
  function CallCount(e: InputEvent): nat {
    if e.LostFocus? || e.GotFocus? then 2 else 1
  }

  /** One iteration of GetInput's drain loop. */
  function Dispatch(t: Surface, s: DrainState, e: InputEvent): (r: Drained)
    requires t.Usable()
    ensures |r.calls| == CallCount(e)
    ensures !e.Click? && !e.LostFocus? ==> r.state.buttons == s.buttons
    ensures e.Click? ==>
      var down := e.state == Pressed;
      && r.state.buttons == SetFlag(s.buttons, e.button, down)
      && r.state.mouse.modifiers == ButtonFlags(r.state.buttons)
      && r.calls == [SendMouseClickEvent(r.state.mouse, ClickButton(e.button), !down, 1)]
    ensures e.DoubleClick? ==> r.calls == [SendMouseClickEvent(s.mouse, ClickButton(e.button), true, 2)]
    ensures e.LostFocus? ==> r.state.buttons == NO_BUTTONS && r.calls == [SetFocus(false), SendFocusEvent(false)]
    ensures e.GotFocus? ==> r.calls == [SetFocus(true), SendFocusEvent(true)]
    ensures e.Position? ==>
      r.calls == [SendMouseMoveEvent(r.state.mouse, false)]
      && 0 <= r.state.mouse.x <= t.width && 0 <= r.state.mouse.y <= t.height
    ensures !e.Position? && !e.Click? ==> r.state.mouse == s.mouse
  {
    match e
    case Position(x, y) =>
      var m := ScaleMouse(t, s.mouse.(x := x, y := y));
      Drained(s.(mouse := m), [SendMouseMoveEvent(m, false)])
    case Click(state, button) =>
      var bs := SetFlag(s.buttons, button, state == Pressed);
      var m := s.mouse.(modifiers := ButtonFlags(bs));
      Drained(DrainState(m, bs), [SendMouseClickEvent(m, ClickButton(button), state != Pressed, 1)])
    case DoubleClick(button) =>
      Drained(s, [SendMouseClickEvent(s.mouse, ClickButton(button), true, 2)])
    case Scroll(amount) =>
      Drained(s, [SendMouseWheelEvent(s.mouse, 0, amount)])
    case Key(state, code, _, key) =>
      var kind := if state == Pressed then KeyDownEvent else KeyUpEvent;
      Drained(s, [SendKeyEvent(kind, key, key, Char16(code), Char16(code))])
    case TextChar(code, _, key) =>
      Drained(s, [SendKeyEvent(CharEvent, key, key, Char16(code), Char16(code))])
    case LostFocus =>
      Drained(s.(buttons := NO_BUTTONS), [SetFocus(false), SendFocusEvent(false)])
    case GotFocus =>
      Drained(s, [SetFocus(true), SendFocusEvent(true)])
  }

  /** The drain of a whole queue, front to back. */
  function DrainAll(t: Surface, s: DrainState, q: seq<InputEvent>): Drained
    requires t.Usable()
    decreases |q|
  {
    if q == [] then Drained(s, [])
    else
      var d := Dispatch(t, s, q[0]);
      var rest := DrainAll(t, d.state, q[1..]);
      Drained(rest.state, d.calls + rest.calls)
  }

  /** One step of the drain: the first event's calls come first. */
  lemma DrainAllStep(t: Surface, s: DrainState, q: seq<InputEvent>)
    requires t.Usable() && q != []
    ensures var d := Dispatch(t, s, q[0]); var rest := DrainAll(t, d.state, q[1..]);
      DrainAll(t, s, q) == Drained(rest.state, d.calls + rest.calls)
  {
  }

  function TotalCalls(q: seq<InputEvent>): nat
    decreases |q|
  {
    if q == [] then 0 else CallCount(q[0]) + TotalCalls(q[1..])
  }

  /** Draining two queued runs one after the other is draining their
      concatenation: every event is delivered once, in queue order. */
  lemma {:induction false} DrainAllAppend(t: Surface, s: DrainState, q1: seq<InputEvent>, q2: seq<InputEvent>)
    requires t.Usable()
    ensures var a := DrainAll(t, s, q1);
      var b := DrainAll(t, a.state, q2);
      DrainAll(t, s, q1 + q2) == Drained(b.state, a.calls + b.calls)
    decreases |q1|
  {
    if q1 != [] {
      var d := Dispatch(t, s, q1[0]);
      assert (q1 + q2)[0] == q1[0];
      assert (q1 + q2)[1..] == q1[1..] + q2;
      DrainAllStep(t, s, q1);
      DrainAllStep(t, s, q1 + q2);
      DrainAllAppend(t, d.state, q1[1..], q2);
      var a := DrainAll(t, d.state, q1[1..]);
      var b := DrainAll(t, a.state, q2);
      assert d.calls + (a.calls + b.calls) == (d.calls + a.calls) + b.calls;
    } else {
      assert q1 + q2 == q2;
    }
  }

  /** The drain makes exactly as many calls as its events call for. */
  lemma {:induction false} DrainAllCallCount(t: Surface, s: DrainState, q: seq<InputEvent>)
    requires t.Usable()
    ensures |DrainAll(t, s, q).calls| == TotalCalls(q)
    decreases |q|
  {
    if q != [] {
      DrainAllCallCount(t, Dispatch(t, s, q[0]).state, q[1..]);
    }
  }

  /** Only clicks and focus loss change the button flags. */
  lemma {:induction false} DrainWithoutClicksKeepsButtons(t: Surface, s: DrainState, q: seq<InputEvent>)
    requires t.Usable()
    requires forall i :: 0 <= i < |q| ==> !q[i].Click? && !q[i].LostFocus?
    ensures DrainAll(t, s, q).state.buttons == s.buttons
    decreases |q|
  {
    if q != [] {
      assert !q[0].Click? && !q[0].LostFocus?;
      var rest := q[1..];
      assert forall i :: 0 <= i < |rest| ==> rest[i] == q[i + 1];
      DrainWithoutClicksKeepsButtons(t, Dispatch(t, s, q[0]).state, rest);
    }
  }

  /** A queue that ends in focus loss leaves all three buttons released. */
  lemma DrainEndingInLostFocus(t: Surface, s: DrainState, q: seq<InputEvent>)
    requires t.Usable() && q != [] && q[|q| - 1] == LostFocus
    ensures DrainAll(t, s, q).state.buttons == NO_BUTTONS
  {
    var front := q[..|q| - 1];
    assert q == front + [LostFocus];
    DrainAllAppend(t, s, front, [LostFocus]);
  }

  /** Focus loss clears the flags but not the modifiers of the reused mouse
      event: a wheel event right after it still reports a held left button. */
  lemma LostFocusKeepsMouseModifiers(t: Surface, m: CefMouse)
    requires t.Usable() && LeftMouseButton in m.modifiers
    ensures var s := DrainState(m, Buttons(true, false, false));
      var d := DrainAll(t, s, [LostFocus, Scroll(50)]);
      d.state.buttons == NO_BUTTONS && d.calls[2] == SendMouseWheelEvent(m, 0, 50)
      && LeftMouseButton in d.calls[2].mouse.modifiers
  {
    var s := DrainState(m, Buttons(true, false, false));
    DrainAllAppend(t, s, [LostFocus], [Scroll(50)]);
    assert [LostFocus] + [Scroll(50)] == [LostFocus, Scroll(50)];
  }

  /** A press of a printable key reaches the browser as a key-down followed
      by a character event; a press of a navigation key as a key-down only. */
  lemma KeyPressReachesBrowser(t: Surface, s: DrainState, ev: SInputEvent, codePage: int -> int)
    requires t.Usable() && ev.state == Pressed
    ensures var k := MapKeyEvent(ev, false, codePage);
      var c := MapKeyEvent(ev, true, codePage);
      var d := DrainAll(t, s, KeyboardEvents(ev, codePage));
      && d.state == s
      && d.calls[0] == SendKeyEvent(KeyDownEvent, k.key, k.key, Char16(k.code), Char16(k.code))
      && (ev.keyId in NON_PRINTABLE ==> |d.calls| == 1)
      && (ev.keyId !in NON_PRINTABLE ==>
            |d.calls| == 2 && d.calls[1] == SendKeyEvent(CharEvent, c.key, c.key, Char16(c.code), Char16(c.code)))
  {
    var q := KeyboardEvents(ev, codePage);
    if |q| == 2 {
      DrainAllAppend(t, s, [q[0]], [q[1]]);
      assert q == [q[0]] + [q[1]];
    }
  }

  /** The mouse event the drain starts from: the stored position with the
      current button modifiers, scaled to the surface. */
  function StartState(t: Surface, x: real, y: real, b: Buttons): (s: DrainState)
    requires t.Usable()
    ensures s.buttons == b && s.mouse.modifiers == ButtonFlags(b)
  {
    DrainState(ScaleMouse(t, CefMouse(Trunc(x), Trunc(y), ButtonFlags(b))), b)
  }

  /** The analog-stick step at the start of GetInput: when either emulation
      value leaves the 0.01 dead zone, the new absolute position. */
  function EmulatedPosition(p: Pointer, hw: Option<(real, real)>, frameTime: real, scale: real): (r: Option<(real, real)>)
    ensures r.Some? <==> Abs(p.xEmulation) > 0.01 || Abs(p.yEmulation) > 0.01
    ensures r.Some? ==>
      var base := if hw.Some? then hw.value else (p.x, p.y);
      r.value == (base.0 + p.xEmulation * scale * frameTime, base.1 + p.yEmulation * scale * frameTime)
  {
    if Abs(p.xEmulation) > 0.01 || Abs(p.yEmulation) > 0.01 then
      var base := if hw.Some? then hw.value else (p.x, p.y);
      Some((base.0 + p.xEmulation * scale * frameTime, base.1 + p.yEmulation * scale * frameTime))
    else None
  }

  /** The host's hardware mouse: its cursor-visibility counter and the
      cursor's client position. */
  class HardwareMouse {
    var counter: int
    var x: real
    var y: real

    constructor (counter: int, x: real, y: real)
      ensures this.counter == counter && this.x == x && this.y == y
    {
      this.counter, this.x, this.y := counter, x, y;
    }

    function Position(): (real, real)
      reads this
    {
      (x, y)
    }
  }

  function ClientPosition(hw: HardwareMouse?): Option<(real, real)>
    reads hw
  {
    if hw == null then None else Some((hw.x, hw.y))
  }

  class InputHandler {
    var queue: seq<InputEvent>
    const scaleEmulation: real
    var xEmulation: real
    var yEmulation: real
    var xPosition: real
    var yPosition: real
    var leftMB: bool
    var middleMB: bool
    var rightMB: bool
    var mode: int
    var exclusive: bool

    function PointerState(): Pointer
      reads this
    {
      Pointer(xPosition, yPosition, xEmulation, yEmulation)
    }

    function ButtonState(): Buttons
      reads this
    {
      Buttons(leftMB, middleMB, rightMB)
    }

    /** The constructor (listener registration is not modelled). */
    constructor ()
      ensures queue == [] && scaleEmulation == 500.0
      ensures xEmulation == 0.0 && yEmulation == 0.0 && xPosition == 0.0 && yPosition == 0.0
      ensures ButtonState() == NO_BUTTONS && exclusive && mode == 0
    {
      queue := [];
      scaleEmulation := 500.0;
      xEmulation, yEmulation, xPosition, yPosition := 0.0, 0.0, 0.0, 0.0;
      leftMB, middleMB, rightMB := false, false, false;
      exclusive, mode := true, 0;
    }

    /** SetInputMode: store both values; take the hardware cursor on entering
        mode 3 and give it back on leaving it. */
    method SetInputMode(nMode: int, bExclusive: bool, hw: HardwareMouse)
      modifies this`mode, this`exclusive, hw`counter
      ensures mode == nMode && exclusive == bExclusive
      ensures hw.counter == old(hw.counter) + CounterDelta(old(mode), nMode)
      ensures hw.counter - Reserved(mode) == old(hw.counter) - Reserved(old(mode))
    {
      exclusive := bExclusive;
      if nMode != 3 && mode == 3 {
        hw.counter := hw.counter - 1;
      } else if nMode == 3 && mode != 3 {
        hw.counter := hw.counter + 1;
      }
      mode := nMode;
    }

    /** UnregisterListeners, mode part: back to mode 0, not exclusive. */
    method UnregisterListeners(hw: HardwareMouse)
      modifies this`mode, this`exclusive, hw`counter
      ensures mode == 0 && !exclusive
      ensures hw.counter == old(hw.counter) - Reserved(old(mode))
    {
      SetInputMode(0, false, hw);
    }

    /** OnHardwareMouseEvent. The callback's own coordinates are not used:
        the position is read back from the hardware mouse. */
    method OnHardwareMouseEvent(iX: int, iY: int, kind: HardwareMouseEvent, wheelDelta: int,
                                active: real, hw: HardwareMouse)
      modifies this`queue, this`xPosition, this`yPosition
      ensures active == 0.0 ==> queue == old(queue) && xPosition == old(xPosition) && yPosition == old(yPosition)
      ensures active != 0.0 ==> xPosition == hw.x && yPosition == hw.y
      ensures active != 0.0 ==>
        queue == old(queue) + if mode == 3 then HardwareMouseEvents(hw.x, hw.y, kind, wheelDelta) else []
    {
      if active == 0.0 {
        return;
      }
      xPosition, yPosition := hw.x, hw.y;
      if mode == 3 {
        var pos := Position(Trunc(xPosition), Trunc(yPosition));
        match kind {
          case HwMove => queue := queue + [pos];
          case LButtonDown => queue := queue + [pos, Click(Pressed, Button1)];
          case LButtonUp => queue := queue + [pos, Click(Released, Button1)];
          case LButtonDoubleClick => queue := queue + [pos, DoubleClick(Button1)];
          case RButtonDown => queue := queue + [pos, Click(Pressed, Button2)];
          case RButtonUp => queue := queue + [pos, Click(Released, Button2)];
          case RButtonDoubleClick => queue := queue + [pos, DoubleClick(Button2)];
          case MButtonDown => queue := queue + [pos, Click(Pressed, Button3)];
          case MButtonUp => queue := queue + [pos, Click(Released, Button3)];
          case MButtonDoubleClick => queue := queue + [pos, DoubleClick(Button3)];
          case Wheel => queue := queue + [pos, Scroll(wheelDelta)];
        }
      }
    }

    /** OnInputEvent: ignored while the console is open or the plugin is
        inactive; otherwise queue what the mode and device call for and
        report whether the handler is the exclusive receiver. */
    method OnInputEvent(ev: SInputEvent, consoleOpen: bool, active: real, hw: HardwareMouse?,
                        codePage: int -> int) returns (handled: bool)
      modifies this`queue, this`xPosition, this`yPosition, this`xEmulation, this`yEmulation
      ensures handled == (!consoleOpen && active != 0.0 && exclusive)
      ensures consoleOpen || active == 0.0 ==>
        queue == old(queue) && PointerState() == old(PointerState())
      ensures !consoleOpen && active != 0.0 ==>
        var r := InputEffect(mode, old(PointerState()), ClientPosition(hw), ev, codePage);
        PointerState() == r.0 && queue == old(queue) + r.1
    {
      if consoleOpen || active == 0.0 {
        return false;
      }
      handled := exclusive;
      if mode >= 2 && (ev.deviceId == Mouse || ev.deviceId == XInput) {
        OnPointerInput(ev, hw);
      } else if mode >= 1 && ev.deviceId == Keyboard {
        OnKeyboardInput(ev, codePage);
      }
    }

    /** The relative-motion case of the mouse branch. */
    method MoveAxis(horizontal: bool, value: real, hw: HardwareMouse?)
      modifies this`queue, this`xPosition, this`yPosition, this`xEmulation, this`yEmulation
      ensures var r := PointerInput(old(PointerState()), ClientPosition(hw),
          SInputEvent(Mouse, if horizontal then MouseX else MouseY, Unknown, value, {}, 0, 0));
        PointerState() == r.0 && queue == old(queue) + r.1
    {
      if horizontal {
        xEmulation := 0.0;
      } else {
        yEmulation := 0.0;
      }
      if hw != null {
        xPosition, yPosition := hw.x, hw.y;
      }
      if horizontal {
        xPosition := xPosition + value;
      } else {
        yPosition := yPosition + value;
      }
      queue := queue + [Position(Trunc(xPosition), Trunc(yPosition))];
    }

    /** The mouse and controller branch of OnInputEvent. */
    method OnPointerInput(ev: SInputEvent, hw: HardwareMouse?)
      modifies this`queue, this`xPosition, this`yPosition, this`xEmulation, this`yEmulation
      ensures var r := PointerInput(old(PointerState()), ClientPosition(hw), ev);
        PointerState() == r.0 && queue == old(queue) + r.1
    {
      match ev.keyId {
        case MouseX => MoveAxis(true, ev.value, hw);
        case XIThumbLX => xEmulation := ev.value;
        case MouseY => MoveAxis(false, ev.value, hw);
        case XIThumbLY => yEmulation := -1.0 * ev.value;
        case Mouse1 | XIX | XIA | XIThumbL =>
          if ev.state == Released || ev.state == Pressed {
            queue := queue + [Click(ev.state, Button1)];
          }
        case Mouse2 | XIB | XIThumbR =>
          if ev.state == Released || ev.state == Pressed {
            queue := queue + [Click(ev.state, Button2)];
          }
        case XIY | Mouse3 =>
          if ev.state == Released || ev.state == Pressed {
            queue := queue + [Click(ev.state, Button3)];
          }
        case XIDPadUp | MouseWheelUp =>
          if ev.state == Pressed {
            queue := queue + [Scroll(50)];
          }
        case XIDPadDown | MouseWheelDown =>
          if ev.state == Pressed {
            queue := queue + [Scroll(-50)];
          }
        case _ =>
      }
    }

    /** The keyboard branch of OnInputEvent. */
    method OnKeyboardInput(ev: SInputEvent, codePage: int -> int)
      modifies this`queue
      ensures queue == old(queue) + KeyboardEvents(ev, codePage)
    {
      if ev.state == Released || ev.state == Pressed {
        var k := MapKeyEvent(ev, false, codePage);
        queue := queue + [Key(ev.state, k.code, k.modifiers, k.key)];
        if ev.state == Pressed {
          var t := MapKeyEvent(ev, true, codePage);
          if t.printable {
            queue := queue + [TextChar(t.code, t.modifiers, t.key)];
          }
        }
      }
    }

    /** OnSystemEvent: focus loss and gain go through the queue. */
    method OnSystemEvent(event: SystemEvent, wparam: int)
      modifies this`queue
      ensures queue == old(queue) + FocusEvents(event, wparam)
    {
      match event {
        case Activate =>
          if wparam == 0 {
            queue := queue + [LostFocus];
          }
        case ChangeFocus =>
          queue := queue + [if wparam != 0 then GotFocus else LostFocus];
        case OtherSystemEvent =>
      }
    }

    /** The analog-stick step at the start of GetInput. */
    method EmulateStick(frameTime: real, hw: HardwareMouse?)
      modifies this`queue, this`xPosition, this`yPosition, hw
      ensures var e := EmulatedPosition(old(PointerState()), old(ClientPosition(hw)), frameTime, scaleEmulation);
        && xPosition == (if e.Some? then e.value.0 else old(xPosition))
        && yPosition == (if e.Some? then e.value.1 else old(yPosition))
        && (hw != null ==> if e.Some? then hw.x == xPosition && hw.y == yPosition else hw.x == old(hw.x) && hw.y == old(hw.y))
        && (hw != null ==> hw.counter == old(hw.counter))
        && queue == old(queue) + if e.Some? then [Position(Trunc(e.value.0), Trunc(e.value.1))] else []
    {
      if Abs(xEmulation) > 0.01 || Abs(yEmulation) > 0.01 {
        var cx := xEmulation * scaleEmulation * frameTime;
        var cy := yEmulation * scaleEmulation * frameTime;
        if hw != null {
          xPosition, yPosition := hw.x, hw.y;
        }
        xPosition, yPosition := xPosition + cx, yPosition + cy;
        if hw != null {
          hw.x, hw.y := xPosition, yPosition;
        }
        queue := queue + [Position(Trunc(xPosition), Trunc(yPosition))];
      }
    }

    /** One iteration of the drain loop: send the event's calls and update
        the reused mouse event and the button flags. */
    method DispatchItem(t: Surface, mouse: CefMouse, item: InputEvent) returns (mouse': CefMouse, sent: seq<BrowserCall>)
      requires t.Usable()
      modifies this`leftMB, this`middleMB, this`rightMB
      ensures var d := Dispatch(t, DrainState(mouse, old(ButtonState())), item);
        DrainState(mouse', ButtonState()) == d.state && sent == d.calls
    {
      mouse' := mouse;
      match item {
        case Position(x, y) =>
          mouse' := ScaleMouse(t, mouse.(x := x, y := y));
          sent := [SendMouseMoveEvent(mouse', false)];
        case Click(state, button) =>
          match button {
            case Button1 =>
              leftMB := state == Pressed;
              mouse' := mouse.(modifiers := ButtonFlags(ButtonState()));
              sent := [SendMouseClickEvent(mouse', MbtLeft, !leftMB, 1)];
            case Button2 =>
              middleMB := state == Pressed;
              mouse' := mouse.(modifiers := ButtonFlags(ButtonState()));
              sent := [SendMouseClickEvent(mouse', MbtRight, !middleMB, 1)];
            case Button3 =>
              rightMB := state == Pressed;
              mouse' := mouse.(modifiers := ButtonFlags(ButtonState()));
              sent := [SendMouseClickEvent(mouse', MbtMiddle, !rightMB, 1)];
          }
        case DoubleClick(button) =>
          sent := [SendMouseClickEvent(mouse, ClickButton(button), true, 2)];
        case Scroll(amount) =>
          sent := [SendMouseWheelEvent(mouse, 0, amount)];
        case Key(state, code, _, key) =>
          var kind := if state == Pressed then KeyDownEvent else KeyUpEvent;
          sent := [SendKeyEvent(kind, key, key, Char16(code), Char16(code))];
        case TextChar(code, _, key) =>
          sent := [SendKeyEvent(CharEvent, key, key, Char16(code), Char16(code))];
        case LostFocus =>
          sent := [SetFocus(false), SendFocusEvent(false)];
          leftMB, middleMB, rightMB := false, false, false;
        case GotFocus =>
          sent := [SetFocus(true), SendFocusEvent(true)];
      }
    }

    /** The drain loop of GetInput: pop every queued event in order and send
        its calls, starting from the given mouse event. */
    method DrainQueue(t: Surface, start: CefMouse) returns (calls: seq<BrowserCall>)
      requires t.Usable()
      modifies this`queue, this`leftMB, this`middleMB, this`rightMB
      ensures queue == []
      ensures var r := DrainAll(t, DrainState(start, old(ButtonState())), old(queue));
        calls == r.calls && ButtonState() == r.state.buttons
    {
      var mouse := start;
      calls := [];
      while queue != []
        invariant var r := DrainAll(t, DrainState(mouse, ButtonState()), queue);
          DrainAll(t, DrainState(start, old(ButtonState())), old(queue)) == Drained(r.state, calls + r.calls)
        decreases |queue|
      {
        ghost var before := DrainState(mouse, ButtonState());
        DrainAllStep(t, before, queue);
        var sent;
        mouse, sent := DispatchItem(t, mouse, queue[0]);
        queue := queue[1..];
        ghost var rest := DrainAll(t, DrainState(mouse, ButtonState()), queue);
        assert calls + (sent + rest.calls) == (calls + sent) + rest.calls;
        calls := calls + sent;
      }
    }

    /** GetInput: the stick emulation step, then the drain of the whole
        queue in order, sending each event's calls to the browser host. */
    method GetInput(frameTime: real, hw: HardwareMouse?, t: Surface) returns (calls: seq<BrowserCall>)
      requires t.Usable()
      modifies this`queue, this`xPosition, this`yPosition, this`leftMB, this`middleMB, this`rightMB, hw
      ensures queue == []
      ensures var e := EmulatedPosition(old(PointerState()), old(ClientPosition(hw)), frameTime, scaleEmulation);
        && xPosition == (if e.Some? then e.value.0 else old(xPosition))
        && yPosition == (if e.Some? then e.value.1 else old(yPosition))
        && (hw != null ==> if e.Some? then hw.x == xPosition && hw.y == yPosition else hw.x == old(hw.x) && hw.y == old(hw.y))
        && (hw != null ==> hw.counter == old(hw.counter))
        && var q := old(queue) + (if e.Some? then [Position(Trunc(e.value.0), Trunc(e.value.1))] else []);
           var r := DrainAll(t, StartState(t, xPosition, yPosition, old(ButtonState())), q);
           calls == r.calls && ButtonState() == r.state.buttons
    {
      EmulateStick(frameTime, hw);
      var mouse := ScaleMouse(t, CefMouse(Trunc(xPosition), Trunc(yPosition), ButtonFlags(ButtonState())));
      calls := DrainQueue(t, mouse);
    }

    /** OnPostUpdate: forward the queued input once per frame while the
        plugin is active. */
    method OnPostUpdate(active: real, frameTime: real, hw: HardwareMouse?, t: Surface) returns (calls: seq<BrowserCall>)
      requires t.Usable()
      modifies this`queue, this`xPosition, this`yPosition, this`leftMB, this`middleMB, this`rightMB, hw
      ensures active == 0.0 ==> calls == [] && unchanged(this) && (hw != null ==> unchanged(hw))
      ensures active != 0.0 ==> queue == []
      ensures active != 0.0 ==>
        var e := EmulatedPosition(old(PointerState()), old(ClientPosition(hw)), frameTime, scaleEmulation);
        var q := old(queue) + (if e.Some? then [Position(Trunc(e.value.0), Trunc(e.value.1))] else []);
        var r := DrainAll(t, StartState(t, xPosition, yPosition, old(ButtonState())), q);
        calls == r.calls && ButtonState() == r.state.buttons
    {
      if active == 0.0 {
        return [];
      }
      calls := GetInput(frameTime, hw, t);
    }

    /** GetCursorPos: the stored hardware position. */
    method GetCursorPos() returns (fX: real, fY: real)
      ensures fX == xPosition && fY == yPosition
    {
      fX, fY := xPosition, yPosition;
    }
  }
}
