/**
 * Events: the raw libuiohook event record, the event kinds, the 16-bit
 * narrowing the native addon applies, and the decoder (`CallJs`) that turns a
 * raw event into the object handed to the JavaScript callback.
 */
module Events {

  datatype Option<T> = None | Some(value: T)

  /** libuiohook's event types, in the order its `event_type` enum declares them. */
  datatype EventKind =
    | HookEnabled | HookDisabled
    | KeyTyped | KeyPressed | KeyReleased
    | MouseClicked | MousePressed | MouseReleased | MouseMoved | MouseDragged
    | MouseWheel

  /**
   * Numeric value of each event type. The header that declares them is not
   * part of this model; the decoder's range tests only rely on the ORDER,
   * which is assumed here: consecutive values from 1, in declaration order
   * (HookEnabled < HookDisabled < KeyTyped < KeyPressed < KeyReleased <
   * MouseClicked < MousePressed < MouseReleased < MouseMoved < MouseDragged <
   * MouseWheel).
   */
  function Code(k: EventKind): (c: int)
    ensures 1 <= c <= 11
    ensures IsKeyboard(k) <==> 3 <= c <= 5
    ensures IsMouse(k) <==> 6 <= c < 11
    ensures k == MouseWheel <==> c == 11
  {
    match k
    case HookEnabled => 1
    case HookDisabled => 2
    case KeyTyped => 3
    case KeyPressed => 4
    case KeyReleased => 5
    case MouseClicked => 6
    case MousePressed => 7
    case MouseReleased => 8
    case MouseMoved => 9
    case MouseDragged => 10
    case MouseWheel => 11
  }

  /** The kind a raw `type` value names, or None for a value no kind has. */
  function KindOf(t: int): (r: Option<EventKind>)
    ensures r.Some? ==> Code(r.value) == t
    ensures r.None? ==> forall k :: Code(k) != t
  {
    if t == 1 then Some(HookEnabled)
    else if t == 2 then Some(HookDisabled)
    else if t == 3 then Some(KeyTyped)
    else if t == 4 then Some(KeyPressed)
    else if t == 5 then Some(KeyReleased)
    else if t == 6 then Some(MouseClicked)
    else if t == 7 then Some(MousePressed)
    else if t == 8 then Some(MouseReleased)
    else if t == 9 then Some(MouseMoved)
    else if t == 10 then Some(MouseDragged)
    else if t == 11 then Some(MouseWheel)
    else None
  }

  lemma KindOfCode(k: EventKind)
    ensures KindOf(Code(k)) == Some(k)
  {
  }

  predicate IsKeyboard(k: EventKind)
  {
    k == KeyTyped || k == KeyPressed || k == KeyReleased
  }

  predicate IsMouse(k: EventKind)
  {
    k == MouseClicked || k == MousePressed || k == MouseReleased || k == MouseMoved || k == MouseDragged
  }

  /** The event kinds that carry input data (everything but the hook notifications). */
  predicate IsInput(k: EventKind)
  {
    IsKeyboard(k) || IsMouse(k) || k == MouseWheel
  }

  /** The union `data` of `uiohook_event`, tagged by the member libuiohook fills. */
  datatype Payload =
    | KeyboardData(keycode: int, rawcode: int, keychar: int)
    | MouseData(button: int, clicks: int, x: int, y: int)
    | WheelData(clicks: int, x: int, y: int, scrollType: int, amount: int, rotation: int, direction: int)
    | NoData

  /** A `uiohook_event`: its raw type value, timestamp, modifier mask and payload. */
  datatype RawEvent = RawEvent(eventType: int, time: int, mask: int, data: Payload)

  /** libuiohook fills the union member that matches the event's category. */
  predicate WellFormed(e: RawEvent)
  {
    match KindOf(e.eventType)
    case None => true
    case Some(k) =>
      (IsKeyboard(k) ==> e.data.KeyboardData?) &&
      (IsMouse(k) ==> e.data.MouseData?) &&
      (k == MouseWheel ==> e.data.WheelData?)
  }

  /** The `(uint16_t)` conversion: reduction modulo 2^16. */
  function U16(x: int): (r: int)
    ensures 0 <= r < 0x1_0000
    ensures (x - r) % 0x1_0000 == 0
    ensures 0 <= x < 0x1_0000 ==> r == x
  {
    x % 0x1_0000
  }

  /** The `(int16_t)` conversion: two's-complement wrap into [-2^15, 2^15). */
  function I16(x: int): (r: int)
    ensures -0x8000 <= r < 0x8000
    ensures (x - r) % 0x1_0000 == 0
    ensures -0x8000 <= x < 0x8000 ==> r == x
  {
    var u := x % 0x1_0000;
    if u < 0x8000 then u else u - 0x1_0000
  }

  /** The virtual key codes VC_SHIFT_L ... VC_META_R; their values are not part of this model. */
  datatype ModifierCodes = ModifierCodes(
    shiftL: int, shiftR: int, altL: int, altR: int,
    ctrlL: int, ctrlR: int, metaL: int, metaR: int)

  datatype KeyboardRecord = KeyboardRecord(
    shiftKey: bool, altKey: bool, ctrlKey: bool, metaKey: bool,
    keychar: Option<int>, keycode: int, rawcode: int)

  datatype MouseRecord = MouseRecord(button: int, clicks: int, x: int, y: int)

  datatype WheelRecord = WheelRecord(
    amount: int, clicks: int, direction: int, rotation: int, wheelType: int, x: int, y: int)

  /** The JavaScript object built by the decoder; an absent property is None. */
  datatype HostEvent = HostEvent(
    eventType: int, mask: int, time: int,
    keyboard: Option<KeyboardRecord>, mouse: Option<MouseRecord>, wheel: Option<WheelRecord>)

  /** Has the object exactly one of the keyboard, mouse and wheel properties? */
  predicate HasOnePayload(h: HostEvent)
  {
    (if h.keyboard.Some? then 1 else 0) + (if h.mouse.Some? then 1 else 0) + (if h.wheel.Some? then 1 else 0) == 1
  }

  /**
   * `CallJs`: the range tests on the raw type pick at most one payload; the
   * modifier flags come from the key code, not from the mask; `keychar` is
   * only reported for KeyTyped; every number is narrowed to 16 bits.
   */
  function Decode(e: RawEvent, vc: ModifierCodes): (r: HostEvent)
    requires WellFormed(e)
    ensures r.eventType == e.eventType % 0x1_0000 && r.mask == e.mask % 0x1_0000 && r.time == e.time % 0x1_0000
    ensures r.keyboard.Some? <==> KindOf(e.eventType).Some? && IsKeyboard(KindOf(e.eventType).value)
    ensures r.mouse.Some? <==> KindOf(e.eventType).Some? && IsMouse(KindOf(e.eventType).value)
    ensures r.wheel.Some? <==> KindOf(e.eventType) == Some(MouseWheel)
    ensures HasOnePayload(r) <==> KindOf(e.eventType).Some? && IsInput(KindOf(e.eventType).value)
    ensures r.keyboard.Some? ==>
      var kb := r.keyboard.value;
      (kb.keychar.Some? <==> e.eventType == Code(KeyTyped)) &&
      (kb.keychar.Some? ==> kb.keychar.value == U16(e.data.keychar)) &&
      kb.keycode == U16(e.data.keycode) && kb.rawcode == U16(e.data.rawcode) &&
      (kb.shiftKey <==> e.data.keycode in {vc.shiftL, vc.shiftR}) &&
      (kb.altKey <==> e.data.keycode in {vc.altL, vc.altR}) &&
      (kb.ctrlKey <==> e.data.keycode in {vc.ctrlL, vc.ctrlR}) &&
      (kb.metaKey <==> e.data.keycode in {vc.metaL, vc.metaR})
    ensures r.mouse.Some? ==>
      r.mouse.value == MouseRecord(U16(e.data.button), U16(e.data.clicks), I16(e.data.x), I16(e.data.y))
    ensures r.wheel.Some? ==>
      var w := r.wheel.value;
      w.amount == U16(e.data.amount) && w.clicks == U16(e.data.clicks) &&
      -0x8000 <= w.direction < 0x8000 && (w.direction - e.data.direction) % 0x1_0000 == 0 &&
      -0x8000 <= w.rotation < 0x8000 && (w.rotation - e.data.rotation) % 0x1_0000 == 0 &&
      w.wheelType == I16(e.data.scrollType) && w.x == I16(e.data.x) && w.y == I16(e.data.y)
  {
    var t := e.eventType;
    var base := HostEvent(U16(t), U16(e.mask), U16(e.time), None, None, None);
    if Code(KeyTyped) <= t && t <= Code(KeyReleased) then
      var kc := e.data.keycode;
      base.(keyboard := Some(KeyboardRecord(
        kc == vc.shiftL || kc == vc.shiftR,
        kc == vc.altL || kc == vc.altR,
        kc == vc.ctrlL || kc == vc.ctrlR,
        kc == vc.metaL || kc == vc.metaR,
        if t == Code(KeyTyped) then Some(U16(e.data.keychar)) else None,
        U16(kc), U16(e.data.rawcode))))
    else if Code(MouseClicked) <= t && t < Code(MouseWheel) then
      base.(mouse := Some(MouseRecord(U16(e.data.button), U16(e.data.clicks), I16(e.data.x), I16(e.data.y))))
    else if t == Code(MouseWheel) then
      base.(wheel := Some(WheelRecord(
        U16(e.data.amount), U16(e.data.clicks), I16(e.data.direction), I16(e.data.rotation),
        I16(e.data.scrollType), I16(e.data.x), I16(e.data.y))))
    else
      base
  }

  /** The modifier flags do not depend on the modifier mask at all. */
  lemma ModifiersIgnoreMask(e: RawEvent, mask: int, vc: ModifierCodes)
    requires WellFormed(e)
    ensures WellFormed(e.(mask := mask))
    ensures Decode(e.(mask := mask), vc).keyboard == Decode(e, vc).keyboard
  {
  }

  /**
   * A KeyTyped event reports its key character; a KeyPressed event with the
   * same payload reports the same keyboard record minus `keychar`.
   */
  lemma TypedVersusPressed(time: int, mask: int, keycode: int, rawcode: int, keychar: int, vc: ModifierCodes)
    ensures
      var typed := Decode(RawEvent(Code(KeyTyped), time, mask, KeyboardData(keycode, rawcode, keychar)), vc);
      var pressed := Decode(RawEvent(Code(KeyPressed), time, mask, KeyboardData(keycode, rawcode, keychar)), vc);
      typed.keyboard.Some? && pressed.keyboard.Some? &&
      typed.keyboard.value.keychar == Some(U16(keychar)) &&
      pressed.keyboard.value == typed.keyboard.value.(keychar := None)
  {
  }

  /** A left-shift key press sets shiftKey, and only shiftKey when the modifier codes are distinct. */
  lemma ShiftPressFixture(time: int, mask: int, rawcode: int, vc: ModifierCodes)
    requires vc.shiftL !in {vc.altL, vc.altR, vc.ctrlL, vc.ctrlR, vc.metaL, vc.metaR}
    ensures
      var h := Decode(RawEvent(Code(KeyPressed), time, mask, KeyboardData(vc.shiftL, rawcode, 0)), vc);
      h.keyboard.Some? && h.keyboard.value.shiftKey && !h.keyboard.value.altKey &&
      !h.keyboard.value.ctrlKey && !h.keyboard.value.metaKey && h.keyboard.value.keychar.None?
  {
  }

  /** A wheel event with amount 3 and direction -1 is reported with those values. */
  lemma WheelFixture(time: int, mask: int, clicks: int, x: int, y: int, rotation: int)
    ensures
      var h := Decode(RawEvent(Code(MouseWheel), time, mask, WheelData(clicks, x, y, 1, 3, rotation, -1)), ModifierCodes(0, 0, 0, 0, 0, 0, 0, 0));
      h.wheel.Some? && h.wheel.value.amount == 3 && h.wheel.value.direction == -1 &&
      h.keyboard.None? && h.mouse.None?
  {
  }
}
