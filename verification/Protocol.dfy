// Input events and their validation (src/protocol.rs and the frame rules of src/touchpad.rs).
module Protocol {
  datatype Option<+T> = None | Some(value: T)

  /** A fallible operation; a failure ends the session, so no state survives it. */
  datatype Outcome<+T> = Ok(value: T) | Failed {
    predicate IsFailure() {
      Failed?
    }
    function PropagateFailure<U>(): Outcome<U>
      requires Failed?
    {
      Failed
    }
    function Extract(): T
      requires Ok?
    {
      value
    }
  }

  /** How one fallible call turns out: an error may come before or after the call took effect. */
  datatype Luck = Done | FailedBefore | FailedAfter

  function Next(fate: seq<Luck>): Luck {
    if fate == [] then Done else fate[0]
  }

  function Rest(fate: seq<Luck>): seq<Luck> {
    if fate == [] then [] else fate[1..]
  }

  datatype Kind = Key | Absolute

  /** One touchpad event: a key or an absolute axis of the Linux input interface. */
  datatype TouchEvent = TouchEvent(kind: Kind, code: int, value: int)

  const TOUCH := 330
  const SLOT := 47
  const TRACKING := 57
  const MAX_VALUE := 1_000_000
  const MAX_FRAME := 512

  predicate TouchKey(code: int) {
    272 <= code <= 274 || code == 325 || code == 328 || code == 330 || 333 <= code <= 335
  }

  predicate TouchAxis(code: int) {
    code == 0 || code == 1 || code == 24 || code == 28 || 47 <= code <= 61
  }

  predicate ValidTouchEvent(e: TouchEvent) {
    match e.kind
    case Key => TouchKey(e.code) && 0 <= e.value <= 1
    case Absolute => TouchAxis(e.code) && -MAX_VALUE <= e.value <= MAX_VALUE
  }

  predicate ValidFrame(events: seq<TouchEvent>) {
    && 0 < |events| <= MAX_FRAME
    && forall i :: 0 <= i < |events| ==> ValidTouchEvent(events[i])
  }

  datatype Axis = Horizontal | Vertical
  datatype ScrollSource = Wheel | Finger | Continuous

  datatype InputEvent =
    | Touchpad(device: nat, time: nat, events: seq<TouchEvent>)
    | KeyInput(code: int, pressed: bool)
    | Button(code: int, pressed: bool)
    | Motion(dx: real, dy: real)
    | AbsoluteInput(x: nat, y: nat, width: nat, height: nat)
    | Scroll(axis: Axis, amount: real, source: ScrollSource)
    | ScrollStop(axis: Axis, source: ScrollSource)
  {
    predicate Valid() {
      match this
      case Touchpad(device, time, events) =>
        device < 4 && 1 <= time <= 1_000_000_000_000_000 && ValidFrame(events)
      case KeyInput(code, _) => 1 <= code <= 255
      case Button(code, _) => 272 <= code <= 279
      case Motion(dx, dy) => -32768.0 <= dx <= 32768.0 && -32768.0 <= dy <= 32768.0
      case AbsoluteInput(x, y, width, height) => 0 < width && 0 < height && x < width && y < height
      case Scroll(_, amount, _) => -32768.0 <= amount <= 32768.0
      case ScrollStop(_, _) => true
    }

    /** The code this event presses or releases, if it holds anything. */
    function HeldTransition(): Option<(int, bool)> {
      match this
      case KeyInput(code, pressed) => Some((code, pressed))
      case Button(code, pressed) => Some((code, pressed))
      case _ => None
    }
  }

  /** What a capture worker tells its owner. */
  datatype Report =
    | Started(edge: nat, fraction: real)
    | Captured(event: InputEvent)
    | Finished(escape: bool)
    | Armed
    | Ready

  /** What is physically down: the kind matters, a key release does not lift a button. */
  datatype Control = KeyControl(code: int) | ButtonControl(code: int)

  /** The event that lets go of a remembered code. */
  function Release(code: int): InputEvent {
    if code >= 272 then Button(code, false) else KeyInput(code, false)
  }

  /** The control a remembered code stands for. */
  function ControlOf(code: int): Control {
    if code >= 272 then ButtonControl(code) else KeyControl(code)
  }

  /** What an event does to the set of controls that are down. */
  function Effect(down: set<Control>, event: InputEvent): set<Control> {
    match event
    case KeyInput(code, pressed) => if pressed then down + {KeyControl(code)} else down - {KeyControl(code)}
    case Button(code, pressed) => if pressed then down + {ButtonControl(code)} else down - {ButtonControl(code)}
    case _ => down
  }

  /** The controls that are down after a whole run of events, starting with none. */
  function Down(events: seq<InputEvent>): set<Control> {
    if events == [] then {} else Effect(Down(events[..|events| - 1]), events[|events| - 1])
  }

  lemma DownAppend(events: seq<InputEvent>, event: InputEvent)
    ensures Down(events + [event]) == Effect(Down(events), event)
  {
    assert (events + [event])[..|events|] == events;
  }

  /** The keyboard keys that are down after a whole run of events. */
  function Pressed(events: seq<InputEvent>): set<int> {
    if events == [] then {} else PressedAfter(Pressed(events[..|events| - 1]), events[|events| - 1])
  }

  function PressedAfter(keys: set<int>, event: InputEvent): set<int> {
    match event
    case KeyInput(code, pressed) => if pressed then keys + {code} else keys - {code}
    case _ => keys
  }

  lemma PressedAppend(events: seq<InputEvent>, event: InputEvent)
    ensures Pressed(events + [event]) == PressedAfter(Pressed(events), event)
  {
    assert (events + [event])[..|events|] == events;
  }

  /** Keys seen as keys and keys seen as controls are the same keys. */
  lemma {:induction false} PressedAreControls(events: seq<InputEvent>)
    ensures forall c :: c in Pressed(events) <==> KeyControl(c) in Down(events)
  {
    if events != [] {
      PressedAreControls(events[..|events| - 1]);
    }
  }
}
