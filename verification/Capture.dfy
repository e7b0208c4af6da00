// Capturing the pointer at a screen edge: what a worker publishes, for every sequence of compositor events (State and
// its dispatch handlers in src/capture_probe.rs, as a worker of the bridge).
module Capture {
  import opened Geometry
  import opened Protocol
  import Keyboard

  const BUFFER_LIMIT := 128

  datatype Why = Unset | Escape | Cancelled | ConnectionLost | QueueUnavailable | UnsupportedInput | Interrupted

  /** A strip along a configured edge. */
  datatype Strip = Strip(armed: bool, inside: bool)

  /** A worker. `room` says which attempts to hand an event to the owner succeed; `out` is what was handed over.
      `accepted` remembers all accepted input and `buffer` what had been accepted when the capture was ready. */
  datatype Worker = Worker(
    finished: bool, why: Why, requested: bool, ready: bool, locked: bool, focused: bool, inhibited: bool,
    selected: Option<nat>, fraction: real, strips: seq<Strip>, pending: seq<InputEvent>, pressed: set<int>,
    source: ScrollSource, room: seq<bool>, out: seq<Report>, accepted: seq<InputEvent>, buffer: seq<InputEvent>)

  /** What the compositor, or the owner's cancellation, may bring. */
  datatype Signal =
    | Disturbed
    | SeatReduced
    | PointerEntered(strip: Option<nat>, fraction: real, cancelled: bool, pointer: bool)
    | PointerLeft(strip: Option<nat>)
    | Clicked(code: int, pressed: bool)
    | ScrollSourceChanged(source: ScrollSource)
    | Scrolled(axis: Axis, amount: real)
    | ScrollStopped(axis: Axis)
    | PointerMoved(dx: real, dy: real)
    | FocusGained(selected: bool, whole: bool, keys: seq<int>)
    | FocusLost
    | KeyChanged(code: int, pressed: bool)
    | LockGained
    | LockLost
    | InhibitorActive
    | InhibitorLost
    | ArmStrips
    | Cancel

  predicate Fits16(code: int) {
    0 <= code < 0x1_0000
  }

  function New(strips: seq<Strip>, room: seq<bool>): Worker {
    Worker(false, Unset, false, false, false, false, false, None, 0.0, strips, [], {}, Wheel, room, [], [], [])
  }

  function Finish(w: Worker, why: Why): Worker {
    w.(finished := true, why := if w.finished then w.why else why)
  }

  function HasRoom(w: Worker): bool {
    w.room == [] || w.room[0]
  }

  function Publish(w: Worker, r: Report): Worker {
    if w.finished then w
    else
      var tried := w.(room := if w.room == [] then [] else w.room[1..]);
      if HasRoom(w) then tried.(out := w.out + [r]) else Finish(tried, QueueUnavailable)
  }

  function PublishAll(w: Worker, events: seq<InputEvent>): Worker {
    if events == [] then w
    else Publish(PublishAll(w, events[..|events| - 1]), Captured(events[|events| - 1]))
  }

  /** Input is forwarded once the capture is ready, and buffered before. */
  function Accept(w: Worker, e: InputEvent): Worker {
    if !e.Valid() then Finish(w, UnsupportedInput)
    else
      var noted := w.(accepted := w.accepted + [e]);
      if w.ready then Publish(noted, Captured(e))
      else if |w.pending| < BUFFER_LIMIT then noted.(pending := w.pending + [e])
      else Finish(w, QueueUnavailable)
  }

  function ReportReady(w: Worker): Worker {
    if w.ready || !w.locked || !w.focused || !w.inhibited || w.selected.None? then w
    else
      var ready := w.(ready := true, pending := [], buffer := w.pending);
      var started := Publish(ready, Started(w.selected.value, w.fraction));
      Publish(PublishAll(started, w.pending), Ready)
  }

  function RequestCapture(w: Worker, strip: nat, fraction: real, cancelled: bool, pointer: bool): Worker {
    if w.requested || w.finished then w
    else if cancelled then Finish(w, Cancelled)
    else
      var from := w.(fraction := Clamp(fraction, 0.0, 1.0));
      if strip >= |w.strips| || !pointer then from
      else from.(selected := Some(strip), requested := true)
  }

  function PressOne(w: Worker, code: int): Worker {
    if !Fits16(code) || code in w.pressed then w
    else Accept(w.(pressed := w.pressed + {code}), KeyInput(code, true))
  }

  function PressEach(w: Worker, keys: seq<int>): Worker {
    if keys == [] then w else PressOne(PressEach(w, keys[..|keys| - 1]), keys[|keys| - 1])
  }

  function OnKey(w: Worker, code: int, pressed: bool): Worker {
    if !Fits16(code) then Finish(w, UnsupportedInput)
    else
      var changed := pressed != (code in w.pressed);
      var held := w.(pressed := if pressed then w.pressed + {code} else w.pressed - {code});
      if code == Keyboard.ESCAPE && pressed && Keyboard.Emergency(held.pressed) then Finish(held, Escape)
      else if changed then Accept(held, KeyInput(code, pressed))
      else held
  }

  /** A pointer already at an edge must leave and come back before it is captured. */
  function Armed1(strips: seq<Strip>): seq<Strip> {
    seq(|strips|, i requires 0 <= i < |strips| => strips[i].(armed := !strips[i].inside))
  }

  function Dispatch(w: Worker, s: Signal): Worker {
    match s
    case Disturbed => Finish(w, Interrupted)
    case SeatReduced => if w.requested then Finish(w, Interrupted) else w
    case PointerEntered(strip, fraction, cancelled, pointer) =>
      if strip.None? || strip.value >= |w.strips| then w
      else
        var i := strip.value;
        var entered := w.(strips := w.strips[i := w.strips[i].(inside := true)]);
        if w.strips[i].armed then RequestCapture(entered, i, fraction, cancelled, pointer) else entered
    case PointerLeft(strip) =>
      if strip.None? || strip.value >= |w.strips| then w
      else w.(strips := w.strips[strip.value := Strip(true, false)])
    case Clicked(code, pressed) => if w.requested && Fits16(code) then Accept(w, Button(code, pressed)) else w
    case ScrollSourceChanged(source) => w.(source := source)
    case Scrolled(axis, amount) => if w.requested then Accept(w, Scroll(axis, amount, w.source)) else w
    case ScrollStopped(axis) => if w.requested then Accept(w, ScrollStop(axis, w.source)) else w
    case PointerMoved(dx, dy) => if w.requested then Accept(w, Motion(dx, dy)) else w
    case FocusGained(selected, whole, keys) =>
      if !selected || w.selected.None? then w
      else
        var focused := w.(focused := true);
        if whole then ReportReady(PressEach(focused, keys)) else Finish(focused, Interrupted)
    case FocusLost => if w.focused then Finish(w, Interrupted) else w
    case KeyChanged(code, pressed) => if w.requested then OnKey(w, code, pressed) else w
    case LockGained => ReportReady(w.(locked := true))
    case LockLost => Finish(w, Interrupted)
    case InhibitorActive => ReportReady(w.(inhibited := true))
    case InhibitorLost => if w.requested then Finish(w, Interrupted) else w
    case ArmStrips => Publish(w.(strips := Armed1(w.strips)), Report.Armed)
    case Cancel => Finish(w, Cancelled)
  }

  function DispatchAll(w: Worker, signals: seq<Signal>): Worker {
    if signals == [] then w else Dispatch(DispatchAll(w, signals[..|signals| - 1]), signals[|signals| - 1])
  }

  /** The end of a worker: events that still arrive during cleanup are ignored, and the end itself is announced. */
  function Closed(w: Worker, failed: bool, late: seq<Signal>): Worker {
    var stopped := DispatchAll(Finish(w, if failed then ConnectionLost else Interrupted), late);
    if HasRoom(stopped) then stopped.(out := stopped.out + [Finished(stopped.why == Escape)]) else stopped
  }

  // ---- The grammar of the published stream ----

  /** The stream without the announcements that strips are armed. */
  function Core(out: seq<Report>): seq<Report> {
    if out == [] then []
    else
      var last := out[|out| - 1];
      Core(out[..|out| - 1]) + if last.Armed? then [] else [last]
  }

  lemma CoreNext(out: seq<Report>, r: Report)
    ensures Core(out + [r]) == Core(out) + if r.Armed? then [] else [r]
  {
    assert (out + [r])[..|out|] == out;
  }

  function Inputs(events: seq<InputEvent>): seq<Report> {
    seq(|events|, i requires 0 <= i < |events| => Captured(events[i]))
  }

  /** What a ready capture has to say: its start, the buffered input, that it is ready, and then everything else. */
  function Script(w: Worker): seq<Report> {
    if !w.ready || w.selected.None? || |w.buffer| > |w.accepted| then []
    else
      [Started(w.selected.value, w.fraction)] + Inputs(w.buffer) + [Ready] + Inputs(w.accepted[|w.buffer|..])
  }

  /** Until it is finished a worker has said exactly its script; afterwards no more than that. */
  ghost predicate Grammatical(w: Worker) {
    && Core(w.out) <= Script(w) && (!w.finished ==> Core(w.out) == Script(w))
    && (forall r :: r in w.out ==> !r.Finished?)
    && (w.selected.Some? <==> w.requested) && (w.focused ==> w.selected.Some?)
    && (w.ready ==> w.selected.Some? && w.buffer <= w.accepted && w.pending == [])
    && (!w.ready ==> w.pending == w.accepted)
    && |w.buffer| <= BUFFER_LIMIT && |w.pending| <= BUFFER_LIMIT
  }

  /** Only what was said, and whether the worker goes on, may differ. */
  predicate Aside(w: Worker, after: Worker) {
    after == w.(finished := after.finished, why := after.why, room := after.room, out := after.out)
    && (w.finished ==> after.finished)
  }

  /** One more report is added to the stream, or the worker is finished. */
  ghost predicate Adds(w: Worker, after: Worker, more: seq<Report>) {
    && Aside(w, after)
    && (forall r :: r in after.out ==> r in w.out || r in more)
    && (w.finished ==> after.out == w.out)
    && Core(w.out) <= Core(after.out) <= Core(w.out) + more
    && (!after.finished ==> Core(after.out) == Core(w.out) + more)
  }

  lemma PublishAdds(w: Worker, r: Report)
    requires !r.Armed?
    ensures Adds(w, Publish(w, r), [r])
  {
    hide Core;
    CoreNext(w.out, r);
    assert Core(w.out) + [] == Core(w.out);
  }

  lemma {:induction false} PublishAllAdds(w: Worker, events: seq<InputEvent>)
    ensures Adds(w, PublishAll(w, events), Inputs(events))
    decreases |events|
  {
    hide Publish, Core;
    if events != [] {
      var shorter, last := events[..|events| - 1], events[|events| - 1];
      PublishAllAdds(w, shorter);
      PublishAdds(PublishAll(w, shorter), Captured(last));
      AddsTogether(w, PublishAll(w, shorter), PublishAll(w, events), Inputs(shorter), [Captured(last)]);
      assert Inputs(events) == Inputs(shorter) + [Captured(last)];
    }
  }

  lemma AddsTogether(w: Worker, between: Worker, after: Worker, first: seq<Report>, second: seq<Report>)
    requires Adds(w, between, first) && Adds(between, after, second)
    ensures Adds(w, after, first + second)
  {
    hide Core;
    assert Core(w.out) + (first + second) == Core(w.out) + first + second;
    if Core(after.out) != Core(between.out) + second || between.finished {
      assert Core(after.out) <= Core(w.out) + first + second;
    }
  }

  lemma FinishKeeps(w: Worker, why: Why)
    requires Grammatical(w)
    ensures Grammatical(Finish(w, why))
  {
    hide Core;
  }

  lemma InputsNext(events: seq<InputEvent>, e: InputEvent)
    ensures Inputs(events + [e]) == Inputs(events) + [Captured(e)]
  {
  }

  lemma AcceptKeeps(w: Worker, e: InputEvent)
    requires Grammatical(w)
    ensures Grammatical(Accept(w, e))
  {
    hide Core, Publish, InputEvent.Valid, Inputs;
    if e.Valid() && w.ready {
      var noted := w.(accepted := w.accepted + [e]);
      PublishAdds(noted, Captured(e));
      ScriptNext(w, e);
    }
  }

  lemma ScriptNext(w: Worker, e: InputEvent)
    requires w.ready && w.selected.Some? && w.buffer <= w.accepted
    ensures Script(w.(accepted := w.accepted + [e])) == Script(w) + [Captured(e)]
  {
    hide Inputs;
    var rest := w.accepted[|w.buffer|..];
    assert (w.accepted + [e])[|w.buffer|..] == rest + [e];
    InputsNext(rest, e);
  }

  lemma ReportReadyKeeps(w: Worker)
    requires Grammatical(w)
    ensures Grammatical(ReportReady(w))
  {
    hide Core, Publish, PublishAll, Inputs;
    if !(w.ready || !w.locked || !w.focused || !w.inhibited || w.selected.None?) {
      var ready := w.(ready := true, pending := [], buffer := w.pending);
      var start := Started(w.selected.value, w.fraction);
      PublishAdds(ready, start);
      var started := Publish(ready, start);
      PublishAllAdds(started, w.pending);
      var said := PublishAll(started, w.pending);
      AddsTogether(ready, started, said, [start], Inputs(w.pending));
      PublishAdds(said, Ready);
      AddsTogether(ready, said, Publish(said, Ready), [start] + Inputs(w.pending), [Ready]);
      ScriptAtStart(ready, w.pending);
      StartsEmpty(w);
      NoFinished(w.pending);
    }
  }

  lemma NoFinished(events: seq<InputEvent>)
    ensures forall r :: r in Inputs(events) ==> !r.Finished?
  {
  }

  lemma StartsEmpty(w: Worker)
    requires Grammatical(w) && !w.ready
    ensures Core(w.out) == []
  {
  }

  lemma ScriptAtStart(w: Worker, events: seq<InputEvent>)
    requires w.ready && w.selected.Some? && w.buffer == events && w.accepted == events
    ensures Script(w) == [Started(w.selected.value, w.fraction)] + Inputs(events) + [Ready]
  {
    assert w.accepted[|w.buffer|..] == [];
    assert Inputs([]) == [];
  }

  lemma PressOneKeeps(w: Worker, code: int)
    requires Grammatical(w)
    ensures Grammatical(PressOne(w, code)) && PressOne(w, code).selected == w.selected
    ensures PressOne(w, code).focused == w.focused
  {
    hide Core, Inputs;
    if Fits16(code) && code !in w.pressed {
      AcceptKeeps(w.(pressed := w.pressed + {code}), KeyInput(code, true));
    }
  }

  lemma {:induction false} PressEachKeeps(w: Worker, keys: seq<int>)
    requires Grammatical(w)
    ensures Grammatical(PressEach(w, keys))
    decreases |keys|
  {
    hide Grammatical, PressOne;
    if keys != [] {
      PressEachKeeps(w, keys[..|keys| - 1]);
      PressOneKeeps(PressEach(w, keys[..|keys| - 1]), keys[|keys| - 1]);
    }
  }

  lemma KeyKeeps(w: Worker, code: int, pressed: bool)
    requires Grammatical(w)
    ensures Grammatical(OnKey(w, code, pressed))
  {
    hide Accept, Finish, Core, Inputs, Keyboard.Emergency;
    FinishKeeps(w, UnsupportedInput);
    var held := w.(pressed := if pressed then w.pressed + {code} else w.pressed - {code});
    assert Grammatical(held);
    FinishKeeps(held, Escape);
    AcceptKeeps(held, KeyInput(code, pressed));
  }

  lemma PublishArmed(w: Worker)
    ensures var after := Publish(w, Report.Armed);
            && Aside(w, after) && Core(after.out) == Core(w.out)
            && (forall r :: r in after.out ==> r in w.out || r.Armed?) && (w.finished ==> after.out == w.out)
  {
    hide Core;
    CoreNext(w.out, Report.Armed);
  }

  lemma ArmKeeps(w: Worker)
    requires Grammatical(w)
    ensures Grammatical(Publish(w.(strips := Armed1(w.strips)), Report.Armed))
  {
    hide Inputs, Core, Publish, Armed1;
    PublishArmed(w.(strips := Armed1(w.strips)));
  }

  lemma DispatchKeeps(w: Worker, s: Signal)
    requires Grammatical(w)
    ensures Grammatical(Dispatch(w, s))
  {
    hide Accept, ReportReady, PressEach, OnKey, Finish, Core, Inputs, Publish, Armed1;
    match s
    case Disturbed => FinishKeeps(w, Interrupted);
    case SeatReduced => FinishKeeps(w, Interrupted);
    case PointerEntered(strip, fraction, cancelled, pointer) => EnterKeeps(w, s);
    case PointerLeft(strip) => EnterKeeps(w, s);
    case Clicked(code, pressed) => AcceptKeeps(w, Button(code, pressed));
    case ScrollSourceChanged(source) =>
    case Scrolled(axis, amount) => AcceptKeeps(w, Scroll(axis, amount, w.source));
    case ScrollStopped(axis) => AcceptKeeps(w, ScrollStop(axis, w.source));
    case PointerMoved(dx, dy) => AcceptKeeps(w, Motion(dx, dy));
    case FocusGained(selected, whole, keys) =>
      if selected && w.selected.Some? {
        var focused := w.(focused := true);
        assert Grammatical(focused);
        PressEachKeeps(focused, keys);
        ReportReadyKeeps(PressEach(focused, keys));
        FinishKeeps(focused, Interrupted);
      }
    case FocusLost => FinishKeeps(w, Interrupted);
    case KeyChanged(code, pressed) => KeyKeeps(w, code, pressed);
    case LockGained => ReportReadyKeeps(w.(locked := true));
    case LockLost => FinishKeeps(w, Interrupted);
    case InhibitorActive => ReportReadyKeeps(w.(inhibited := true));
    case InhibitorLost => FinishKeeps(w, Interrupted);
    case ArmStrips => ArmKeeps(w);
    case Cancel => FinishKeeps(w, Cancelled);
  }

  lemma EnterKeeps(w: Worker, s: Signal)
    requires Grammatical(w) && (s.PointerEntered? || s.PointerLeft?)
    ensures Grammatical(Dispatch(w, s))
  {
    hide Core, Inputs;
  }

  // ---- Keys ----

  /** The input among the reports. */
  function EventsOf(out: seq<Report>): seq<InputEvent> {
    if out == [] then []
    else
      var last := out[|out| - 1];
      EventsOf(out[..|out| - 1]) + if last.Captured? then [last.event] else []
  }

  /** A key is reported pressed only while it is up, and released only while it is down; every event is valid. */
  ghost predicate Sound(events: seq<InputEvent>) {
    forall i :: 0 <= i < |events| ==>
      && events[i].Valid()
      && (events[i].KeyInput? ==> (events[i].pressed <==> events[i].code !in Pressed(events[..i])))
  }

  lemma SoundPrefix(events: seq<InputEvent>, all: seq<InputEvent>)
    requires Sound(all) && events <= all
    ensures Sound(events)
  {
    forall i | 0 <= i < |events|
      ensures events[i].Valid()
              && (events[i].KeyInput? ==> (events[i].pressed <==> events[i].code !in Pressed(events[..i])))
    {
      assert events[i] == all[i] && events[..i] == all[..i];
    }
  }

  lemma SoundNext(events: seq<InputEvent>, e: InputEvent)
    requires Sound(events) && e.Valid() && (e.KeyInput? ==> (e.pressed <==> e.code !in Pressed(events)))
    ensures Sound(events + [e])
  {
    var all := events + [e];
    assert all[..|events|] == events;
    forall i | 0 <= i < |events| ensures all[i] == events[i] && all[..i] == events[..i] {
    }
  }

  /** Until it is finished, everything accepted, replayed from nothing, presses exactly the keys noted as pressed. */
  ghost predicate Typing(w: Worker) {
    Sound(w.accepted) && Pressed(w.accepted) == w.pressed
  }

  ghost predicate Truthful(w: Worker) {
    Grammatical(w) && Sound(EventsOf(w.out)) && (!w.finished ==> Typing(w))
  }

  lemma {:induction false} EventsOfCore(out: seq<Report>)
    ensures EventsOf(Core(out)) == EventsOf(out)
    decreases |out|
  {
    if out != [] {
      var shorter, last := out[..|out| - 1], out[|out| - 1];
      EventsOfCore(shorter);
      if last.Armed? {
        assert Core(out) == Core(shorter);
      } else {
        EventsOfNext(Core(shorter), last);
      }
    }
  }

  lemma EventsOfNext(out: seq<Report>, r: Report)
    ensures EventsOf(out + [r]) == EventsOf(out) + if r.Captured? then [r.event] else []
  {
    assert (out + [r])[..|out|] == out;
  }

  lemma {:induction false} EventsOfInputs(out: seq<Report>, events: seq<InputEvent>)
    ensures EventsOf(out + Inputs(events)) == EventsOf(out) + events
    decreases |events|
  {
    if events == [] {
      assert out + Inputs(events) == out;
    } else {
      var shorter, last := events[..|events| - 1], events[|events| - 1];
      EventsOfInputs(out, shorter);
      assert out + Inputs(events) == (out + Inputs(shorter)) + [Captured(last)];
      EventsOfNext(out + Inputs(shorter), Captured(last));
    }
  }

  lemma ScriptEvents(w: Worker)
    requires w.ready && w.selected.Some? && w.buffer <= w.accepted
    ensures EventsOf(Script(w)) == w.accepted
  {
    var start: seq<Report> := [Started(w.selected.value, w.fraction)];
    EventsOfNext([], start[0]);
    assert [] + start == start;
    EventsOfInputs(start, w.buffer);
    EventsOfNext(start + Inputs(w.buffer), Ready);
    EventsOfInputs(start + Inputs(w.buffer) + [Ready], w.accepted[|w.buffer|..]);
    assert w.buffer + w.accepted[|w.buffer|..] == w.accepted;
  }

  lemma {:induction false} EventsOfPrefix(out: seq<Report>, all: seq<Report>)
    requires out <= all
    ensures EventsOf(out) <= EventsOf(all)
    decreases |all|
  {
    if |out| < |all| {
      EventsOfPrefix(out, all[..|all| - 1]);
    } else {
      assert out == all;
    }
  }

  /** What was published is the beginning of what was accepted; with the buffer it is all of it, until the end. */
  lemma PublishedIsAccepted(w: Worker)
    requires Grammatical(w)
    ensures EventsOf(w.out) <= w.accepted
    ensures !w.finished ==> EventsOf(w.out) + w.pending == w.accepted
  {
    hide Core, Inputs;
    EventsOfCore(w.out);
    if w.ready {
      EventsOfPrefix(Core(w.out), Script(w));
      ScriptEvents(w);
    }
  }

  lemma FinishedSaysNothing(w: Worker, after: Worker)
    requires Truthful(w) && Grammatical(after) && w.finished && after.finished && after.out == w.out
    ensures Truthful(after)
  {
  }

  /** Accepting a change of a key, or any other input. */
  lemma AcceptTruthful(w: Worker, held: Worker, e: InputEvent)
    requires Truthful(w) && held == w.(pressed := PressedAfter(w.pressed, e))
    requires e.KeyInput? ==> (e.pressed <==> e.code !in w.pressed)
    ensures Truthful(Accept(held, e))
  {
    hide Grammatical, Sound, InputEvent.Valid, Publish;
    PressedAside(w, held);
    AcceptKeeps(held, e);
    AcceptedNext(held, e);
    var after := Accept(held, e);
    if w.finished {
      FinishedSaysNothing(w, after);
    } else {
      TypedNext(w, e);
      PublishedIsAccepted(after);
      SoundPrefix(EventsOf(after.out), if e.Valid() then w.accepted + [e] else w.accepted);
    }
  }

  lemma PublishAside(w: Worker, r: Report)
    ensures Aside(w, Publish(w, r)) && (w.finished ==> Publish(w, r) == w)
  {
  }

  lemma AcceptedNext(w: Worker, e: InputEvent)
    ensures var after := Accept(w, e);
            && after.pressed == w.pressed
            && (after.accepted == (if e.Valid() then w.accepted + [e] else w.accepted)
                || (after.finished && after.accepted == w.accepted))
            && (!after.finished ==> e.Valid())
            && (w.finished ==> after.finished && after.out == w.out)
  {
    hide InputEvent.Valid, Publish;
    PublishAside(w.(accepted := w.accepted + [e]), Captured(e));
  }

  lemma TypedNext(w: Worker, e: InputEvent)
    requires Typing(w) && (e.KeyInput? ==> (e.pressed <==> e.code !in w.pressed))
    ensures e.Valid() ==> Sound(w.accepted + [e]) && Pressed(w.accepted + [e]) == PressedAfter(w.pressed, e)
  {
    hide InputEvent.Valid;
    PressedAppend(w.accepted, e);
    if e.Valid() {
      SoundNext(w.accepted, e);
    }
  }

  lemma PressedAside(w: Worker, held: Worker)
    requires Grammatical(w) && held == w.(pressed := held.pressed)
    ensures Grammatical(held)
  {
  }

  lemma PressOneTruthful(w: Worker, code: int)
    requires Truthful(w)
    ensures Truthful(PressOne(w, code))
  {
    hide Truthful, Accept;
    if Fits16(code) && code !in w.pressed {
      AcceptTruthful(w, w.(pressed := w.pressed + {code}), KeyInput(code, true));
    }
  }

  lemma {:induction false} PressEachTruthful(w: Worker, keys: seq<int>)
    requires Truthful(w)
    ensures Truthful(PressEach(w, keys))
    decreases |keys|
  {
    hide Truthful, PressOne;
    if keys != [] {
      PressEachTruthful(w, keys[..|keys| - 1]);
      PressOneTruthful(PressEach(w, keys[..|keys| - 1]), keys[|keys| - 1]);
    }
  }

  lemma FinishTruthful(w: Worker, held: Worker, why: Why)
    requires Truthful(w) && held == w.(pressed := held.pressed)
    ensures Truthful(Finish(held, why))
  {
    hide Sound;
    FinishKeeps(held, why);
  }

  lemma KeyTruthful(w: Worker, code: int, pressed: bool)
    requires Truthful(w)
    ensures Truthful(OnKey(w, code, pressed))
  {
    hide Truthful, Accept, Finish, Keyboard.Emergency;
    var held := w.(pressed := if pressed then w.pressed + {code} else w.pressed - {code});
    FinishTruthful(w, w, UnsupportedInput);
    FinishTruthful(w, held, Escape);
    if pressed != (code in w.pressed) {
      AcceptTruthful(w, held, KeyInput(code, pressed));
    } else {
      assert held.pressed == w.pressed;
    }
  }

  /** A step that accepts no input: nothing new is published unless it was accepted already. */
  lemma QuietTruthful(w: Worker, after: Worker)
    requires Truthful(w) && Grammatical(after)
    requires after.accepted == w.accepted && after.pressed == w.pressed
    requires w.finished ==> after.finished && after.out == w.out
    ensures Truthful(after)
  {
    hide Grammatical, Sound;
    if !w.finished {
      PublishedIsAccepted(after);
      SoundPrefix(EventsOf(after.out), w.accepted);
    }
  }

  lemma ReportReadyTruthful(w: Worker)
    requires Truthful(w)
    ensures Truthful(ReportReady(w))
  {
    hide Grammatical, Sound, Publish, PublishAll, Core, Inputs;
    assert Grammatical(w);
    ReportReadyKeeps(w);
    if !(w.ready || !w.locked || !w.focused || !w.inhibited || w.selected.None?) {
      var ready := w.(ready := true, pending := [], buffer := w.pending);
      var start := Started(w.selected.value, w.fraction);
      PublishAdds(ready, start);
      var started := Publish(ready, start);
      PublishAllAdds(started, w.pending);
      PublishAdds(PublishAll(started, w.pending), Ready);
    }
    QuietTruthful(w, ReportReady(w));
  }

  lemma DispatchTruthful(w: Worker, s: Signal)
    requires Truthful(w)
    ensures Truthful(Dispatch(w, s))
  {
    hide Truthful, Accept, ReportReady, PressEach, OnKey, Finish, Publish, Armed1;
    match s
    case Disturbed => FinishTruthful(w, w, Interrupted);
    case SeatReduced => FinishTruthful(w, w, Interrupted);
    case PointerEntered(_, _, _, _) => EnterTruthful(w, s);
    case PointerLeft(_) => EnterTruthful(w, s);
    case Clicked(code, pressed) => AcceptTruthful(w, w, Button(code, pressed));
    case ScrollSourceChanged(_) => EnterTruthful(w, s);
    case Scrolled(axis, amount) => AcceptTruthful(w, w, Scroll(axis, amount, w.source));
    case ScrollStopped(axis) => AcceptTruthful(w, w, ScrollStop(axis, w.source));
    case PointerMoved(dx, dy) => AcceptTruthful(w, w, Motion(dx, dy));
    case FocusGained(selected, whole, keys) =>
      if selected && w.selected.Some? {
        var focused := w.(focused := true);
        FocusTruthful(w);
        PressEachTruthful(focused, keys);
        ReportReadyTruthful(PressEach(focused, keys));
        FinishTruthful(focused, focused, Interrupted);
      }
    case FocusLost => FinishTruthful(w, w, Interrupted);
    case KeyChanged(code, pressed) => KeyTruthful(w, code, pressed);
    case LockGained => NotedTruthful(w); ReportReadyTruthful(w.(locked := true));
    case LockLost => FinishTruthful(w, w, Interrupted);
    case InhibitorActive => NotedTruthful(w); ReportReadyTruthful(w.(inhibited := true));
    case InhibitorLost => FinishTruthful(w, w, Interrupted);
    case ArmStrips => ArmTruthful(w);
    case Cancel => FinishTruthful(w, w, Cancelled);
  }

  lemma FocusTruthful(w: Worker)
    requires Truthful(w) && w.selected.Some?
    ensures Truthful(w.(focused := true))
  {
    hide Sound, Core;
  }

  lemma NotedTruthful(w: Worker)
    requires Truthful(w)
    ensures Truthful(w.(locked := true)) && Truthful(w.(inhibited := true))
  {
    hide Sound, Core;
  }

  lemma EnterTruthful(w: Worker, s: Signal)
    requires Truthful(w) && (s.PointerEntered? || s.PointerLeft? || s.ScrollSourceChanged?)
    ensures Truthful(Dispatch(w, s))
  {
    hide Sound, Grammatical;
    DispatchKeeps(w, s);
    QuietTruthful(w, Dispatch(w, s));
  }

  lemma ArmTruthful(w: Worker)
    requires Truthful(w)
    ensures Truthful(Publish(w.(strips := Armed1(w.strips)), Report.Armed))
  {
    hide Sound, Grammatical;
    ArmKeeps(w);
    QuietTruthful(w, Publish(w.(strips := Armed1(w.strips)), Report.Armed));
  }

  // ---- The main results ----

  lemma NewTruthful(strips: seq<Strip>, room: seq<bool>)
    ensures Truthful(New(strips, room))
  {
  }

  /** For every sequence of compositor events and cancellations, and however full the owner's queue: the worker has said
      exactly its script until it is finished, and never more; what it published alternates per key and is valid; and
      until it is finished, what it published and buffered presses exactly the keys it notes as pressed. */
  lemma {:induction false} EveryStreamIsTruthful(strips: seq<Strip>, room: seq<bool>, signals: seq<Signal>)
    ensures Truthful(DispatchAll(New(strips, room), signals))
    decreases |signals|
  {
    hide Truthful, Dispatch;
    if signals == [] {
      NewTruthful(strips, room);
    } else {
      EveryStreamIsTruthful(strips, room, signals[..|signals| - 1]);
      DispatchTruthful(DispatchAll(New(strips, room), signals[..|signals| - 1]), signals[|signals| - 1]);
    }
  }

  lemma PublishedReplaysPressed(w: Worker)
    requires Truthful(w) && !w.finished
    ensures Pressed(EventsOf(w.out) + w.pending) == w.pressed
  {
    hide Grammatical, Sound;
    PublishedIsAccepted(w);
  }

  function Starts(out: seq<Report>): nat {
    if out == [] then 0 else Starts(out[..|out| - 1]) + if out[|out| - 1].Started? then 1 else 0
  }

  /** Input and readiness are announced only after the one start. */
  ghost predicate StartsFirst(out: seq<Report>) {
    Starts(out) <= 1
    && forall i :: 0 <= i < |out| && (out[i].Captured? || out[i].Ready?) ==> Starts(out[..i]) == 1
  }

  lemma {:induction false} ScriptStarts(w: Worker, out: seq<Report>)
    requires out <= Script(w)
    ensures Starts(out) == if out == [] then 0 else 1
    decreases |out|
  {
    if |out| > 1 {
      ScriptStarts(w, out[..|out| - 1]);
      ScriptLater(w, |out| - 1);
    } else if |out| == 1 {
      assert out[0] == Script(w)[0];
      assert out[..0] == [];
    }
  }

  lemma ScriptLater(w: Worker, i: nat)
    requires 0 < i < |Script(w)|
    ensures !Script(w)[i].Started?
  {
  }

  lemma {:induction false} CoreStarts(out: seq<Report>)
    ensures Starts(Core(out)) == Starts(out)
    decreases |out|
  {
    if out != [] {
      var shorter, last := out[..|out| - 1], out[|out| - 1];
      CoreStarts(shorter);
      if last.Armed? {
        assert Core(out) == Core(shorter);
      } else {
        assert Core(out)[..|Core(out)| - 1] == Core(shorter);
      }
    }
  }

  /** At most one crossing is announced, nothing is forwarded before it, and the end is announced last and once. */
  lemma {:induction false} StreamStartsFirst(w: Worker, out: seq<Report>)
    requires Core(out) <= Script(w)
    ensures StartsFirst(out)
    decreases |out|
  {
    CoreStarts(out);
    ScriptStarts(w, Core(out));
    if out != [] {
      var shorter, last := out[..|out| - 1], out[|out| - 1];
      CoreNext(shorter, last);
      assert shorter + [last] == out;
      StreamStartsFirst(w, shorter);
      forall i | 0 <= i < |out| && (out[i].Captured? || out[i].Ready?) ensures Starts(out[..i]) == 1 {
        if i < |shorter| {
          assert shorter[..i] == out[..i];
        } else {
          CoreStarts(shorter);
          ScriptStarts(w, Core(shorter));
          FirstIsStart(w, Core(out));
        }
      }
    }
  }

  lemma FirstIsStart(w: Worker, out: seq<Report>)
    requires out <= Script(w) && out != []
    ensures out[0].Started?
  {
    assert out[0] == Script(w)[0];
  }

  /** The whole life of a worker. */
  lemma WholeStream(strips: seq<Strip>, room: seq<bool>, signals: seq<Signal>, failed: bool, late: seq<Signal>)
    ensures var w := DispatchAll(New(strips, room), signals);
            var closed := Closed(w, failed, late);
            && StartsFirst(w.out) && (forall r :: r in w.out ==> !r.Finished?)
            && (closed.out == w.out || exists escape :: closed.out == w.out + [Finished(escape)])
  {
    hide Truthful, Dispatch, StartsFirst;
    EveryStreamIsTruthful(strips, room, signals);
    var w := DispatchAll(New(strips, room), signals);
    TruthfulGrammar(w);
    StreamStartsFirst(w, w.out);
    var ended := Finish(w, if failed then ConnectionLost else Interrupted);
    LateIsSilent(ended, late);
    var stopped := DispatchAll(ended, late);
    assert HasRoom(stopped) ==> Closed(w, failed, late).out == w.out + [Finished(stopped.why == Escape)];
  }

  lemma TruthfulGrammar(w: Worker)
    requires Truthful(w)
    ensures Core(w.out) <= Script(w) && forall r :: r in w.out ==> !r.Finished?
  {
  }

  lemma {:induction false} LateIsSilent(w: Worker, late: seq<Signal>)
    requires w.finished
    ensures DispatchAll(w, late).finished && DispatchAll(w, late).out == w.out
    decreases |late|
  {
    hide Dispatch;
    if late != [] {
      LateIsSilent(w, late[..|late| - 1]);
      SilentWhenFinished(DispatchAll(w, late[..|late| - 1]), late[|late| - 1]);
    }
  }

  lemma AcceptSilent(w: Worker, e: InputEvent)
    requires w.finished
    ensures Accept(w, e).finished && Accept(w, e).out == w.out
  {
    AcceptedNext(w, e);
  }

  lemma FocusSilent(w: Worker, keys: seq<int>)
    requires w.finished
    ensures var ready := ReportReady(PressEach(w, keys)); ready.finished && ready.out == w.out
  {
    PressEachSilent(w, keys);
    ReadySilent(PressEach(w, keys));
  }

  /** Inputs that only move strips or end the capture. */
  predicate Plain(s: Signal) {
    s.Disturbed? || s.SeatReduced? || s.PointerEntered? || s.PointerLeft? || s.ScrollSourceChanged? || s.FocusLost?
    || s.LockLost? || s.InhibitorLost? || s.Cancel?
  }

  lemma PlainSilent(w: Worker, s: Signal)
    requires w.finished && Plain(s)
    ensures Dispatch(w, s).finished && Dispatch(w, s).out == w.out
  {
    hide PressEach, Accept, ReportReady, OnKey, Publish, Armed1, InputEvent.Valid, Finish;
    FinishSilent(w);
  }

  lemma FinishSilent(w: Worker)
    requires w.finished
    ensures forall why :: Finish(w, why) == w
  {
  }

  lemma SilentWhenFinished(w: Worker, s: Signal)
    requires w.finished
    ensures Dispatch(w, s).finished && Dispatch(w, s).out == w.out
  {
    hide PressEach, Accept, ReportReady, OnKey, Publish, Armed1, RequestCapture;
    match s
    case FocusGained(selected, whole, keys) => FocusSilent(w.(focused := true), keys);
    case LockGained => ReadySilent(w.(locked := true));
    case InhibitorActive => ReadySilent(w.(inhibited := true));
    case Clicked(code, pressed) => AcceptSilent(w, Button(code, pressed));
    case Scrolled(axis, amount) => AcceptSilent(w, Scroll(axis, amount, w.source));
    case ScrollStopped(axis) => AcceptSilent(w, ScrollStop(axis, w.source));
    case PointerMoved(dx, dy) => AcceptSilent(w, Motion(dx, dy));
    case KeyChanged(code, pressed) => KeySilent(w, code, pressed);
    case ArmStrips => PublishAside(w.(strips := Armed1(w.strips)), Report.Armed);
    case _ => PlainSilent(w, s);
  }

  lemma KeySilent(w: Worker, code: int, pressed: bool)
    requires w.finished
    ensures OnKey(w, code, pressed).finished && OnKey(w, code, pressed).out == w.out
  {
    hide Accept, Keyboard.Emergency;
    AcceptedNext(w.(pressed := if pressed then w.pressed + {code} else w.pressed - {code}), KeyInput(code, pressed));
  }

  lemma ReadySilent(w: Worker)
    requires w.finished
    ensures ReportReady(w).finished && ReportReady(w).out == w.out
  {
    hide PublishAll, Inputs, Core;
    PublishAllAdds(Publish(w.(ready := true, pending := [], buffer := w.pending),
                           if w.selected.Some? then Started(w.selected.value, w.fraction) else Ready), w.pending);
  }

  lemma {:induction false} PressEachSilent(w: Worker, keys: seq<int>)
    requires w.finished
    ensures PressEach(w, keys).finished && PressEach(w, keys).out == w.out
    decreases |keys|
  {
    hide Accept;
    if keys != [] {
      PressEachSilent(w, keys[..|keys| - 1]);
      var before, code := PressEach(w, keys[..|keys| - 1]), keys[|keys| - 1];
      AcceptedNext(before.(pressed := before.pressed + {code}), KeyInput(code, true));
    }
  }
}
