// When a capture is ready and what interrupts it, told from the compositor's side (src/capture_probe.rs).
module Engagement {
  import opened Capture
  import opened Compositor
  import opened Protocol
  import Keyboard

  /** After a crossing the compositor gave the keyboard to the surface of the capture. */
  function Focused(strips: seq<Strip>, signals: seq<Signal>): bool {
    if signals == [] then false
    else
      var front, last := signals[..|signals| - 1], signals[|signals| - 1];
      Focused(strips, front) || (last.FocusGained? && last.selected && Crossed(strips, front).Some?)
  }

  /** The compositor has given the capture everything: a crossing, the locked pointer, the keyboard, and the inhibited
      shortcuts. */
  predicate Granted(strips: seq<Strip>, signals: seq<Signal>) {
    && Crossed(strips, signals).Some? && LockGained in signals && InhibitorActive in signals && Focused(strips, signals)
  }

  /** After these signals, this one takes something of it away, or the owner cancels: the lock at any time, the keyboard
      once it was given, seats and inhibitor once the pointer crossed. */
  predicate Interrupts(strips: seq<Strip>, signals: seq<Signal>, s: Signal) {
    || s.Disturbed? || s.LockLost? || s.Cancel?
    || (s.FocusLost? && Focused(strips, signals))
    || (Crossed(strips, signals).Some?
        && (s.SeatReduced? || s.InhibitorLost? || (s.FocusGained? && s.selected && !s.whole)))
    || (Crossed(strips, signals).None? && s.PointerEntered? && s.cancelled && s.strip.Some?
        && s.strip.value < |strips| && ArmedAfter(strips[s.strip.value], signals, s.strip.value))
  }

  predicate InterruptedAt(strips: seq<Strip>, signals: seq<Signal>, k: nat) {
    k < |signals| && Interrupts(strips, signals[..k], signals[k])
  }

  // ---- What the worker's own steps do ----

  /** The owner's queue was full, the input was not supported, or the emergency chord was pressed. */
  predicate OwnEnd(why: Why) {
    why in {QueueUnavailable, UnsupportedInput, Escape}
  }

  predicate Told(w: Worker) {
    w.finished <==> w.why != Unset
  }

  /** The worker goes on, or ends for one of its own reasons. */
  predicate MayEnd(w: Worker, after: Worker) {
    Told(w) ==>
      Told(after) && if w.finished then after.finished && after.why == w.why else after.finished ==> OwnEnd(after.why)
  }

  predicate SameGrip(w: Worker, after: Worker) {
    && after.locked == w.locked && after.focused == w.focused && after.inhibited == w.inhibited
    && after.selected == w.selected && after.ready == w.ready && MayEnd(w, after)
  }

  lemma PublishGrips(w: Worker, r: Report)
    ensures SameGrip(w, Publish(w, r))
  {
  }

  lemma {:induction false} PublishAllGrips(w: Worker, events: seq<InputEvent>)
    ensures SameGrip(w, PublishAll(w, events))
    decreases |events|
  {
    hide Publish;
    if events != [] {
      PublishAllGrips(w, events[..|events| - 1]);
      PublishGrips(PublishAll(w, events[..|events| - 1]), Captured(events[|events| - 1]));
    }
  }

  lemma AcceptGrips(w: Worker, e: InputEvent)
    ensures SameGrip(w, Accept(w, e))
  {
    hide InputEvent.Valid, Publish;
    PublishGrips(w.(accepted := w.accepted + [e]), Captured(e));
  }

  lemma {:induction false} PressEachGrips(w: Worker, keys: seq<int>)
    ensures SameGrip(w, PressEach(w, keys))
    decreases |keys|
  {
    hide Accept;
    if keys != [] {
      var front, code := keys[..|keys| - 1], keys[|keys| - 1];
      PressEachGrips(w, front);
      var before := PressEach(w, front);
      AcceptGrips(before.(pressed := before.pressed + {code}), KeyInput(code, true));
    }
  }

  lemma OnKeyGrips(w: Worker, code: int, pressed: bool)
    ensures SameGrip(w, OnKey(w, code, pressed))
  {
    hide Accept, Keyboard.Emergency;
    AcceptGrips(w.(pressed := if pressed then w.pressed + {code} else w.pressed - {code}), KeyInput(code, pressed));
  }

  /** Readiness is noted as soon as everything is there. */
  lemma ReadyGrips(w: Worker)
    ensures var after := ReportReady(w);
            && SameGrip(w, after.(ready := w.ready))
            && (after.ready <==> w.ready || (w.locked && w.focused && w.inhibited && w.selected.Some?))
  {
    hide Publish, PublishAll;
    if w.selected.Some? {
      var ready := w.(ready := true, pending := [], buffer := w.pending);
      var started := Publish(ready, Started(w.selected.value, w.fraction));
      PublishGrips(ready, Started(w.selected.value, w.fraction));
      PublishAllGrips(started, w.pending);
      PublishGrips(PublishAll(started, w.pending), Ready);
    }
  }

  // ---- The worker agrees ----

  /** What the worker notes of lock, inhibitor, keyboard and readiness is what the compositor said. */
  predicate Grips(strips: seq<Strip>, signals: seq<Signal>, w: Worker) {
    && (w.locked <==> LockGained in signals) && (w.inhibited <==> InhibitorActive in signals)
    && (w.focused <==> Focused(strips, signals)) && (w.ready <==> Granted(strips, signals))
  }

  lemma GripsNext(strips: seq<Strip>, signals: seq<Signal>, s: Signal)
    ensures LockGained in signals + [s] <==> LockGained in signals || s == LockGained
    ensures InhibitorActive in signals + [s] <==> InhibitorActive in signals || s == InhibitorActive
    ensures Focused(strips, signals + [s])
       <==> Focused(strips, signals) || (s.FocusGained? && s.selected && Crossed(strips, signals).Some?)
    ensures Crossed(strips, signals).Some? ==> Crossed(strips, signals + [s]) == Crossed(strips, signals)
    ensures Crossed(strips, signals).None? && Crossed(strips, signals + [s]).Some? ==> s.PointerEntered?
  {
    assert (signals + [s])[..|signals|] == signals;
  }

  lemma {:induction false} FocusedCrossed(strips: seq<Strip>, signals: seq<Signal>)
    ensures Focused(strips, signals) ==> Crossed(strips, signals).Some?
    decreases |signals|
  {
    hide Crosses;
    if signals != [] {
      FocusedCrossed(strips, signals[..|signals| - 1]);
    }
  }

  /** One signal, at a worker that goes on and knows what the compositor said. */
  ghost predicate Engages(strips: seq<Strip>, signals: seq<Signal>, w: Worker, s: Signal) {
    var after := Dispatch(w, s);
    && Told(after) && (Interrupts(strips, signals, s) ==> after.finished)
    && (after.finished ==> OwnEnd(after.why) || Interrupts(strips, signals, s))
    && (!after.finished ==> Grips(strips, signals + [s], after))
  }

  lemma DispatchEngages(strips: seq<Strip>, signals: seq<Signal>, w: Worker, s: Signal)
    requires Agrees(strips, signals, w) && Grips(strips, signals, w) && Told(w) && !w.finished
    ensures Engages(strips, signals, w, s)
  {
    hide Accept, ReportReady, PressEach, OnKey, Publish, Armed1, RequestCapture, Crossed, Focused, ArmedAfter, Agrees,
         Grips, Interrupts, CrossingAgrees;
    AgreesCrossing(strips, signals, w);
    match s
    case PointerEntered(_, _, _, _) => EnterEngages(strips, signals, w, s);
    case FocusGained(_, _, keys) => FocusEngages(strips, signals, w, s);
    case LockGained =>
      ReadyGrips(w.(locked := true));
      GrantEngages(strips, signals, w, s);
    case InhibitorActive =>
      ReadyGrips(w.(inhibited := true));
      GrantEngages(strips, signals, w, s);
    case Clicked(code, pressed) =>
      AcceptGrips(w, Button(code, pressed));
      OtherEngages(strips, signals, w, s);
    case Scrolled(axis, amount) =>
      AcceptGrips(w, Scroll(axis, amount, w.source));
      OtherEngages(strips, signals, w, s);
    case ScrollStopped(axis) =>
      AcceptGrips(w, ScrollStop(axis, w.source));
      OtherEngages(strips, signals, w, s);
    case PointerMoved(dx, dy) =>
      AcceptGrips(w, Motion(dx, dy));
      OtherEngages(strips, signals, w, s);
    case KeyChanged(code, pressed) =>
      OnKeyGrips(w, code, pressed);
      OtherEngages(strips, signals, w, s);
    case ArmStrips =>
      PublishGrips(w.(strips := Armed1(w.strips)), Report.Armed);
      OtherEngages(strips, signals, w, s);
    case PointerLeft(_) => OtherEngages(strips, signals, w, s);
    case ScrollSourceChanged(_) => OtherEngages(strips, signals, w, s);
    case _ => TakenEngages(strips, signals, w, s);
  }

  lemma AgreesCrossing(strips: seq<Strip>, signals: seq<Signal>, w: Worker)
    requires Agrees(strips, signals, w)
    ensures CrossingAgrees(strips, signals, w)
  {
  }

  /** Signals that neither give nor take. */
  lemma OtherEngages(strips: seq<Strip>, signals: seq<Signal>, w: Worker, s: Signal)
    requires Grips(strips, signals, w) && Told(w) && !w.finished && SameGrip(w, Dispatch(w, s))
    requires s.Clicked? || s.Scrolled? || s.ScrollStopped? || s.PointerMoved? || s.KeyChanged? || s.ArmStrips?
             || s.PointerLeft? || s.ScrollSourceChanged?
    ensures Engages(strips, signals, w, s)
  {
    hide Dispatch, Crossed, Focused, ArmedAfter;
    GripsNext(strips, signals, s);
  }

  lemma GrantEngages(strips: seq<Strip>, signals: seq<Signal>, w: Worker, s: Signal)
    requires CrossingAgrees(strips, signals, w) && Grips(strips, signals, w) && Told(w) && !w.finished
    requires (s == LockGained && SameGrip(w.(locked := true), Dispatch(w, s).(ready := w.ready)))
             || (s == InhibitorActive && SameGrip(w.(inhibited := true), Dispatch(w, s).(ready := w.ready)))
    requires var after := Dispatch(w, s);
             after.ready <==> w.ready || (after.locked && after.focused && after.inhibited && after.selected.Some?)
    ensures Engages(strips, signals, w, s)
  {
    hide Dispatch, Crossed, Focused, ArmedAfter, KeyDown;
    GripsNext(strips, signals, s);
  }

  lemma FocusEngages(strips: seq<Strip>, signals: seq<Signal>, w: Worker, s: Signal)
    requires Agrees(strips, signals, w) && Grips(strips, signals, w) && Told(w) && !w.finished && s.FocusGained?
    ensures Engages(strips, signals, w, s)
  {
    hide ReportReady, PressEach, Crossed, Focused, ArmedAfter, KeyDown, StripAgrees;
    GripsNext(strips, signals, s);
    FocusedCrossed(strips, signals);
    var focused := w.(focused := true);
    PressEachGrips(focused, s.keys);
    ReadyGrips(PressEach(focused, s.keys));
  }

  /** Signals that can only take. */
  lemma TakenEngages(strips: seq<Strip>, signals: seq<Signal>, w: Worker, s: Signal)
    requires CrossingAgrees(strips, signals, w) && Grips(strips, signals, w) && Told(w) && !w.finished
    requires s.Disturbed? || s.SeatReduced? || s.FocusLost? || s.LockLost? || s.InhibitorLost? || s.Cancel?
    ensures Engages(strips, signals, w, s)
  {
    hide Crossed, Focused, ArmedAfter, KeyDown;
    GripsNext(strips, signals, s);
  }

  lemma EnterEngages(strips: seq<Strip>, signals: seq<Signal>, w: Worker, s: Signal)
    requires Agrees(strips, signals, w) && Grips(strips, signals, w) && Told(w) && !w.finished && s.PointerEntered?
    ensures Engages(strips, signals, w, s)
  {
    hide KeyDown, Crosses, Crossed, Focused, ArmedAfter, InsideAfter;
    GripsNext(strips, signals, s);
    FocusedCrossed(strips, signals);
    if s.strip.Some? && s.strip.value < |strips| {
      assert StripAgrees(strips, signals, w, s.strip.value);
    }
  }

  /** Over every sequence of signals. */
  lemma {:induction false} AlwaysEngaged(strips: seq<Strip>, room: seq<bool>, signals: seq<Signal>)
    ensures var w := Led(strips, room, signals);
            && Told(w) && (!w.finished ==> Grips(strips, signals, w))
            && ((exists k: nat :: InterruptedAt(strips, signals, k)) ==> w.finished)
            && (w.finished ==> OwnEnd(w.why) || exists k: nat :: InterruptedAt(strips, signals, k))
    decreases |signals|
  {
    hide Dispatch, Agrees, Interrupts, Grips;
    if signals == [] {
      NewGrips(strips, room);
    } else {
      var front, last := signals[..|signals| - 1], signals[|signals| - 1];
      AlwaysEngaged(strips, room, front);
      InterruptedNext(strips, front, last);
      assert front + [last] == signals;
      var w := Led(strips, room, front);
      if w.finished {
        FinishedStays(w, last);
      } else {
        NotesAreTrue(strips, room, front);
        DispatchEngages(strips, front, w, last);
      }
    }
  }

  lemma NewGrips(strips: seq<Strip>, room: seq<bool>)
    ensures Told(Capture.New(strips, room)) && Grips(strips, [], Capture.New(strips, room))
  {
  }

  lemma InterruptedNext(strips: seq<Strip>, front: seq<Signal>, s: Signal)
    ensures (exists k: nat :: InterruptedAt(strips, front + [s], k))
       <==> (exists k: nat :: InterruptedAt(strips, front, k)) || Interrupts(strips, front, s)
  {
    hide Interrupts;
    var signals := front + [s];
    assert signals[..|front|] == front;
    forall k: nat | k < |front| ensures InterruptedAt(strips, signals, k) <==> InterruptedAt(strips, front, k) {
      assert signals[..k] == front[..k];
    }
    if Interrupts(strips, front, s) {
      assert InterruptedAt(strips, signals, |front|);
    }
    if exists k: nat :: InterruptedAt(strips, front, k) {
      var k: nat :| InterruptedAt(strips, front, k);
      assert InterruptedAt(strips, signals, k);
    }
  }

  lemma FinishedStays(w: Worker, s: Signal)
    requires w.finished && Told(w)
    ensures var after := Dispatch(w, s); after.finished && Told(after) && after.why == w.why
  {
    hide Accept, ReportReady, PressEach, OnKey, Publish, Armed1, RequestCapture;
    match s
    case PointerEntered(_, _, _, _) => EnterStays(w, s);
    case FocusGained(_, _, keys) =>
      var focused := w.(focused := true);
      PressEachGrips(focused, keys);
      ReadyGrips(PressEach(focused, keys));
    case LockGained => ReadyGrips(w.(locked := true));
    case InhibitorActive => ReadyGrips(w.(inhibited := true));
    case Clicked(code, pressed) => AcceptGrips(w, Button(code, pressed));
    case Scrolled(axis, amount) => AcceptGrips(w, Scroll(axis, amount, w.source));
    case ScrollStopped(axis) => AcceptGrips(w, ScrollStop(axis, w.source));
    case PointerMoved(dx, dy) => AcceptGrips(w, Motion(dx, dy));
    case KeyChanged(code, pressed) => OnKeyGrips(w, code, pressed);
    case ArmStrips => PublishGrips(w.(strips := Armed1(w.strips)), Report.Armed);
    case _ =>
  }

  lemma EnterStays(w: Worker, s: Signal)
    requires w.finished && s.PointerEntered?
    ensures Dispatch(w, s).finished && Dispatch(w, s).why == w.why
  {
  }

  // ---- Readiness and interruption ----

  lemma {:induction false} CoreHolds(out: seq<Report>, r: Report)
    requires !r.Armed?
    ensures r in Core(out) <==> r in out
    decreases |out|
  {
    if out != [] {
      CoreHolds(out[..|out| - 1], r);
      assert out == out[..|out| - 1] + [out[|out| - 1]];
    }
  }

  /** Over every sequence of signals and however full the owner's queue: a worker that goes on has announced its
      crossing and that it is ready exactly if the compositor has given it everything that a capture needs. */
  lemma ReadyExactlyWhen(strips: seq<Strip>, room: seq<bool>, signals: seq<Signal>)
    ensures var w := Led(strips, room, signals);
            !w.finished ==>
              && (Ready in w.out <==> Granted(strips, signals))
              && ((exists r :: r in w.out && r.Started?) <==> Granted(strips, signals))
  {
    hide DispatchAll, Granted, Core, Script, Sound, Typing;
    AlwaysEngaged(strips, room, signals);
    EveryStreamIsTruthful(strips, room, signals);
    var w := Led(strips, room, signals);
    if !w.finished {
      CoreHolds(w.out, Ready);
      ScriptSays(w);
      forall r | r in w.out && r.Started? ensures r in Script(w) {
        CoreHolds(w.out, r);
      }
      if w.ready {
        CoreHolds(w.out, Started(w.selected.value, w.fraction));
      }
    }
  }

  lemma ScriptSays(w: Worker)
    requires Grammatical(w)
    ensures w.ready ==> w.selected.Some? && Ready in Script(w) && Started(w.selected.value, w.fraction) in Script(w)
    ensures !w.ready ==> Script(w) == []
  {
    if w.ready {
      assert Script(w)[0] == Started(w.selected.value, w.fraction);
      assert Script(w)[1 + |w.buffer|] == Ready;
    }
  }

  /** Over every sequence of signals: the worker is over exactly if one of them took something away that it needs, or
      its own queue, input or emergency chord ended it. */
  lemma InterruptedExactlyWhen(strips: seq<Strip>, room: seq<bool>, signals: seq<Signal>)
    ensures var w := Led(strips, room, signals);
            w.finished <==> OwnEnd(w.why) || exists k: nat :: InterruptedAt(strips, signals, k)
  {
    hide DispatchAll, InterruptedAt;
    AlwaysEngaged(strips, room, signals);
  }
}
