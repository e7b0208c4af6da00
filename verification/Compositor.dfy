// What a capture worker says and does, told from the compositor's side: where the pointer crossed, which keys are down,
// what was input, and that the emergency chord, and nothing else, ends the capture as an escape (src/capture_probe.rs).
module Compositor {
  import opened Capture
  import opened Geometry
  import opened Protocol
  import Keyboard

  // ---- The compositor's own account of its signals ----

  /** The pointer is inside the strip after these signals, if it was inside before them as given. */
  function InsideAfter(before: bool, signals: seq<Signal>, strip: nat): bool {
    if signals == [] then before
    else
      var last := signals[|signals| - 1];
      if last.PointerEntered? && last.strip == Some(strip) then true
      else if last.PointerLeft? && last.strip == Some(strip) then false
      else InsideAfter(before, signals[..|signals| - 1], strip)
  }

  /** The strip waits for the pointer: it left the strip, or was outside when the strips were armed. */
  function ArmedAfter(before: Strip, signals: seq<Signal>, strip: nat): bool {
    if signals == [] then before.armed
    else
      var front, last := signals[..|signals| - 1], signals[|signals| - 1];
      if last.PointerLeft? && last.strip == Some(strip) then true
      else if last.ArmStrips? then !InsideAfter(before.inside, front, strip)
      else ArmedAfter(before, front, strip)
  }

  /** Where the pointer crossed, and how many signals had come by then. */
  datatype Crossing = Crossing(at: nat, strip: nat, fraction: real)

  /** The signal is the pointer entering this armed strip, with a pointer to capture and without a cancellation. */
  predicate Crosses(strips: seq<Strip>, signals: seq<Signal>, i: nat)
    requires i < |signals|
  {
    && signals[i].PointerEntered? && signals[i].strip.Some? && !signals[i].cancelled && signals[i].pointer
    && signals[i].strip.value < |strips|
    && ArmedAfter(strips[signals[i].strip.value], signals[..i], signals[i].strip.value)
  }

  /** The first crossing counts. */
  function Crossed(strips: seq<Strip>, signals: seq<Signal>): Option<Crossing> {
    if signals == [] then None
    else
      var before := Crossed(strips, signals[..|signals| - 1]);
      var last := signals[|signals| - 1];
      if before.Some? then before
      else if Crosses(strips, signals, |signals| - 1)
      then Some(Crossing(|signals|, last.strip.value, Clamp(last.fraction, 0.0, 1.0)))
      else None
  }

  predicate PressesKey(s: Signal, code: int) {
    s == KeyChanged(code, true) || (s.FocusGained? && s.selected && s.whole && code in s.keys)
  }

  ghost predicate PressedAt(signals: seq<Signal>, i: nat, code: int) {
    && i < |signals| && PressesKey(signals[i], code)
    && forall j: nat :: i < j < |signals| ==> signals[j] != KeyChanged(code, false)
  }

  /** Of the signals after the first ones, one says that the key is down, and none since that it is up. */
  ghost predicate KeyDown(signals: seq<Signal>, from: nat, code: int) {
    Fits16(code) && exists i: nat :: from <= i && PressedAt(signals, i, code)
  }

  /** The source of scrolling that the compositor named last. */
  function SourceAfter(signals: seq<Signal>): ScrollSource {
    if signals == [] then Wheel
    else
      var last := signals[|signals| - 1];
      if last.ScrollSourceChanged? then last.source else SourceAfter(signals[..|signals| - 1])
  }

  // ---- Keys ----

  lemma KeyNext(signals: seq<Signal>, s: Signal, from: nat, code: int)
    requires from <= |signals|
    ensures KeyDown(signals + [s], from, code)
       <==> (Fits16(code) && PressesKey(s, code)) || (KeyDown(signals, from, code) && s != KeyChanged(code, false))
  {
    var all := signals + [s];
    assert all[|signals|] == s;
    if Fits16(code) && PressesKey(s, code) {
      assert PressedAt(all, |signals|, code);
    }
    if KeyDown(signals, from, code) && s != KeyChanged(code, false) {
      var i: nat :| from <= i && PressedAt(signals, i, code);
      assert PressedAt(all, i, code);
    }
    if KeyDown(all, from, code) && !PressesKey(s, code) {
      var i: nat :| from <= i && PressedAt(all, i, code);
      assert all[i] == signals[i];
      forall j: nat | i < j < |signals| ensures signals[j] != KeyChanged(code, false) {
        assert all[j] == signals[j];
      }
      assert PressedAt(signals, i, code);
    }
  }

  // ---- The worker agrees ----

  /** What the worker notes of one strip. */
  ghost predicate StripAgrees(strips: seq<Strip>, signals: seq<Signal>, w: Worker, i: nat)
    requires i < |strips| == |w.strips|
  {
    && w.strips[i].inside == InsideAfter(strips[i].inside, signals, i)
    && w.strips[i].armed == ArmedAfter(strips[i], signals, i)
  }

  ghost predicate KeyAgrees(signals: seq<Signal>, from: nat, w: Worker, code: int) {
    code in w.pressed <==> KeyDown(signals, from, code)
  }

  /** What the worker notes of crossing and keys. */
  ghost predicate CrossingAgrees(strips: seq<Strip>, signals: seq<Signal>, w: Worker) {
    match Crossed(strips, signals)
    case None => !w.requested && w.selected.None? && w.pressed == {}
    case Some(c) =>
      && w.requested && w.selected == Some(c.strip) && w.fraction == c.fraction && c.at <= |signals|
      && forall code: int :: KeyAgrees(signals, c.at, w, code)
  }

  /** What the worker notes of strips, crossing, keys and scrolling is what the compositor said. */
  ghost predicate Agrees(strips: seq<Strip>, signals: seq<Signal>, w: Worker) {
    && |w.strips| == |strips| && (forall i: nat :: i < |strips| ==> StripAgrees(strips, signals, w, i))
    && w.source == SourceAfter(signals) && CrossingAgrees(strips, signals, w)
  }

  /** Signals about neither pointer, keys nor scrolling change none of it. */
  predicate Elsewhere(s: Signal) {
    && !s.PointerEntered? && !s.PointerLeft? && !s.ArmStrips? && !s.KeyChanged? && !s.FocusGained?
    && !s.ScrollSourceChanged?
  }

  predicate SameNotes(w: Worker, after: Worker) {
    && after.strips == w.strips && after.source == w.source && after.requested == w.requested
    && after.selected == w.selected && after.fraction == w.fraction && after.pressed == w.pressed
  }

  lemma Unfold(strips: seq<Strip>, signals: seq<Signal>, s: Signal)
    ensures (signals + [s])[..|signals|] == signals
  {
  }

  /** A signal about neither leaves everything noted as it was. */
  lemma ElsewhereAgrees(strips: seq<Strip>, signals: seq<Signal>, w: Worker, s: Signal, after: Worker)
    requires Agrees(strips, signals, w) && Elsewhere(s) && SameNotes(w, after)
    ensures Agrees(strips, signals + [s], after)
  {
    hide KeyDown, StripAgrees;
    Unfold(strips, signals, s);
    StripsAside(strips, signals, w, s, after);
    KeysAside(strips, signals, w, s, after);
  }

  lemma StripsAside(strips: seq<Strip>, signals: seq<Signal>, w: Worker, s: Signal, after: Worker)
    requires Agrees(strips, signals, w) && after.strips == w.strips
    requires !s.PointerEntered? && !s.PointerLeft? && !s.ArmStrips?
    ensures forall i: nat :: i < |strips| ==> StripAgrees(strips, signals + [s], after, i)
  {
    hide Crossed, KeyDown;
    Unfold(strips, signals, s);
    forall i: nat | i < |strips| ensures StripAgrees(strips, signals + [s], after, i) {
      assert StripAgrees(strips, signals, w, i);
    }
  }

  /** A signal that neither crosses nor says anything about keys leaves crossing and keys alone. */
  lemma KeysAside(strips: seq<Strip>, signals: seq<Signal>, w: Worker, s: Signal, after: Worker)
    requires CrossingAgrees(strips, signals, w) && !s.KeyChanged? && !s.FocusGained?
    requires after.requested == w.requested && after.selected == w.selected && after.pressed == w.pressed
    requires w.requested ==> after.fraction == w.fraction
    requires Crossed(strips, signals).Some? || !Crosses(strips, signals + [s], |signals|)
    ensures CrossingAgrees(strips, signals + [s], after)
  {
    hide Crosses, KeyDown;
    Unfold(strips, signals, s);
    var c := Crossed(strips, signals);
    if c.Some? {
      forall code: int ensures KeyAgrees(signals + [s], c.value.at, after, code) {
        assert KeyAgrees(signals, c.value.at, w, code);
        KeyNext(signals, s, c.value.at, code);
      }
    }
  }

  /** The pointer enters or leaves a strip. */
  lemma PointerAgrees(strips: seq<Strip>, signals: seq<Signal>, w: Worker, s: Signal)
    requires Agrees(strips, signals, w) && (s.PointerEntered? || s.PointerLeft?) && !Dispatch(w, s).finished
    ensures Agrees(strips, signals + [s], Dispatch(w, s))
  {
    hide KeyDown, Crosses;
    Unfold(strips, signals, s);
    var after := Dispatch(w, s);
    StripsMove(strips, signals, w, s);
    if Crossed(strips, signals).None? && Crosses(strips, signals + [s], |signals|) {
      if w.finished {
        SilentWhenFinished(w, s);
      }
      CrossingNoted(strips, signals, w, s);
    } else {
      NotCrossing(strips, signals, w, s);
      KeysAside(strips, signals, w, s, after);
    }
  }

  lemma StripsMove(strips: seq<Strip>, signals: seq<Signal>, w: Worker, s: Signal)
    requires Agrees(strips, signals, w) && (s.PointerEntered? || s.PointerLeft?)
    ensures var after := Dispatch(w, s);
            && |after.strips| == |strips| && after.source == w.source
            && forall i: nat :: i < |strips| ==> StripAgrees(strips, signals + [s], after, i)
  {
    hide Crossed, KeyDown, Dispatch, InsideAfter, ArmedAfter;
    MovedStrips(w, s);
    forall i: nat | i < |strips| ensures StripAgrees(strips, signals + [s], Dispatch(w, s), i) {
      assert StripAgrees(strips, signals, w, i);
      PointerMoves(strips[i], signals, s, i);
    }
  }

  /** What the worker does to its strips. */
  lemma MovedStrips(w: Worker, s: Signal)
    requires s.PointerEntered? || s.PointerLeft?
    ensures var after := Dispatch(w, s);
            && |after.strips| == |w.strips| && after.source == w.source
            && forall i: nat :: i < |w.strips| ==>
                 after.strips[i] == if s.strip != Some(i) then w.strips[i]
                                    else if s.PointerEntered? then w.strips[i].(inside := true) else Strip(true, false)
  {
    hide Accept, ReportReady, PressEach, OnKey, Publish, Armed1, RequestCapture, Finish, Clamp;
    if s.PointerEntered? && s.strip.Some? {
      if s.strip.value < |w.strips| {
        var i := s.strip.value;
        RequestNotes(w.(strips := w.strips[i := w.strips[i].(inside := true)]), i, s.fraction, s.cancelled, s.pointer);
      }
    }
  }

  lemma RequestNotes(w: Worker, strip: nat, fraction: real, cancelled: bool, pointer: bool)
    ensures var after := RequestCapture(w, strip, fraction, cancelled, pointer);
            && after.strips == w.strips && after.source == w.source && after.pressed == w.pressed
            && (w.requested ==> after == w)
            && (cancelled || !pointer || strip >= |w.strips| ==>
                  after.requested == w.requested && after.selected == w.selected)
  {
    hide Clamp;
  }

  /** What the compositor says about them. */
  lemma PointerMoves(before: Strip, signals: seq<Signal>, s: Signal, i: nat)
    requires s.PointerEntered? || s.PointerLeft?
    ensures InsideAfter(before.inside, signals + [s], i)
         == if s.strip == Some(i) then s.PointerEntered? else InsideAfter(before.inside, signals, i)
    ensures ArmedAfter(before, signals + [s], i)
         == ((s.PointerLeft? && s.strip == Some(i)) || ArmedAfter(before, signals, i))
  {
    assert (signals + [s])[..|signals|] == signals;
  }

  lemma NotCrossing(strips: seq<Strip>, signals: seq<Signal>, w: Worker, s: Signal)
    requires Agrees(strips, signals, w) && (s.PointerEntered? || s.PointerLeft?) && !Dispatch(w, s).finished
    requires Crossed(strips, signals).Some? || !Crosses(strips, signals + [s], |signals|)
    ensures var after := Dispatch(w, s);
            && after.requested == w.requested && after.selected == w.selected && after.pressed == w.pressed
            && (w.requested ==> after.fraction == w.fraction)
  {
    hide KeyDown, Crossed, Accept, ReportReady, PressEach, OnKey, Publish, Armed1, InsideAfter, ArmedAfter,
         RequestCapture;
    Unfold(strips, signals, s);
    assert (signals + [s])[|signals|] == s;
    if s.PointerEntered? && s.strip.Some? && s.strip.value < |strips| {
      var i := s.strip.value;
      assert StripAgrees(strips, signals, w, i);
      RequestNotes(w.(strips := w.strips[i := w.strips[i].(inside := true)]), i, s.fraction, s.cancelled, s.pointer);
    }
  }

  lemma CrossingNoted(strips: seq<Strip>, signals: seq<Signal>, w: Worker, s: Signal)
    requires Agrees(strips, signals, w) && !w.finished
    requires Crossed(strips, signals).None? && Crosses(strips, signals + [s], |signals|)
    ensures CrossingAgrees(strips, signals + [s], Dispatch(w, s))
  {
    hide KeyAgrees, Accept, ReportReady, PressEach, OnKey, Publish, Armed1, InsideAfter;
    Unfold(strips, signals, s);
    assert (signals + [s])[|signals|] == s;
    assert StripAgrees(strips, signals, w, s.strip.value);
    NoneDown(signals + [s], Dispatch(w, s));
  }

  lemma NoneDown(signals: seq<Signal>, w: Worker)
    requires w.pressed == {}
    ensures forall code: int :: KeyAgrees(signals, |signals|, w, code)
  {
  }

  lemma ArmingAgrees(strips: seq<Strip>, signals: seq<Signal>, w: Worker)
    requires Agrees(strips, signals, w)
    ensures Agrees(strips, signals + [ArmStrips], Dispatch(w, ArmStrips))
  {
    hide KeyDown, Core, Publish, Accept, ReportReady, PressEach, OnKey;
    Unfold(strips, signals, ArmStrips);
    var after := Dispatch(w, ArmStrips);
    PublishAside(w.(strips := Armed1(w.strips)), Report.Armed);
    forall i: nat | i < |strips| ensures StripAgrees(strips, signals + [ArmStrips], after, i) {
      assert StripAgrees(strips, signals, w, i);
    }
    KeysAside(strips, signals, w, ArmStrips, after);
  }

  lemma SourceAgrees(strips: seq<Strip>, signals: seq<Signal>, w: Worker, source: ScrollSource)
    requires Agrees(strips, signals, w)
    ensures Agrees(strips, signals + [ScrollSourceChanged(source)], Dispatch(w, ScrollSourceChanged(source)))
  {
    hide KeyDown, StripAgrees, Publish, Accept, ReportReady, PressEach, OnKey, Armed1;
    var s := ScrollSourceChanged(source);
    Unfold(strips, signals, s);
    StripsAside(strips, signals, w, s, w.(source := source));
    KeysAside(strips, signals, w, s, w.(source := source));
  }

  /** Keys pressed and released since the crossing. */
  lemma KeysMove(strips: seq<Strip>, signals: seq<Signal>, w: Worker, s: Signal, after: Worker)
    requires Agrees(strips, signals, w) && (s.KeyChanged? || s.FocusGained?)
    requires after.strips == w.strips && after.source == w.source && after.requested == w.requested
    requires after.selected == w.selected && after.fraction == w.fraction
    requires w.requested ==>
               forall code: int :: code in after.pressed
                 <==> (Fits16(code) && PressesKey(s, code)) || (code in w.pressed && s != KeyChanged(code, false))
    requires !w.requested ==> after.pressed == w.pressed
    ensures Agrees(strips, signals + [s], after)
  {
    hide KeyDown, StripAgrees, PressesKey;
    Unfold(strips, signals, s);
    StripsAside(strips, signals, w, s, after);
    var c := Crossed(strips, signals);
    assert !Crosses(strips, signals + [s], |signals|);
    if c.Some? {
      forall code: int ensures KeyAgrees(signals + [s], c.value.at, after, code) {
        assert KeyAgrees(signals, c.value.at, w, code);
        KeyNext(signals, s, c.value.at, code);
      }
    }
  }

  lemma AcceptNotes(w: Worker, e: InputEvent)
    ensures SameNotes(w, Accept(w, e)) && (w.finished ==> Accept(w, e).finished)
  {
    hide InputEvent.Valid;
    PublishAside(w.(accepted := w.accepted + [e]), Captured(e));
  }

  lemma {:induction false} PressEachNotes(w: Worker, keys: seq<int>)
    ensures var after := PressEach(w, keys);
            && SameNotes(w.(pressed := after.pressed), after) && (w.finished ==> after.finished)
            && forall code :: code in after.pressed <==> code in w.pressed || (Fits16(code) && code in keys)
    decreases |keys|
  {
    hide Accept;
    if keys != [] {
      var front, code := keys[..|keys| - 1], keys[|keys| - 1];
      PressEachNotes(w, front);
      var before := PressEach(w, front);
      AcceptNotes(before.(pressed := before.pressed + {code}), KeyInput(code, true));
      assert forall x :: x in keys <==> x in front || x == code;
    }
  }

  lemma ReadyNotes(w: Worker)
    ensures SameNotes(w, ReportReady(w)) && (w.finished ==> ReportReady(w).finished)
  {
    hide Core, Inputs, Publish, PublishAll;
    var ready := w.(ready := true, pending := [], buffer := w.pending);
    var start := if w.selected.Some? then Started(w.selected.value, w.fraction) else Ready;
    var started := Publish(ready, start);
    PublishAside(ready, start);
    PublishAllAdds(started, w.pending);
    PublishAside(PublishAll(started, w.pending), Ready);
  }

  lemma FocusAgrees(strips: seq<Strip>, signals: seq<Signal>, w: Worker, s: Signal)
    requires Agrees(strips, signals, w) && s.FocusGained? && !Dispatch(w, s).finished
    ensures Agrees(strips, signals + [s], Dispatch(w, s))
  {
    hide PressEach, ReportReady, KeyDown, StripAgrees, Crosses, Publish, Accept, OnKey, Armed1;
    if s.selected && w.selected.Some? && s.whole {
      var focused := w.(focused := true);
      PressEachNotes(focused, s.keys);
      ReadyNotes(PressEach(focused, s.keys));
    }
    KeysMove(strips, signals, w, s, Dispatch(w, s));
  }

  lemma OnKeyNotes(w: Worker, code: int, pressed: bool)
    ensures var after := OnKey(w, code, pressed);
            && SameNotes(w.(pressed := after.pressed), after)
            && (!after.finished ==>
                  Fits16(code) && after.pressed == if pressed then w.pressed + {code} else w.pressed - {code})
  {
    hide Accept, Keyboard.Emergency;
    AcceptNotes(w.(pressed := if pressed then w.pressed + {code} else w.pressed - {code}), KeyInput(code, pressed));
  }

  lemma KeyAgreesNext(strips: seq<Strip>, signals: seq<Signal>, w: Worker, s: Signal)
    requires Agrees(strips, signals, w) && s.KeyChanged? && !Dispatch(w, s).finished
    ensures Agrees(strips, signals + [s], Dispatch(w, s))
  {
    hide Accept, OnKey, KeyDown, StripAgrees, Crosses, Agrees, Publish, ReportReady, PressEach, Armed1;
    if w.requested {
      OnKeyNotes(w, s.code, s.pressed);
    }
    KeysMove(strips, signals, w, s, Dispatch(w, s));
  }

  /** As long as the worker goes on, it notes what the compositor says. */
  lemma DispatchAgrees(strips: seq<Strip>, signals: seq<Signal>, w: Worker, s: Signal)
    requires Agrees(strips, signals, w) && !Dispatch(w, s).finished
    ensures Agrees(strips, signals + [s], Dispatch(w, s))
  {
    hide Agrees, Accept, ReportReady, PressEach, OnKey, Publish, Armed1;
    match s
    case PointerEntered(_, _, _, _) => PointerAgrees(strips, signals, w, s);
    case PointerLeft(_) => PointerAgrees(strips, signals, w, s);
    case ArmStrips => ArmingAgrees(strips, signals, w);
    case ScrollSourceChanged(source) => SourceAgrees(strips, signals, w, source);
    case KeyChanged(_, _) => KeyAgreesNext(strips, signals, w, s);
    case FocusGained(_, _, _) => FocusAgrees(strips, signals, w, s);
    case Clicked(code, pressed) =>
      AcceptNotes(w, Button(code, pressed));
      ElsewhereAgrees(strips, signals, w, s, Dispatch(w, s));
    case Scrolled(axis, amount) =>
      AcceptNotes(w, Scroll(axis, amount, w.source));
      ElsewhereAgrees(strips, signals, w, s, Dispatch(w, s));
    case ScrollStopped(axis) =>
      AcceptNotes(w, ScrollStop(axis, w.source));
      ElsewhereAgrees(strips, signals, w, s, Dispatch(w, s));
    case PointerMoved(dx, dy) =>
      AcceptNotes(w, Motion(dx, dy));
      ElsewhereAgrees(strips, signals, w, s, Dispatch(w, s));
    case LockGained =>
      ReadyNotes(w.(locked := true));
      ElsewhereAgrees(strips, signals, w, s, Dispatch(w, s));
    case InhibitorActive =>
      ReadyNotes(w.(inhibited := true));
      ElsewhereAgrees(strips, signals, w, s, Dispatch(w, s));
    case _ => ElsewhereAgrees(strips, signals, w, s, Dispatch(w, s));
  }

  /** The worker that these signals have led to. */
  function Led(strips: seq<Strip>, room: seq<bool>, signals: seq<Signal>): Worker {
    DispatchAll(Capture.New(strips, room), signals)
  }

  lemma NewAgrees(strips: seq<Strip>, room: seq<bool>)
    ensures Agrees(strips, [], Capture.New(strips, room))
  {
    forall i: nat | i < |strips| ensures StripAgrees(strips, [], Capture.New(strips, room), i) {
    }
  }

  /** Over every sequence of signals: while the worker goes on, the crossing, the keys, the strips and the source of
      scrolling that it notes are those the compositor has named. */
  lemma {:induction false} NotesAreTrue(strips: seq<Strip>, room: seq<bool>, signals: seq<Signal>)
    ensures !Led(strips, room, signals).finished ==> Agrees(strips, signals, Led(strips, room, signals))
    decreases |signals|
  {
    hide Agrees, Dispatch;
    if signals == [] {
      NewAgrees(strips, room);
    } else {
      var front, last := signals[..|signals| - 1], signals[|signals| - 1];
      NotesAreTrue(strips, room, front);
      assert front + [last] == signals;
      if !Led(strips, room, signals).finished {
        StaysFinished(Led(strips, room, front), last);
        DispatchAgrees(strips, front, Led(strips, room, front), last);
      }
    }
  }

  lemma StaysFinished(w: Worker, s: Signal)
    ensures w.finished ==> Dispatch(w, s).finished
  {
    hide Dispatch;
    if w.finished {
      SilentWhenFinished(w, s);
    }
  }

  // ---- The emergency chord ----

  /** Ctrl, Alt and Shift, each from either side, by their key codes. */
  ghost predicate ChordDown(signals: seq<Signal>, from: nat) {
    && (KeyDown(signals, from, 29) || KeyDown(signals, from, 97))
    && (KeyDown(signals, from, 56) || KeyDown(signals, from, 100))
    && (KeyDown(signals, from, 42) || KeyDown(signals, from, 54))
  }

  /** The signal at `k` presses Escape while the chord is down since the crossing, at a worker that still goes on. */
  ghost predicate EscapesAt(strips: seq<Strip>, room: seq<bool>, signals: seq<Signal>, k: nat) {
    && k < |signals| && signals[k] == KeyChanged(1, true)
    && !Led(strips, room, signals[..k]).finished
    && Crossed(strips, signals[..k]).Some? && ChordDown(signals[..k], Crossed(strips, signals[..k]).value.at)
  }

  /** One signal: the worker is done as an escape if it was, or if this is Escape with the chord down. */
  lemma WhyNext(w: Worker, s: Signal)
    requires Ends(w)
    ensures var after := Dispatch(w, s);
            && (after.why == Escape <==> w.why == Escape || (!w.finished && Chords(w, s)))
            && Ends(after)
            && (Chords(w, s) ==> after.out == w.out && after.finished)
  {
    hide Accept, ReportReady, PressEach, Publish, Armed1, OnKey, RequestCapture;
    match s
    case PointerEntered(_, _, _, _) => EnterWhy(w, s);
    case FocusGained(selected, whole, keys) =>
      PressEachWhy(w.(focused := true), keys);
      ReadyWhy(PressEach(w.(focused := true), keys));
    case LockGained => ReadyWhy(w.(locked := true));
    case InhibitorActive => ReadyWhy(w.(inhibited := true));
    case Clicked(code, pressed) => AcceptWhy(w, Button(code, pressed));
    case Scrolled(axis, amount) => AcceptWhy(w, Scroll(axis, amount, w.source));
    case ScrollStopped(axis) => AcceptWhy(w, ScrollStop(axis, w.source));
    case PointerMoved(dx, dy) => AcceptWhy(w, Motion(dx, dy));
    case KeyChanged(code, pressed) => KeyWhy(w, code, pressed);
    case ArmStrips => PublishWhy(w.(strips := Armed1(w.strips)), Report.Armed);
    case _ =>
  }

  lemma EnterWhy(w: Worker, s: Signal)
    requires Ends(w) && s.PointerEntered?
    ensures SameWhy(w, Dispatch(w, s)) && Ends(Dispatch(w, s))
  {
    hide Accept, ReportReady, PressEach, Publish, Armed1, OnKey, Clamp;
  }

  lemma KeyWhy(w: Worker, code: int, pressed: bool)
    requires Ends(w)
    ensures var after := OnKey(w, code, pressed);
            var chord := code == Keyboard.ESCAPE && pressed && Keyboard.Emergency(w.pressed + {Keyboard.ESCAPE});
            && (after.why == Escape <==> w.why == Escape || (!w.finished && chord)) && Ends(after)
            && (chord ==> after.out == w.out && after.finished)
  {
    hide Accept, Keyboard.Emergency;
    AcceptWhy(w.(pressed := if pressed then w.pressed + {code} else w.pressed - {code}), KeyInput(code, pressed));
  }

  /** An escape is an end. */
  predicate Ends(w: Worker) {
    w.why == Escape ==> w.finished
  }

  predicate Chords(w: Worker, s: Signal) {
    w.requested && s == KeyChanged(Keyboard.ESCAPE, true) && Keyboard.Emergency(w.pressed + {Keyboard.ESCAPE})
  }

  predicate SameWhy(w: Worker, after: Worker) {
    Ends(w) ==> (after.why == Escape <==> w.why == Escape) && Ends(after)
  }

  lemma PublishWhy(w: Worker, r: Report)
    ensures SameWhy(w, Publish(w, r))
  {
  }

  lemma AcceptWhy(w: Worker, e: InputEvent)
    ensures SameWhy(w, Accept(w, e))
  {
    hide InputEvent.Valid;
  }

  lemma {:induction false} PressEachWhy(w: Worker, keys: seq<int>)
    ensures SameWhy(w, PressEach(w, keys))
    decreases |keys|
  {
    hide Accept;
    if keys != [] {
      var front, code := keys[..|keys| - 1], keys[|keys| - 1];
      PressEachWhy(w, front);
      var before := PressEach(w, front);
      AcceptWhy(before.(pressed := before.pressed + {code}), KeyInput(code, true));
    }
  }

  lemma {:induction false} PublishAllWhy(w: Worker, events: seq<InputEvent>)
    ensures SameWhy(w, PublishAll(w, events))
    decreases |events|
  {
    hide Publish;
    if events != [] {
      PublishAllWhy(w, events[..|events| - 1]);
      PublishWhy(PublishAll(w, events[..|events| - 1]), Captured(events[|events| - 1]));
    }
  }

  lemma ReadyWhy(w: Worker)
    ensures SameWhy(w, ReportReady(w))
  {
    hide Publish, PublishAll;
    if w.selected.Some? {
      var ready := w.(ready := true, pending := [], buffer := w.pending);
      var start := Started(w.selected.value, w.fraction);
      PublishWhy(ready, start);
      PublishAllWhy(Publish(ready, start), w.pending);
      PublishWhy(PublishAll(Publish(ready, start), w.pending), Ready);
    }
  }

  /** What the worker checks is what the compositor has said. */
  lemma ChordIsDown(strips: seq<Strip>, signals: seq<Signal>, w: Worker, s: Signal)
    requires Agrees(strips, signals, w)
    ensures Chords(w, s)
       <==> s == KeyChanged(1, true) && Crossed(strips, signals).Some?
            && ChordDown(signals, Crossed(strips, signals).value.at)
  {
    hide KeyDown, StripAgrees;
    var c := Crossed(strips, signals);
    if c.Some? {
      var from := c.value.at;
      assert KeyAgrees(signals, from, w, 29) && KeyAgrees(signals, from, w, 97);
      assert KeyAgrees(signals, from, w, 56) && KeyAgrees(signals, from, w, 100);
      assert KeyAgrees(signals, from, w, 42) && KeyAgrees(signals, from, w, 54);
    }
  }

  lemma EscapeNext(strips: seq<Strip>, room: seq<bool>, signals: seq<Signal>)
    requires signals != []
    ensures EscapesAt(strips, room, signals, |signals| - 1)
       <==> (var w := Led(strips, room, signals[..|signals| - 1]); !w.finished && Chords(w, signals[|signals| - 1]))
  {
    hide Agrees, Chords, ChordDown, Dispatch, Crossed;
    var front := signals[..|signals| - 1];
    NotesAreTrue(strips, room, front);
    if !Led(strips, room, front).finished {
      ChordIsDown(strips, front, Led(strips, room, front), signals[|signals| - 1]);
    }
  }

  lemma EarlierEscape(strips: seq<Strip>, room: seq<bool>, signals: seq<Signal>, k: nat)
    requires k < |signals| - 1
    ensures EscapesAt(strips, room, signals, k) <==> EscapesAt(strips, room, signals[..|signals| - 1], k)
  {
    hide Led, ChordDown, Crossed;
    assert signals[..|signals| - 1][..k] == signals[..k];
  }

  /** Over every sequence of signals, the capture ends as an escape exactly if at some signal, by what the compositor
      has said since the pointer crossed, Ctrl, Alt and Shift are down and Escape is pressed, while the worker goes on.
      */
  lemma {:induction false} EscapeExactly(strips: seq<Strip>, room: seq<bool>, signals: seq<Signal>)
    ensures var w := Led(strips, room, signals);
            && (w.why == Escape <==> exists k: nat :: EscapesAt(strips, room, signals, k))
            && (w.why == Escape ==> w.finished)
    decreases |signals|
  {
    hide EscapesAt, Dispatch, Chords;
    if signals == [] {
      NoSignal(strips, room);
    } else {
      var front, last := signals[..|signals| - 1], signals[|signals| - 1];
      EscapeExactly(strips, room, front);
      WhyNext(Led(strips, room, front), last);
      EscapeNext(strips, room, signals);
      if Led(strips, room, front).why == Escape {
        var k: nat :| EscapesAt(strips, room, front, k);
        WithinSignals(strips, room, front, k);
        EarlierEscape(strips, room, signals, k);
      }
      forall k: nat | EscapesAt(strips, room, signals, k) && k != |front| ensures EscapesAt(strips, room, front, k) {
        WithinSignals(strips, room, signals, k);
        EarlierEscape(strips, room, signals, k);
      }
    }
  }

  lemma NoSignal(strips: seq<Strip>, room: seq<bool>)
    ensures forall k: nat :: !EscapesAt(strips, room, [], k)
  {
  }

  lemma WithinSignals(strips: seq<Strip>, room: seq<bool>, signals: seq<Signal>, k: nat)
    requires EscapesAt(strips, room, signals, k)
    ensures k < |signals|
  {
  }

  /** And then the worker has said nothing since, says nothing more but that it is finished by an escape, and says that
      whatever comes, if its owner's queue has room. Finishing for another reason is never announced as an escape. */
  lemma EscapeIsAnnounced(strips: seq<Strip>, room: seq<bool>, signals: seq<Signal>, failed: bool, late: seq<Signal>)
    ensures var w := Led(strips, room, signals);
            var closed := Closed(w, failed, late);
            && (forall k: nat :: EscapesAt(strips, room, signals, k) ==>
                  w.out == Led(strips, room, signals[..k]).out
                  && (closed.out == w.out || closed.out == w.out + [Finished(true)])
                  && (HasRoom(DispatchAll(w, late)) ==> closed.out == w.out + [Finished(true)]))
            && ((forall k: nat :: !EscapesAt(strips, room, signals, k)) ==>
                  closed.out == w.out || closed.out == w.out + [Finished(false)])
  {
    hide Dispatch, Chords, ChordDown, Crossed;
    var w := Led(strips, room, signals);
    EscapeExactly(strips, room, signals);
    var ended := Finish(w, if failed then ConnectionLost else Interrupted);
    LateWhy(ended, late);
    LateIsSilent(ended, late);
    forall k: nat | EscapesAt(strips, room, signals, k)
      ensures w.out == Led(strips, room, signals[..k]).out && ended == w
    {
      SilentSince(strips, room, signals, k);
    }
  }

  lemma {:induction false} LateWhy(w: Worker, late: seq<Signal>)
    requires w.finished
    ensures DispatchAll(w, late).why == Escape <==> w.why == Escape
    decreases |late|
  {
    hide Dispatch, Chords;
    if late != [] {
      LateWhy(w, late[..|late| - 1]);
      LateIsSilent(w, late[..|late| - 1]);
      WhyNext(DispatchAll(w, late[..|late| - 1]), late[|late| - 1]);
    }
  }

  lemma {:induction false} SilentSince(strips: seq<Strip>, room: seq<bool>, signals: seq<Signal>, k: nat)
    requires EscapesAt(strips, room, signals, k)
    ensures var w := Led(strips, room, signals);
            w.finished && w.why == Escape && w.out == Led(strips, room, signals[..k]).out
    decreases |signals|
  {
    hide EscapesAt, Dispatch, Chords;
    WithinSignals(strips, room, signals, k);
    var front, last := signals[..|signals| - 1], signals[|signals| - 1];
    EscapeExactly(strips, room, signals);
    EscapeExactly(strips, room, front);
    WhyNext(Led(strips, room, front), last);
    if k == |front| {
      EscapeNext(strips, room, signals);
    } else {
      EarlierEscape(strips, room, signals, k);
      SilentSince(strips, room, front, k);
      assert front[..k] == signals[..k];
      SilentWhenFinished(Led(strips, room, front), last);
    }
  }

  // ---- The input ----

  /** The keys down when the keyboard comes into focus, each pressed once, if it is not down already. */
  ghost function FocusSays(signals: seq<Signal>, from: nat, keys: seq<int>): seq<InputEvent> {
    if keys == [] then []
    else
      var front, code := FocusSays(signals, from, keys[..|keys| - 1]), keys[|keys| - 1];
      if Fits16(code) && !KeyDown(signals, from, code) && code !in keys[..|keys| - 1]
      then front + [KeyInput(code, true)]
      else front
  }

  /** The input that one signal brings, after the others, to a capture that began after the first ones. */
  ghost function Brings(signals: seq<Signal>, from: nat, s: Signal): seq<InputEvent> {
    match s
    case Clicked(code, pressed) => if Fits16(code) then [Button(code, pressed)] else []
    case Scrolled(axis, amount) => [Scroll(axis, amount, SourceAfter(signals))]
    case ScrollStopped(axis) => [ScrollStop(axis, SourceAfter(signals))]
    case PointerMoved(dx, dy) => [Motion(dx, dy)]
    case KeyChanged(code, pressed) => if pressed != KeyDown(signals, from, code) then [KeyInput(code, pressed)] else []
    case FocusGained(true, true, keys) => FocusSays(signals, from, keys)
    case _ => []
  }

  /** All the input since the crossing, by the compositor's signals alone. */
  ghost function Brought(strips: seq<Strip>, signals: seq<Signal>): seq<InputEvent> {
    if signals == [] then []
    else
      var front := signals[..|signals| - 1];
      Brought(strips, front)
      + match Crossed(strips, front)
        case None => []
        case Some(c) => Brings(front, c.at, signals[|signals| - 1])
  }

  /** What was published is a beginning of this input; and as long as the worker goes on, all of it was accepted. */
  ghost predicate Conveys(w: Worker, input: seq<InputEvent>) {
    && Grammatical(w) && EventsOf(w.out) <= input && (!w.finished ==> w.accepted == input)
  }

  lemma AcceptConveys(w: Worker, input: seq<InputEvent>, e: InputEvent)
    requires Conveys(w, input)
    ensures Conveys(Accept(w, e), input + [e])
  {
    hide Grammatical, InputEvent.Valid, Publish;
    AcceptKeeps(w, e);
    AcceptedNext(w, e);
    var after := Accept(w, e);
    if !w.finished {
      PublishedIsAccepted(after);
    }
  }

  /** Nothing new is brought. */
  lemma QuietConveys(w: Worker, input: seq<InputEvent>, after: Worker)
    requires Conveys(w, input) && Grammatical(after) && after.accepted == w.accepted
    requires w.finished ==> after.finished && after.out == w.out
    ensures Conveys(after, input) && input + [] == input
  {
    hide Grammatical;
    PublishedIsAccepted(after);
  }

  lemma FinishConveys(w: Worker, input: seq<InputEvent>, more: seq<InputEvent>, why: Why)
    requires Conveys(w, input)
    ensures Conveys(Finish(w, why), input + more)
  {
    hide Grammatical;
    FinishKeeps(w, why);
  }

  lemma {:induction false} PressEachConveys(w: Worker, input: seq<InputEvent>, signals: seq<Signal>, from: nat,
                                            keys: seq<int>)
    requires Conveys(w, input) && forall code: int :: KeyAgrees(signals, from, w, code)
    ensures Conveys(PressEach(w, keys), input + FocusSays(signals, from, keys))
    decreases |keys|
  {
    hide Conveys, Accept, KeyDown;
    if keys == [] {
      assert input + [] == input;
    } else {
      var front, code := keys[..|keys| - 1], keys[|keys| - 1];
      var said := FocusSays(signals, from, front);
      PressEachConveys(w, input, signals, from, front);
      PressEachNotes(w, front);
      var before := PressEach(w, front);
      assert KeyAgrees(signals, from, w, code);
      if Fits16(code) && code !in before.pressed {
        KeyMarked(before, input + said, code);
        AcceptConveys(before.(pressed := before.pressed + {code}), input + said, KeyInput(code, true));
        assert (input + said) + [KeyInput(code, true)] == input + FocusSays(signals, from, keys);
      }
    }
  }

  lemma KeyMarked(w: Worker, input: seq<InputEvent>, code: int)
    requires Conveys(w, input)
    ensures Conveys(w.(pressed := w.pressed + {code}), input) && Conveys(w.(pressed := w.pressed - {code}), input)
  {
    PressedAside(w, w.(pressed := w.pressed + {code}));
    PressedAside(w, w.(pressed := w.pressed - {code}));
  }

  lemma ReadyConveys(w: Worker, input: seq<InputEvent>)
    requires Conveys(w, input)
    ensures Conveys(ReportReady(w), input)
  {
    hide Grammatical, Publish, PublishAll, Core, Inputs;
    ReportReadyKeeps(w);
    ReadyAccepts(w);
    if w.finished {
      ReadySilent(w);
    }
    QuietConveys(w, input, ReportReady(w));
  }

  lemma ReadyAccepts(w: Worker)
    ensures ReportReady(w).accepted == w.accepted
  {
    hide Core, Inputs, Publish, PublishAll;
    var ready := w.(ready := true, pending := [], buffer := w.pending);
    var start := if w.selected.Some? then Started(w.selected.value, w.fraction) else Ready;
    var started := Publish(ready, start);
    PublishAside(ready, start);
    PublishAllAdds(started, w.pending);
    PublishAside(PublishAll(started, w.pending), Ready);
  }

  lemma NotedConveys(w: Worker, input: seq<InputEvent>)
    requires Conveys(w, input)
    ensures Conveys(w.(locked := true), input) && Conveys(w.(inhibited := true), input)
    ensures w.selected.Some? ==> Conveys(w.(focused := true), input)
  {
    hide Core;
  }

  lemma FocusConveys(strips: seq<Strip>, signals: seq<Signal>, w: Worker, s: Signal, input: seq<InputEvent>)
    requires Agrees(strips, signals, w) && Conveys(w, input) && s.FocusGained?
    ensures var more := match Crossed(strips, signals) case None => [] case Some(c) => Brings(signals, c.at, s);
            Conveys(Dispatch(w, s), input + more)
  {
    hide PressEach, ReportReady, KeyDown, StripAgrees, Conveys, Publish, Accept, OnKey, Armed1, Finish;
    var c := Crossed(strips, signals);
    assert input + [] == input;
    if s.selected && c.Some? {
      var focused := w.(focused := true);
      NotedConveys(w, input);
      if s.whole {
        assert forall code: int ::
          KeyAgrees(signals, c.value.at, w, code) ==> KeyAgrees(signals, c.value.at, focused, code);
        PressEachConveys(focused, input, signals, c.value.at, s.keys);
        ReadyConveys(PressEach(focused, s.keys), input + FocusSays(signals, c.value.at, s.keys));
      } else {
        FinishConveys(focused, input, [], Interrupted);
      }
    }
  }

  lemma KeyConveys(strips: seq<Strip>, signals: seq<Signal>, w: Worker, s: Signal, input: seq<InputEvent>)
    requires Agrees(strips, signals, w) && Conveys(w, input) && s.KeyChanged?
    ensures var more := match Crossed(strips, signals) case None => [] case Some(c) => Brings(signals, c.at, s);
            Conveys(Dispatch(w, s), input + more)
  {
    hide PressEach, ReportReady, KeyDown, StripAgrees, Conveys, Publish, Accept, Armed1, Finish, Keyboard.Emergency;
    var c := Crossed(strips, signals);
    assert input + [] == input;
    if c.Some? {
      assert KeyAgrees(signals, c.value.at, w, s.code);
      KeyMarked(w, input, s.code);
      var held := w.(pressed := if s.pressed then w.pressed + {s.code} else w.pressed - {s.code});
      var more := Brings(signals, c.value.at, s);
      FinishConveys(w, input, more, UnsupportedInput);
      FinishConveys(held, input, more, Escape);
      AcceptConveys(held, input, KeyInput(s.code, s.pressed));
      DownFits(signals, c.value.at, s.code);
    }
  }

  lemma DownFits(signals: seq<Signal>, from: nat, code: int)
    ensures KeyDown(signals, from, code) ==> Fits16(code)
  {
  }

  lemma PointerConveys(w: Worker, s: Signal, input: seq<InputEvent>)
    requires Conveys(w, input) && (s.PointerEntered? || s.PointerLeft? || s.ScrollSourceChanged? || s.ArmStrips?)
    ensures Conveys(Dispatch(w, s), input)
  {
    hide Grammatical, Armed1, Publish, Accept, ReportReady, PressEach, OnKey, Clamp;
    DispatchKeeps(w, s);
    PublishAside(w.(strips := Armed1(w.strips)), Report.Armed);
    if w.finished {
      SilentWhenFinished(w, s);
    }
    QuietConveys(w, input, Dispatch(w, s));
  }

  /** One signal conveys just the input it brings. */
  lemma DispatchConveys(strips: seq<Strip>, signals: seq<Signal>, w: Worker, s: Signal, input: seq<InputEvent>)
    requires Agrees(strips, signals, w) && Conveys(w, input)
    ensures var more := match Crossed(strips, signals) case None => [] case Some(c) => Brings(signals, c.at, s);
            Conveys(Dispatch(w, s), input + more)
  {
    hide Conveys, Accept, ReportReady, PressEach, OnKey, Publish, Armed1, RequestCapture, Finish, FocusSays, KeyDown,
         StripAgrees;
    assert input + [] == input;
    match s
    case Disturbed => FinishConveys(w, input, [], Interrupted);
    case SeatReduced => FinishConveys(w, input, [], Interrupted);
    case FocusLost => FinishConveys(w, input, [], Interrupted);
    case LockLost => FinishConveys(w, input, [], Interrupted);
    case InhibitorLost => FinishConveys(w, input, [], Interrupted);
    case Cancel => FinishConveys(w, input, [], Cancelled);
    case Clicked(code, pressed) => AcceptConveys(w, input, Button(code, pressed));
    case Scrolled(axis, amount) => AcceptConveys(w, input, Scroll(axis, amount, w.source));
    case ScrollStopped(axis) => AcceptConveys(w, input, ScrollStop(axis, w.source));
    case PointerMoved(dx, dy) => AcceptConveys(w, input, Motion(dx, dy));
    case FocusGained(_, _, _) => FocusConveys(strips, signals, w, s, input);
    case KeyChanged(_, _) => KeyConveys(strips, signals, w, s, input);
    case LockGained =>
      NotedConveys(w, input);
      ReadyConveys(w.(locked := true), input);
    case InhibitorActive =>
      NotedConveys(w, input);
      ReadyConveys(w.(inhibited := true), input);
    case _ => PointerConveys(w, s, input);
  }

  /** Over every sequence of signals and however full the owner's queue, what was published is a beginning of the input
      that the compositor's signals have brought since the crossing, unchanged and in order; and while the worker goes
      on, published and buffered input is all of it. */
  lemma {:induction false} InputIsTheCompositors(strips: seq<Strip>, room: seq<bool>, signals: seq<Signal>)
    ensures var w, input := Led(strips, room, signals), Brought(strips, signals);
            && EventsOf(w.out) <= input
            && (!w.finished ==> EventsOf(w.out) + w.pending == input)
            && Conveys(w, input)
    decreases |signals|
  {
    hide Dispatch, Agrees, Crossed, Brings, Grammatical;
    if signals == [] {
      NewConveys(strips, room);
    } else {
      var front, last := signals[..|signals| - 1], signals[|signals| - 1];
      InputIsTheCompositors(strips, room, front);
      var w := Led(strips, room, front);
      if w.finished {
        SilentWhenFinished(w, last);
        DispatchKeeps(w, last);
      } else {
        NotesAreTrue(strips, room, front);
        DispatchConveys(strips, front, w, last, Brought(strips, front));
      }
    }
    PublishedIsAccepted(Led(strips, room, signals));
  }

  lemma NewConveys(strips: seq<Strip>, room: seq<bool>)
    ensures Conveys(Capture.New(strips, room), [])
  {
  }

  /** A crossing that was announced is the one the compositor saw: its strip, and how far along it the pointer was. */
  lemma CrossingIsTheCompositors(strips: seq<Strip>, room: seq<bool>, signals: seq<Signal>)
    ensures var w := Led(strips, room, signals);
            forall i :: 0 <= i < |w.out| && w.out[i].Started? ==>
              && Crossed(strips, signals).Some?
              && w.out[i] == Started(Crossed(strips, signals).value.strip, Crossed(strips, signals).value.fraction)
    decreases |signals|
  {
    hide Dispatch, Agrees, Crossed, Brings, Grammatical;
    if signals != [] {
      var front, last := signals[..|signals| - 1], signals[|signals| - 1];
      CrossingIsTheCompositors(strips, room, front);
      CrossedStays(strips, signals);
      var w := Led(strips, room, front);
      if w.finished {
        SilentWhenFinished(w, last);
      } else {
        NotesAreTrue(strips, room, front);
        StartsAsNoted(strips, front, w, last);
      }
    }
  }

  lemma CrossedStays(strips: seq<Strip>, signals: seq<Signal>)
    requires signals != []
    ensures var before := Crossed(strips, signals[..|signals| - 1]); before.Some? ==> Crossed(strips, signals) == before
  {
    hide Crosses;
  }

  /** One signal announces no crossing but the one noted. */
  lemma StartsAsNoted(strips: seq<Strip>, signals: seq<Signal>, w: Worker, s: Signal)
    requires Agrees(strips, signals, w)
    ensures var out := Dispatch(w, s).out;
            forall i :: 0 <= i < |out| && out[i].Started? ==>
              (i < |w.out| && out[i] == w.out[i])
              || (Crossed(strips, signals).Some?
                  && out[i] == Started(Crossed(strips, signals).value.strip, Crossed(strips, signals).value.fraction))
  {
    hide Accept, ReportReady, PressEach, OnKey, Publish, Armed1, RequestCapture, KeyDown, StripAgrees, Crosses;
    match s
    case PointerEntered(_, _, _, _) => EnterSays(w, s);
    case FocusGained(_, _, keys) =>
      var focused := w.(focused := true);
      PressEachSays(focused, keys);
      PressEachNotes(focused, keys);
      ReadySays(PressEach(focused, keys));
    case LockGained => ReadySays(w.(locked := true));
    case InhibitorActive => ReadySays(w.(inhibited := true));
    case Clicked(code, pressed) => AcceptSays(w, Button(code, pressed));
    case Scrolled(axis, amount) => AcceptSays(w, Scroll(axis, amount, w.source));
    case ScrollStopped(axis) => AcceptSays(w, ScrollStop(axis, w.source));
    case PointerMoved(dx, dy) => AcceptSays(w, Motion(dx, dy));
    case KeyChanged(code, pressed) => KeySays(w, code, pressed);
    case ArmStrips => PublishSays(w.(strips := Armed1(w.strips)), Report.Armed);
    case _ =>
  }

  /** What is said is said behind the rest, and names no crossing. */
  ghost predicate NoStart(w: Worker, after: Worker) {
    w.out <= after.out && forall i :: |w.out| <= i < |after.out| ==> !after.out[i].Started?
  }

  lemma EnterSays(w: Worker, s: Signal)
    requires s.PointerEntered?
    ensures NoStart(w, Dispatch(w, s))
  {
    hide Accept, ReportReady, PressEach, OnKey, Publish, Armed1, Clamp;
  }

  lemma PublishSays(w: Worker, r: Report)
    requires !r.Started?
    ensures NoStart(w, Publish(w, r))
  {
  }

  lemma AcceptSays(w: Worker, e: InputEvent)
    ensures NoStart(w, Accept(w, e))
  {
    hide InputEvent.Valid, Publish;
    PublishSays(w.(accepted := w.accepted + [e]), Captured(e));
  }

  lemma KeySays(w: Worker, code: int, pressed: bool)
    ensures NoStart(w, OnKey(w, code, pressed))
  {
    hide Accept, Keyboard.Emergency;
    AcceptSays(w.(pressed := if pressed then w.pressed + {code} else w.pressed - {code}), KeyInput(code, pressed));
  }

  lemma {:induction false} PressEachSays(w: Worker, keys: seq<int>)
    ensures NoStart(w, PressEach(w, keys))
    decreases |keys|
  {
    hide Accept;
    if keys != [] {
      var front, code := keys[..|keys| - 1], keys[|keys| - 1];
      PressEachSays(w, front);
      var before := PressEach(w, front);
      AcceptSays(before.(pressed := before.pressed + {code}), KeyInput(code, true));
    }
  }

  lemma {:induction false} PublishAllSays(w: Worker, events: seq<InputEvent>)
    ensures NoStart(w, PublishAll(w, events))
    decreases |events|
  {
    hide Publish;
    if events != [] {
      PublishAllSays(w, events[..|events| - 1]);
      PublishSays(PublishAll(w, events[..|events| - 1]), Captured(events[|events| - 1]));
    }
  }

  lemma ReadySays(w: Worker)
    ensures w.out <= ReportReady(w).out
    ensures forall i :: |w.out| <= i < |ReportReady(w).out| && ReportReady(w).out[i].Started? ==>
              w.selected.Some? && ReportReady(w).out[i] == Started(w.selected.value, w.fraction)
  {
    hide PublishAll;
    if w.selected.Some? {
      var ready := w.(ready := true, pending := [], buffer := w.pending);
      var started := Publish(ready, Started(w.selected.value, w.fraction));
      PublishAllSays(started, w.pending);
      PublishSays(PublishAll(started, w.pending), Ready);
    }
  }
}
