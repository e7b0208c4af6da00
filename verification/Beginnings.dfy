// How a session begins: in one iteration, with nothing but presses of the keys held then. So the remote keyboard is
// accounted for from the first key of a session on (src/bridge.rs).
module Beginnings {
  import opened ControlSafety
  import opened Coordination
  import opened Injection
  import opened Link
  import opened Mirroring
  import opened Ordered
  import opened Protocol
  import opened Speech
  import opened Turns
  import Keyboard

  // ---- One iteration ----

  predicate IsPress(e: InputEvent, held: set<int>) {
    e.KeyInput? && e.pressed && e.code in held
  }

  /** The keys physically held, by what the devices have reported. */
  ghost function HeldBy(f: Flow): set<int> {
    Keyboard.PhysicallyHeld(f.n.keys.seen)
  }

  /** If session `s` exists now, all that was said in it are presses of these keys, and it still runs if anything
      does. */
  predicate PressedOnly(s: nat, f: Flow, held: set<int>) {
    s in Inputs(f.n) ==>
      && (forall i :: 0 <= i < |Inputs(f.n)[s]| ==> IsPress(Inputs(f.n)[s][i], held))
      && (f.More? ==> SendingIn(f.n, s))
  }

  /** A log without a new beginning has no new session. */
  lemma {:induction false} NoNewSession(s: nat, physical: bool, was: seq<Message>, now: seq<Message>)
    requires was <= now && s !in HearAll(physical, was).inputs
    requires forall k :: |was| <= k < |now| ==> !now[k].Begin?
    ensures s !in HearAll(physical, now).inputs
    decreases |now|
  {
    hide InputEvent.Valid, Chord;
    if |was| == |now| {
      assert was == now;
    } else {
      NoNewSession(s, physical, was, now[..|now| - 1]);
    }
  }

  lemma UsualIsNoBeginning(s: nat, n: Node, f: Flow)
    requires s !in Inputs(n) && f.n.physical == n.physical && UsualRole(n, f)
    ensures s !in Inputs(f.n)
  {
    NoNewSession(s, n.physical, n.sent, f.n.sent);
  }

  /** One more press in the session. */
  lemma PressIsOnly(s: nat, n: Node, e: InputEvent, held: set<int>)
    requires PressedOnly(s, More(n), held) && IsPress(e, held)
    ensures PressedOnly(s, ForwardKeyboard(n, e), held) && ForwardKeyboard(n, e).n.keys == n.keys
  {
    hide HearAll, SendInput, Chord, LeavesPaper, Letters, PressedAfter;
    if n.role.Sending? && !Completes(n, e) {
      SaidIsOnly(s, WithKey(n, e), e, held);
      assert ForwardKeyboard(n, e) == SendInput(WithKey(n, e), e);
    } else {
      assert ForwardKeyboard(n, e).More? && ForwardKeyboard(n, e).n.sent == n.sent;
    }
  }

  lemma SaidIsOnly(s: nat, n: Node, e: InputEvent, held: set<int>)
    requires PressedOnly(s, More(n), held) && IsPress(e, held) && n.role.Sending?
    ensures PressedOnly(s, SendInput(n, e), held) && SendInput(n, e).n.keys == n.keys
  {
    hide HearAll, LeavesPaper, Letters, InputEvent.Valid, Chord, IsPress;
    HearNext(n.physical, n.sent, Input(n.role.session, n.role.sequence, e));
    var f := SendInput(n, e);
    if s in Inputs(f.n) {
      var was, now := Inputs(n)[s], Inputs(f.n)[s];
      assert now == was || now == was + [e];
      forall i | 0 <= i < |now| ensures IsPress(now[i], held) {
        assert i < |was| ==> now[i] == was[i];
      }
    }
  }

  lemma {:induction false} PressAllIsOnly(s: nat, n: Node, events: seq<InputEvent>, held: set<int>)
    requires PressedOnly(s, More(n), held) && forall i :: 0 <= i < |events| ==> IsPress(events[i], held)
    ensures PressedOnly(s, PressAll(n, events), held) && PressAll(n, events).n.keys == n.keys
    decreases |events|
  {
    hide PressedOnly, ForwardKeyboard, IsPress;
    if events != [] {
      PressAllIsOnly(s, n, events[..|events| - 1], held);
      var before := PressAll(n, events[..|events| - 1]);
      if before.More? {
        PressIsOnly(s, before.n, events[|events| - 1], held);
      }
    }
  }

  lemma BegunIsOnly(s: nat, n: Node, index: nat, fraction: real, held: set<int>)
    requires s !in Inputs(n) && index < |n.desktop.edges|
    ensures PressedOnly(s, Begun(n, index, fraction), held) && Begun(n, index, fraction).n.keys == n.keys
  {
    hide HearAll, LeavesPaper, Letters;
    HearNext(n.physical, n.sent, Begin(n.nextSession, Position(n.desktop.edges[index].id, fraction)));
  }

  lemma BeginSendingIsOnly(s: nat, n: Node, index: nat, fraction: real)
    requires s !in Inputs(n) && index < |n.desktop.edges|
    ensures var held := Keyboard.Held(n.keys.devices);
            var f := BeginSending(n, index, fraction, held);
            PressedOnly(s, f, held) && f.n.keys == n.keys
  {
    hide PressedOnly, Begun, PressAll, HearAll, Keyboard.Held;
    var held := Keyboard.Held(n.keys.devices);
    BegunIsOnly(s, n, index, fraction, held);
    var begun := Begun(n, index, fraction);
    if begun.More? {
      var codes := Codes(held);
      CodesSpec(held);
      forall i | 0 <= i < |codes| ensures IsPress(Presses(codes)[i], held) {
        assert codes[i] in codes;
      }
      PressAllIsOnly(s, begun.n, Presses(codes), held);
    }
  }

  lemma StartedIsOnly(s: nat, n: Node, env: Env, edge: nat, fraction: real)
    requires s !in Inputs(n) && KeysSound(n.keys)
    ensures var f := OnStarted(n, env, edge, fraction); PressedOnly(s, f, HeldBy(f))
  {
    hide Sample, BeginSending, Return, StopCapture, HearAll, Keyboard.Emergency, Keyboard.Held, Keyboard.PhysicallyHeld,
         KeysSound, ActiveEdges;
    if edge < |n.capture.edges| && n.capture.edges[edge] < |n.desktop.edges| {
      var index := n.capture.edges[edge];
      var seen := n.(capture := n.capture.(started := true));
      StopCaptureSilent(seen);
      if n.role.Local? {
        SampleSilent(seen, env);
        SampleSound(seen, env);
        var sampled := Sample(seen, env);
        if sampled.More? {
          StopCaptureSilent(Drained(sampled.n));
          BeginSendingIsOnly(s, Drained(sampled.n), index, fraction);
          SoundIsObserved(sampled.n.keys);
        }
      } else if n.role.Receiving? {
        ReturnMuted(seen, env, index, fraction);
      }
    }
  }

  lemma SoundIsObserved(k: Keyboard.Keys)
    requires KeysSound(k)
    ensures Keyboard.Held(k.devices) == Keyboard.PhysicallyHeld(k.seen)
  {
    hide Keyboard.Mirrors, Keyboard.Observes;
    Keyboard.ObservedHeld(k);
  }

  lemma CaptureIsOnly(s: nat, n: Node, env: Env, generation: nat, report: Report)
    requires s !in Inputs(n) && KeysSound(n.keys)
    ensures var f := OnCapture(n, env, generation, report); PressedOnly(s, f, HeldBy(f))
  {
    hide OnStarted, SendInput, OnFinished, HearAll, KeysSound, HeldBy, UsualRole, Discreet;
    match report
    case Started(edge, fraction) => StartedIsOnly(s, n, env, edge, fraction);
    case Captured(e) =>
      SendInputTurns(n, e);
      UsualIsNoBeginning(s, n, SendInput(n, e));
    case Finished(escape) => FinishedMuted(n, env, escape);
    case Armed =>
    case Ready =>
  }

  lemma BranchIsOnly(s: nat, n: Node, env: Env, ev: Event)
    requires Settled(n) && Legal(n, env, ev) && s !in Inputs(n)
    ensures var f := Branch(n, env, ev); PressedOnly(s, f, HeldBy(f))
  {
    hide HearAll, KeysSound, OnOutputs, OnRelease, OnApply, OnStatus, OnTick, OnCapture, OnMessage, Decoded,
         HeldBy, Keyboard.Mirrors, TouchFrames, InputEvent.Valid, UsualRole, Discreet;
    match ev
    case OutputsChanged(outputs) =>
      OutputsTurns(n, outputs);
      UsualIsNoBeginning(s, n, OnOutputs(n, outputs));
    case ReleaseCommand => ReleaseMuted(n, env);
    case ApplyCommand(request) => ApplyMuted(n, env, request);
    case StatusChanged(unlocked) => StatusMuted(n, unlocked);
    case Tick =>
      TickTurns(n, env);
      UsualIsNoBeginning(s, n, OnTick(n, env));
    case CaptureEvent(generation, report) => CaptureIsOnly(s, n, env, generation, report);
    case Received(message) => MessageMuted(n, env, message);
    case _ =>
  }

  /** A session that is new after an iteration holds nothing but presses of keys held then. */
  lemma StepIsOnly(s: nat, n: Node, env: Env, ev: Event)
    requires Settled(n) && LegalStep(n, env, ev) && s !in Inputs(n)
    ensures var f := Step(n, env, ev); PressedOnly(s, f, HeldBy(f))
  {
    hide HearAll, Preamble, Branch, Settled, Legal, TouchFrames, UsualRole, Discreet, HeldBy;
    PreambleFaithful(n, env);
    PreambleTurns(n, env);
    var ready := Preamble(n, env);
    UsualIsNoBeginning(s, n, ready);
    if ready.More? {
      BranchIsOnly(s, ready.n, env, ev);
    }
  }

  /** Every beginning of a row of presses presses some of those keys. */
  lemma {:induction false} PressesWithin(events: seq<InputEvent>, held: set<int>)
    requires forall i :: 0 <= i < |events| ==> IsPress(events[i], held)
    ensures Pressed(events) <= held
    decreases |events|
  {
    if events != [] {
      var shorter, last := events[..|events| - 1], events[|events| - 1];
      PressesWithin(shorter, held);
      assert events == shorter + [last];
      PressedAppend(shorter, last);
    }
  }

  // ---- Runs ----

  /** The last of the first `from` moves begins session `s` of B. */
  ghost predicate BeginsAt(w: World, moves: seq<Move>, from: nat, s: nat) {
    && 0 < from <= |moves|
    && s !in Inputs(Played(w, moves[..from - 1]).b.n) && s in Inputs(Played(w, moves[..from]).b.n)
  }

  /** Every session has its beginning. */
  lemma {:induction false} SomeBeginning(a: Entry, b: Entry, moves: seq<Move>, s: nat) returns (from: nat)
    requires s in Inputs(Played(Together(a, b), moves).b.n)
    ensures BeginsAt(Together(a, b), moves, from, s)
    decreases |moves|
  {
    hide Moved, HearAll, Open;
    var w := Together(a, b);
    if moves == [] {
      Introduced(b.desktop, b.physical, b.unlocked, b.pads, b.luck, b.fate);
      assert false;
    } else {
      var before := moves[..|moves| - 1];
      if s in Inputs(Played(w, before).b.n) {
        from := SomeBeginning(a, b, before, s);
        assert before[..from] == moves[..from] && before[..from - 1] == moves[..from - 1];
      } else {
        from := |moves|;
        assert moves[..|moves|] == moves;
      }
    }
  }

  lemma BeginningIsOnly(a: Entry, b: Entry, moves: seq<Move>, from: nat, s: nat)
    requires BeginsAt(Together(a, b), moves, from, s)
    ensures var f := Played(Together(a, b), moves[..from]).b; PressedOnly(s, f, HeldBy(f))
  {
    hide HearAll, Entered, Half, Settled, Step, Allowed, PressedOnly, HeldBy;
    var w, now, before := Together(a, b), moves[..from], moves[..from - 1];
    assert now[..|now| - 1] == before;
    AlwaysConnected(a, b, before);
    var p, m := Played(w, before), now[|now| - 1];
    assert Played(w, now) == Moved(p, m);
    assert !m.byA && Allowed(p.b, p.a, p.takenByB, m.env, m.ev);
    AllowedLegal(p.b, p.a, p.takenByB, m.env, m.ev);
    SettledHalf(p);
    StepIsOnly(s, p.b.n, m.env, m.ev);
  }

  /** A computer that has stopped says nothing more. */
  lemma {:induction false} StoppedStays(w: World, moves: seq<Move>, from: nat)
    requires from <= |moves| && Played(w, moves[..from]).b.Halt?
    ensures Played(w, moves).b == Played(w, moves[..from]).b
    decreases |moves|
  {
    hide Step, Taken;
    if from == |moves| {
      assert moves[..from] == moves;
    } else {
      var before := moves[..|moves| - 1];
      assert before[..from] == moves[..from];
      StoppedStays(w, before, from);
    }
  }

  /** B began session `s` in the last of the first `from` moves, and these keys are a value that what was physically
      held on B's devices had since; or these events are not more than what B said at once when the session began, and
      the keys are some of those held then. */
  ghost predicate FromTheStart(w: World, moves: seq<Move>, from: nat, s: nat, events: seq<InputEvent>, keys: set<int>) {
    && BeginsAt(w, moves, from, s)
    && var began := Played(w, moves[..from]).b;
       WasHeld(w, moves, from, keys) || (events <= Inputs(began.n)[s] && keys <= HeldBy(began))
  }

  lemma SaidFromTheStart(a: Entry, b: Entry, moves: seq<Move>, from: nat, s: nat, events: seq<InputEvent>)
    requires BeginsAt(Together(a, b), moves, from, s) && b.physical
    requires var now := Played(Together(a, b), moves).b.n; s in Inputs(now) && events <= Inputs(now)[s]
    ensures FromTheStart(Together(a, b), moves, from, s, events, Pressed(events))
  {
    hide Played, Entered, HearAll, WasHeld, Pressed, AllWereHeld, IsPress, HeldBy;
    var w := Together(a, b);
    var began, now := Played(w, moves[..from]).b, Played(w, moves).b.n;
    BeginningIsOnly(a, b, moves, from, s);
    var first := Inputs(began.n)[s];
    if began.More? {
      SaidWasHeld(a, b, moves, from, s);
      if |first| <= |events| {
        InjectedWasHeld(w, moves, from, events, Inputs(now)[s], |first|);
      }
    } else {
      StoppedStays(w, moves, from);
    }
    if |events| < |first| || began.Halt? {
      assert events <= first;
      PressesWithin(events, HeldBy(began));
    }
  }

  /** Whenever a computer receives, the keys down there are accounted for from the move at which its peer began the
      session: they are a value that what was physically held on the peer's devices had since, or, while no more
      than the initial presses has arrived, some of the keys held when the session began. */
  lemma RemoteKeysFromTheStart(a: Entry, b: Entry, moves: seq<Move>)
    requires b.physical
    requires var now := Played(Together(a, b), moves).a; now.More? && now.n.role.Receiving?
    ensures var w := Together(a, b);
            var recv, s := Played(w, moves).a.n.recv, Played(w, moves).a.n.role.session;
            && s in recv.injected
            && exists from, keys :: FromTheStart(w, moves, from, s, recv.injected[s], keys)
                                    && forall code :: KeyControl(code) in recv.sink.down <==> code in keys
  {
    hide Played, Entered, HearAll, Pressed, Down, Half, FromTheStart;
    var w := Together(a, b);
    var now := Played(w, moves).a.n;
    var s := now.role.session;
    InjectsWhatWasSent(a, b, moves, s);
    AlwaysConnected(a, b, moves);
    ReceivesDown(Played(w, moves));
    var events := now.recv.injected[s];
    var from := SomeBeginning(a, b, moves, s);
    SaidFromTheStart(a, b, moves, from, s, events);
    PressedAreControls(events);
  }
}
