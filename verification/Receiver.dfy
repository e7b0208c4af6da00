// Injecting the paired computer's input and cleaning up after it (src/receiver.rs).
module Injection {
  import opened Modes
  import opened Ordered
  import opened Protocol

  const LAST_SEQUENCE := 0xFFFF_FFFF_FFFF_FFFF

  /** The input backend: what is down, which touchpads were touched, how its next calls turn out, every event that it
      has carried out, and the output that it places the pointer on. */
  datatype Sink = Sink(down: set<Control>, pads: set<nat>, fate: seq<Luck>, log: seq<InputEvent>, output: string)

  /** One emission; `reached` tells whether it took effect. */
  datatype Emission = Emission(sink: Sink, ok: bool, reached: bool)

  function Emit(s: Sink, e: InputEvent): Emission {
    var luck := Next(s.fate);
    if luck == FailedBefore then Emission(s.(fate := Rest(s.fate)), false, false)
    else
      var pads := if e.Touchpad? then s.pads + {e.device} else s.pads;
      var after := s.(down := Effect(s.down, e), pads := pads, fate := Rest(s.fate), log := s.log + [e]);
      Emission(after, luck == Done, true)
  }

  function ResetPads(s: Sink): (Sink, bool) {
    var luck := Next(s.fate);
    (s.(pads := if luck == FailedBefore then s.pads else {}, fate := Rest(s.fate)), luck == Done)
  }

  function SelectOutput(s: Sink, name: string): (Sink, bool) {
    var luck := Next(s.fate);
    (s.(output := if luck == FailedBefore then s.output else name, fate := Rest(s.fate)), luck == Done)
  }

  /** `injected` remembers, for every session, the events of that session that took effect, and `since` how much the
      backend had carried out when the last one began. */
  datatype Receiver = Receiver(
    sink: Sink, state: ControlState, session: Option<nat>, expected: nat, pending: set<int>,
    injected: map<nat, seq<InputEvent>>, since: nat)

  datatype Why = ZeroSession | CleanupPending | SequenceMismatch | Invalid | Exhausted | SinkFailed | ActiveInput

  /** An answer to the coordinator; the state survives errors. */
  datatype Answer =
    | Fine(r: Receiver, accepted: bool)
    | Error(r: Receiver, why: Why)

  function NewReceiver(fate: seq<Luck>): Receiver {
    Receiver(Sink({}, {}, fate, [], ""), ControlState(Local, false, false, {}), None, 0, {}, map[], 0)
  }

  function ReleaseOne(r: Receiver, code: int): (Receiver, bool) {
    var out := Emit(r.sink, Release(code));
    (r.(sink := out.sink, pending := if out.ok then r.pending - {code} else r.pending), out.ok)
  }

  function ReleaseEach(r: Receiver, order: seq<int>): (Receiver, bool) {
    if order == [] then (r, true)
    else
      var (before, ok) := ReleaseEach(r, order[..|order| - 1]);
      var (after, last) := ReleaseOne(before, order[|order| - 1]);
      (after, ok && last)
  }

  /** Remembers the codes and tries to release everything remembered, each on its own. */
  function ReleaseCodes(r: Receiver, codes: set<int>): (Receiver, bool) {
    var all := r.(pending := r.pending + codes);
    ReleaseEach(all, Codes(all.pending))
  }

  function ReleaseWithPads(r: Receiver, codes: set<int>): Answer {
    var (released, keys) := ReleaseCodes(r, codes);
    var (sink, pads) := ResetPads(released.sink);
    var out := released.(sink := sink);
    if keys && pads then Fine(out, true) else Error(out, SinkFailed)
  }

  function Stop(r: Receiver): Answer {
    ReleaseWithPads(r.(session := None, state := r.state.Stopped()), r.state.held)
  }

  function Begin(r: Receiver, session: nat): Answer {
    if session == 0 then Error(r, ZeroSession)
    else if r.pending != {} then Error(r, CleanupPending)
    else if !r.state.CanStart(Receiving) then Fine(r, false)
    else Fine(r.(state := r.state.(mode := Receiving), session := Some(session), expected := 0,
                 injected := r.injected[session := []], since := |r.sink.log|), true)
  }

  function StopWith(r: Receiver, why: Why): Answer {
    match Stop(r)
    case Fine(stopped, _) => Error(stopped, why)
    case Error(stopped, _) => Error(stopped, SinkFailed)
  }

  function Pressing(r: Receiver, e: InputEvent): Receiver {
    match e.HeldTransition()
    case Some((code, true)) => r.(state := r.state.(held := r.state.held + {code}))
    case _ => r
  }

  function Releasing(r: Receiver, e: InputEvent): Receiver {
    match e.HeldTransition()
    case Some((code, false)) => r.(state := r.state.(held := r.state.held - {code}))
    case _ => r
  }

  function Injected(r: Receiver, session: nat, e: InputEvent): map<nat, seq<InputEvent>> {
    r.injected[session := (if session in r.injected then r.injected[session] else []) + [e]]
  }

  function Input(r: Receiver, session: nat, sequence: nat, e: InputEvent): Answer {
    if r.session != Some(session) || r.state.mode != Receiving then Fine(r, false)
    else if sequence != r.expected then StopWith(r, SequenceMismatch)
    else if !e.Valid() then StopWith(r, Invalid)
    else if r.expected >= LAST_SEQUENCE then StopWith(r, Exhausted)
    else
      var pressed := Pressing(r, e);
      var out := Emit(pressed.sink, e);
      var sent := pressed.(sink := out.sink,
                           injected := if out.reached then Injected(r, session, e) else r.injected);
      if !out.ok then Error(Stop(sent).r, SinkFailed)
      else Fine(Releasing(sent, e).(expected := r.expected + 1), true)
  }

  function End(r: Receiver, session: nat): Answer {
    if r.session == Some(session) then Stop(r) else Fine(r, true)
  }

  /** What follows a lock notification, with the codes it set free. */
  function LockReleases(r: Receiver, codes: set<int>): Answer {
    if r.state.mode != Receiving then ReleaseWithPads(r.(session := None), codes)
    else
      var (released, ok) := ReleaseCodes(r, codes);
      if ok then Fine(released, true) else Error(released, SinkFailed)
  }

  function AfterLock(r: Receiver, state: ControlState): Answer {
    LockReleases(r.(state := state), if state == r.state then {} else r.state.held)
  }

  function LocalLock(r: Receiver, locked: bool): Answer {
    AfterLock(r, r.state.LocalLock(locked))
  }

  function PeerLock(r: Receiver, locked: bool): Answer {
    AfterLock(r, r.state.PeerLock(locked))
  }

  function PhysicalActivity(r: Receiver): Answer {
    if r.state.mode == Receiving
    then ReleaseWithPads(r.(session := None, state := r.state.Stopped()), r.state.held)
    else Fine(r, true)
  }

  function PositionOn(r: Receiver, output: string, e: InputEvent): Answer {
    if r.pending != {} || !(r.session.None? || r.expected == 0) then Error(r, ActiveInput)
    else if !e.AbsoluteInput? || !e.Valid() then Error(r, Invalid)
    else
      var (selected, ok) := SelectOutput(r.sink, output);
      if !ok then Error(r.(sink := selected), SinkFailed)
      else
        var out := Emit(selected, e);
        if out.ok then Fine(r.(sink := out.sink), true) else Error(r.(sink := out.sink), SinkFailed)
  }

  // ---- No pressed code is ever forgotten ----

  function Controls(codes: set<int>): set<Control> {
    set c | c in codes :: ControlOf(c)
  }

  predicate HoldableCode(code: int) {
    1 <= code <= 255 || 272 <= code <= 279
  }

  ghost predicate Inv(r: Receiver) {
    && (forall c :: c in r.state.held + r.pending ==> HoldableCode(c))
    && r.sink.down <= Controls(r.state.held + r.pending)
    && (r.state.mode == Receiving <==> r.session.Some?)
    && (r.state.mode != Receiving ==>
          r.state.held == {} && r.state.mode == if r.state.AnyLock() then Paused else Local)
    && (r.session.Some? ==> InvReceiving(r))
  }

  /** While a session is on: nothing is owed, and what is down is what the session's events pressed. */
  ghost predicate InvReceiving(r: Receiver)
    requires r.session.Some?
  {
    && r.session.value != 0 && r.pending == {} && !r.state.AnyLock()
    && r.session.value in r.injected
    && r.sink.down == Controls(r.state.held) == Down(r.injected[r.session.value])
    && r.expected == |r.injected[r.session.value]|
    && CarriedOut(r.sink.log, r.since, r.injected[r.session.value])
  }

  /** Since then the backend has carried out placements of the pointer, and after them exactly these events. */
  predicate CarriedOut(log: seq<InputEvent>, since: nat, events: seq<InputEvent>) {
    && since + |events| <= |log| && log[|log| - |events|..] == events
    && forall i :: since <= i < |log| - |events| ==> log[i].AbsoluteInput?
  }

  lemma CarriedOutNext(log: seq<InputEvent>, since: nat, events: seq<InputEvent>, e: InputEvent)
    requires CarriedOut(log, since, events)
    ensures CarriedOut(log + [e], since, events + [e])
    ensures events == [] && e.AbsoluteInput? ==> CarriedOut(log + [e], since, events)
  {
    assert (log + [e])[|log| - |events|..] == log[|log| - |events|..] + [e];
  }

  lemma ControlsDistinct(c: int, codes: set<int>)
    requires HoldableCode(c) && forall x :: x in codes ==> HoldableCode(x)
    ensures Controls(codes - {c}) == Controls(codes) - {ControlOf(c)}
    ensures Controls(codes + {c}) == Controls(codes) + {ControlOf(c)}
  {
    forall x | x in codes && x != c ensures ControlOf(x) != ControlOf(c) {}
    forall k | k in Controls(codes) - {ControlOf(c)} ensures k in Controls(codes - {c}) {
      var x :| x in codes && ControlOf(x) == k;
      assert x in codes - {c};
    }
    forall k | k in Controls(codes + {c}) ensures k in Controls(codes) + {ControlOf(c)} {
      var x :| x in codes + {c} && ControlOf(x) == k;
    }
  }

  /** Everything possibly down is remembered. */
  ghost predicate Owed(r: Receiver) {
    && (forall c :: c in r.pending ==> HoldableCode(c))
    && r.sink.down <= Controls(r.pending)
  }

  lemma ReleaseOneOwed(r: Receiver, code: int)
    requires Owed(r) && HoldableCode(code)
    ensures var (after, ok) := ReleaseOne(r, code);
            && Owed(after) && after == r.(sink := after.sink, pending := after.pending)
            && after.pending == (if ok then r.pending - {code} else r.pending)
            && after.sink.pads == r.sink.pads
  {
    ControlsDistinct(code, r.pending);
    assert Effect(r.sink.down, Release(code)) == r.sink.down - {ControlOf(code)};
  }

  function Listed(order: seq<int>): set<int> {
    set c | c in order
  }

  lemma {:induction false} ReleaseEachOwed(r: Receiver, order: seq<int>)
    requires Owed(r) && forall i :: 0 <= i < |order| ==> HoldableCode(order[i])
    ensures var (after, ok) := ReleaseEach(r, order);
            && Owed(after) && after == r.(sink := after.sink, pending := after.pending)
            && (ok ==> after.pending == r.pending - Listed(order))
            && after.pending <= r.pending && after.sink.pads == r.sink.pads
    decreases |order|
  {
    if order == [] {
      assert r.pending - Listed(order) == r.pending;
    } else {
      var shorter := order[..|order| - 1];
      ReleaseEachOwed(r, shorter);
      ReleaseOneOwed(ReleaseEach(r, shorter).0, order[|order| - 1]);
      assert Listed(order) == Listed(shorter) + {order[|order| - 1]};
    }
  }

  lemma AllListed(codes: set<int>)
    requires forall c :: c in codes ==> HoldableCode(c)
    ensures Listed(Codes(codes)) == codes && codes - Listed(Codes(codes)) == {}
  {
    hide Codes;
    CodesSpec(codes);
    assert forall c :: c in codes ==> HoldableCode(c);
  }

  lemma ReleaseCodesOwed(r: Receiver, codes: set<int>)
    requires forall c :: c in codes + r.pending ==> HoldableCode(c)
    requires r.sink.down <= Controls(r.pending + codes)
    ensures var (after, ok) := ReleaseCodes(r, codes);
            && Owed(after) && after == r.(sink := after.sink, pending := after.pending)
            && (ok ==> after.pending == {} && after.sink.down == {})
            && after.sink.pads == r.sink.pads
  {
    hide Codes;
    var all := r.(pending := r.pending + codes);
    AllListed(all.pending);
    CodesWithin(all.pending);
    ReleaseEachOwed(all, Codes(all.pending));
    assert Controls({}) == {};
  }

  /** A cleanup leaves nothing down unless the sink refused, and then everything down is still owed. */
  lemma ReleaseWithPadsInv(r: Receiver, codes: set<int>)
    requires r.session.None? && r.state.held == {}
    requires r.state.mode == if r.state.AnyLock() then Paused else Local
    requires forall c :: c in codes + r.pending ==> HoldableCode(c)
    requires r.sink.down <= Controls(r.pending + codes)
    ensures var a := ReleaseWithPads(r, codes);
            && Inv(a.r) && a.r.session.None? && a.r.state == r.state && a.r.injected == r.injected
            && (a.Fine? ==> a.r.sink.down == {} && a.r.sink.pads == {} && a.r.pending == {})
  {
    ReleaseCodesOwed(r, codes);
    var released := ReleaseCodes(r, codes).0;
    assert released.state.held + released.pending == released.pending;
  }

  lemma StopInv(r: Receiver)
    requires forall c :: c in r.state.held + r.pending ==> HoldableCode(c)
    requires r.sink.down <= Controls(r.state.held + r.pending)
    ensures var a := Stop(r);
            && Inv(a.r) && a.r.session.None? && a.r.state == r.state.Stopped() && a.r.injected == r.injected
            && (a.Fine? ==> a.r.sink.down == {} && a.r.sink.pads == {} && a.r.pending == {})
  {
    assert r.pending + r.state.held == r.state.held + r.pending;
    ReleaseWithPadsInv(r.(session := None, state := r.state.Stopped()), r.state.held);
  }

  lemma LockInv(r: Receiver, state: ControlState)
    requires Inv(r)
    requires state == r.state || (state.held == {} && state.mode == if state.AnyLock() then Paused else Local)
    ensures var a := AfterLock(r, state);
            && Inv(a.r) && a.r.state == state && a.r.injected == r.injected
            && (state == r.state && r.session.Some? ==> a == Fine(r, true))
            && (state != r.state || r.session.None? ==>
                  a.r.session.None? && (a.Fine? ==> a.r.sink.down == {} && a.r.sink.pads == {}))
  {
    assert r.pending + r.state.held == r.state.held + r.pending;
    if state == r.state && r.session.Some? {
      NoCodes();
      assert r.pending + {} == {};
    } else if state == r.state {
      assert r.pending + {} == r.pending + r.state.held;
      ReleaseWithPadsInv(r.(session := None), {});
    } else {
      ReleaseWithPadsInv(r.(state := state, session := None), r.state.held);
    }
  }

  predicate SameLocks(r: Receiver, after: Receiver) {
    r.state.localLocked == after.state.localLocked && r.state.peerLocked == after.state.peerLocked
  }

  lemma InputInv(r: Receiver, session: nat, sequence: nat, e: InputEvent)
    requires Inv(r)
    ensures Inv(Input(r, session, sequence, e).r)
    ensures Input(r, session, sequence, e).Error? ==> Input(r, session, sequence, e).r.session.None?
    ensures SameLocks(r, Input(r, session, sequence, e).r)
  {
    if r.session == Some(session) && r.state.mode == Receiving {
      assert r.state.held + r.pending == r.state.held;
      StopInv(r);
      if sequence == r.expected && e.Valid() && r.expected < LAST_SEQUENCE {
        InjectInv(r, session, e);
      }
    }
  }

  lemma PressingHolds(r: Receiver, e: InputEvent)
    requires Inv(r) && r.session.Some? && e.Valid()
    ensures var p := Pressing(r, e);
            && (forall c :: c in p.state.held ==> HoldableCode(c))
            && Controls(p.state.held) == r.sink.down + Effect({}, e)
            && Effect(r.sink.down, e) <= r.sink.down + Effect({}, e)
  {
    var held := e.HeldTransition();
    if held.Some? && held.value.1 {
      ControlsDistinct(held.value.0, r.state.held);
    } else {
      assert Effect({}, e) == {};
    }
  }

  lemma ReleasingHolds(r: Receiver, e: InputEvent)
    requires e.Valid() && forall c :: c in r.state.held ==> HoldableCode(c)
    requires Inv(r)
    ensures Controls(Releasing(Pressing(r, e), e).state.held) == Effect(Controls(r.state.held), e)
  {
    var held := e.HeldTransition();
    if held.Some? {
      ControlsDistinct(held.value.0, r.state.held);
    }
  }

  /** The heart of injection: remembered before the emission, forgotten only after a release succeeded. */
  lemma InjectInv(r: Receiver, session: nat, e: InputEvent)
    requires Inv(r) && r.session == Some(session) && e.Valid() && r.expected < LAST_SEQUENCE
    ensures var a := Input(r, session, r.expected, e);
            Inv(a.r) && SameLocks(r, a.r) && if a.Fine? then a.r.session == r.session else a.r.session.None?
  {
    var pressed := Pressing(r, e);
    var out := Emit(pressed.sink, e);
    var sent := pressed.(sink := out.sink, injected := if out.reached then Injected(r, session, e) else r.injected);
    PressingHolds(r, e);
    assert sent.state.held + sent.pending == sent.state.held;
    if out.ok {
      ReleasingHolds(r, e);
      DownAppend(r.injected[session], e);
      CarriedOutNext(r.sink.log, r.since, r.injected[session], e);
      var after := Releasing(sent, e).(expected := r.expected + 1);
      assert after.state.held + after.pending == after.state.held;
    } else {
      StopInv(sent);
    }
  }

  datatype Command =
    | DoBegin(session: nat)
    | DoInput(session: nat, sequence: nat, event: InputEvent)
    | DoEnd(session: nat)
    | DoStop
    | DoLocalLock(locked: bool)
    | DoPeerLock(locked: bool)
    | DoActivity
    | DoPositionOn(output: string, event: InputEvent)

  function Exec(r: Receiver, c: Command): Answer {
    match c
    case DoBegin(session) => Begin(r, session)
    case DoInput(session, sequence, event) => Input(r, session, sequence, event)
    case DoEnd(session) => End(r, session)
    case DoStop => Stop(r)
    case DoLocalLock(locked) => LocalLock(r, locked)
    case DoPeerLock(locked) => PeerLock(r, locked)
    case DoActivity => PhysicalActivity(r)
    case DoPositionOn(output, event) => PositionOn(r, output, event)
  }

  lemma BeginInv(r: Receiver, session: nat)
    requires Inv(r)
    ensures Inv(Begin(r, session).r)
  {
    if session != 0 && r.pending == {} && r.state.CanStart(Receiving) {
      assert r.state.held + r.pending == {};
      assert Controls({}) == {};
    }
  }

  /** Every operation, with any luck of the sink, keeps every control that may be down remembered. */
  lemma ExecInv(r: Receiver, c: Command)
    requires Inv(r)
    ensures Inv(Exec(r, c).r)
  {
    match c
    case DoBegin(session) => BeginInv(r, session);
    case DoInput(session, sequence, event) => InputInv(r, session, sequence, event);
    case DoEnd(session) => StopInv(r);
    case DoStop => StopInv(r);
    case DoLocalLock(locked) => LockInv(r, r.state.LocalLock(locked));
    case DoPeerLock(locked) => LockInv(r, r.state.PeerLock(locked));
    case DoActivity => StopInv(r);
    case DoPositionOn(output, event) => PlacedInv(r, output, event);
  }

  lemma PlacedInv(r: Receiver, output: string, e: InputEvent)
    requires Inv(r)
    ensures Inv(PositionOn(r, output, e).r)
  {
    if r.session.Some? && r.expected == 0 && e.AbsoluteInput? {
      CarriedOutNext(r.sink.log, r.since, [], e);
    }
  }

  function ExecAll(r: Receiver, commands: seq<Command>): Receiver {
    if commands == [] then r
    else Exec(ExecAll(r, commands[..|commands| - 1]), commands[|commands| - 1]).r
  }

  /** Over any run of operations and any luck of the sink, whatever may be down is held or owed. */
  lemma {:induction false} NothingForgotten(fate: seq<Luck>, commands: seq<Command>)
    ensures var r := ExecAll(NewReceiver(fate), commands);
            Inv(r) && r.sink.down <= Controls(r.state.held + r.pending)
    decreases |commands|
  {
    if commands != [] {
      NothingForgotten(fate, commands[..|commands| - 1]);
      ExecInv(ExecAll(NewReceiver(fate), commands[..|commands| - 1]), commands[|commands| - 1]);
    }
  }

  /** A session begins, and the pointer is placed, only when no key or button can be down. */
  lemma StartsClean(r: Receiver, session: nat, output: string, e: InputEvent)
    requires Inv(r)
    ensures Begin(r, session) == Fine(Begin(r, session).r, true) ==> r.sink.down == {}
    ensures PositionOn(r, output, e).Fine? ==> r.sink.down == {}
  {
    hide CarriedOut;
    assert Controls({}) == {};
    if r.pending == {} && r.session.None? {
      assert r.state.held + r.pending == {};
    }
    if r.session.Some? && r.expected == 0 {
      assert r.injected[r.session.value] == [];
    }
  }

  /** A successful stop leaves nothing down, on the keyboard, the pointer or a touchpad. */
  lemma StopLiftsEverything(r: Receiver)
    requires Inv(r) && Stop(r).Fine?
    ensures Stop(r).r.sink.down == {} && Stop(r).r.sink.pads == {} && Stop(r).r.pending == {}
  {
    StopInv(r);
  }

  /** With nothing held and nothing owed, a cleanup whose touchpad reset fails changes nothing at the sink. */
  lemma NothingToRelease(r: Receiver)
    requires r.pending == {} && Next(r.sink.fate) == FailedBefore
    ensures ReleaseWithPads(r, {}) == Error(r.(sink := r.sink.(fate := Rest(r.sink.fate))), SinkFailed)
  {
    NoCodes();
    assert r.pending + {} == {};
  }

  lemma {:induction false} ReleaseEachSucceeds(r: Receiver, order: seq<int>)
    requires forall i :: 0 <= i < |r.sink.fate| ==> r.sink.fate[i] == Done
    ensures var (after, ok) := ReleaseEach(r, order);
            ok && forall i :: 0 <= i < |after.sink.fate| ==> after.sink.fate[i] == Done
    decreases |order|
  {
    if order != [] {
      ReleaseEachSucceeds(r, order[..|order| - 1]);
    }
  }

  /** When no call to the sink fails, a stop succeeds, whatever was held or owed. */
  lemma StopSucceeds(r: Receiver)
    requires Inv(r) && forall i :: 0 <= i < |r.sink.fate| ==> r.sink.fate[i] == Done
    ensures Stop(r).Fine? && Stop(r).r.sink.down == {} && Stop(r).r.sink.pads == {} && Stop(r).r.pending == {}
  {
    hide Codes;
    var stopped := r.(session := None, state := r.state.Stopped());
    var all := stopped.(pending := stopped.pending + r.state.held);
    ReleaseEachSucceeds(all, Codes(all.pending));
    StopInv(r);
  }

  // ---- Touchpads ----

  /** The luck left after `n` calls. */
  function After(fate: seq<Luck>, n: nat): seq<Luck> {
    if n <= |fate| then fate[n..] else []
  }

  lemma {:induction false} ReleaseEachUses(r: Receiver, order: seq<int>)
    ensures var after := ReleaseEach(r, order).0.sink;
            after.fate == After(r.sink.fate, |order|) && after.pads == r.sink.pads
    decreases |order|
  {
    if order != [] {
      ReleaseEachUses(r, order[..|order| - 1]);
    }
  }

  /** How the one reset of a cleanup turns out that first tries to release these codes, once each. */
  function ResetLuck(fate: seq<Luck>, codes: set<int>): Luck {
    Next(After(fate, |Codes(codes)|))
  }

  /** Touchpads are held to less than keys, because a failed reset is not remembered: a stop leaves one touched exactly
      when one was touched and the single reset failed before taking effect. */
  lemma StopLiftsPadsWhen(r: Receiver)
    ensures Stop(r).r.sink.pads == {}
       <==> r.sink.pads == {} || ResetLuck(r.sink.fate, r.pending + r.state.held) != FailedBefore
    ensures Stop(r).r.sink.pads == {} || Stop(r).r.sink.pads == r.sink.pads
    ensures Stop(r).Fine? ==> Stop(r).r.sink.pads == {}
  {
    hide Codes;
    var all := r.(session := None, state := r.state.Stopped(), pending := r.pending + r.state.held);
    ReleaseEachUses(all, Codes(all.pending));
  }

  /** What holds while every operation has succeeded: nothing is owed, and without a session no touchpad is touched. */
  ghost predicate Calm(r: Receiver) {
    Inv(r) && r.pending == {} && (r.session.None? ==> r.sink.pads == {})
  }

  lemma FreshIsCalm(fate: seq<Luck>)
    ensures Calm(NewReceiver(fate))
  {
    hide Controls;
  }

  lemma LockClean(r: Receiver, state: ControlState)
    requires Calm(r)
    requires state == r.state || (state.held == {} && state.mode == if state.AnyLock() then Paused else Local)
    ensures AfterLock(r, state).Fine? ==> Calm(AfterLock(r, state).r)
  {
    hide Codes, ReleaseEach;
    LockInv(r, state);
    if state != r.state || r.session.None? {
      var codes := if state == r.state then {} else r.state.held;
      assert r.pending + r.state.held == r.state.held + r.pending && r.pending + {} == {};
      ReleaseWithPadsInv(r.(state := state, session := None), codes);
    }
  }

  lemma InputClean(r: Receiver, session: nat, sequence: nat, e: InputEvent)
    requires Calm(r) && Input(r, session, sequence, e).Fine?
    ensures Calm(Input(r, session, sequence, e).r)
  {
    hide Codes, ReleaseEach, InputEvent.Valid, Effect, Controls;
    InputInv(r, session, sequence, e);
  }

  lemma PlacedClean(r: Receiver, output: string, e: InputEvent)
    requires Calm(r) && PositionOn(r, output, e).Fine?
    ensures Calm(PositionOn(r, output, e).r)
  {
    hide Controls, CarriedOut;
    PlacedInv(r, output, e);
  }

  /** An operation that succeeds keeps that. */
  lemma ExecClean(r: Receiver, c: Command)
    requires Calm(r) && Exec(r, c).Fine?
    ensures Calm(Exec(r, c).r)
  {
    hide Calm, Inv, Codes, ReleaseEach, Controls, Input, PositionOn, AfterLock;
    match c
    case DoBegin(session) => BeginClean(r, session);
    case DoInput(session, sequence, event) => InputClean(r, session, sequence, event);
    case DoEnd(session) => StopClean(r);
    case DoStop => StopClean(r);
    case DoLocalLock(locked) => LockClean(r, r.state.LocalLock(locked));
    case DoPeerLock(locked) => LockClean(r, r.state.PeerLock(locked));
    case DoActivity => StopClean(r);
    case DoPositionOn(output, event) => PlacedClean(r, output, event);
  }

  lemma BeginClean(r: Receiver, session: nat)
    requires Calm(r) && Begin(r, session).Fine?
    ensures Calm(Begin(r, session).r)
  {
    BeginInv(r, session);
  }

  lemma StopClean(r: Receiver)
    requires Calm(r)
    ensures Stop(r).Fine? ==> Calm(Stop(r).r)
  {
    StopInv(r);
  }

  /** Run until the first error, as in a connection: every session begins with no key, button or touchpad down. */
  lemma {:induction false} SessionsBeginClean(fate: seq<Luck>, commands: seq<Command>, session: nat)
    requires forall k :: 0 <= k < |commands| ==> Exec(ExecAll(NewReceiver(fate), commands[..k]), commands[k]).Fine?
    ensures var r := ExecAll(NewReceiver(fate), commands);
            Calm(r)
            && (Begin(r, session).Fine? && Begin(r, session).accepted ==> r.sink.down == {} && r.sink.pads == {})
    decreases |commands|
  {
    hide Calm, Exec, Controls;
    if commands == [] {
      FreshIsCalm(fate);
    } else {
      var before := commands[..|commands| - 1];
      assert forall k :: 0 <= k < |before| ==> before[..k] == commands[..k];
      SessionsBeginClean(fate, before, session);
      ExecClean(ExecAll(NewReceiver(fate), before), commands[|before|]);
    }
    CalmBegins(ExecAll(NewReceiver(fate), commands), session);
  }

  lemma CalmBegins(r: Receiver, session: nat)
    requires Calm(r)
    ensures Begin(r, session).Fine? && Begin(r, session).accepted ==> r.sink.down == {} && r.sink.pads == {}
  {
    StartsClean(r, session, "", ScrollStop(Horizontal, Wheel));
  }

  /** A receiver that went on after such a failure would begin a session on a touched pad. */
  lemma PadsMayStayTouched()
    ensures var touch := Touchpad(0, 1, [TouchEvent(Key, TOUCH, 1)]);
            var begun := Begin(NewReceiver([Done, FailedBefore]), 1);
            var stopped := Stop(Input(begun.r, 1, 0, touch).r);
            stopped.Error? && stopped.r.sink.pads == {0} && Begin(stopped.r, 2).Fine? && Begin(stopped.r, 2).accepted
  {
    hide ReleaseWithPads;
    var touch := Touchpad(0, 1, [TouchEvent(Key, TOUCH, 1)]);
    var begun := Begin(NewReceiver([Done, FailedBefore]), 1).r;
    assert ValidTouchEvent(touch.events[0]);
    assert touch.Valid();
    var touched := Input(begun, 1, 0, touch).r;
    assert [Done, FailedBefore][1..] == [FailedBefore] && [FailedBefore][1..] == [];
    assert touched.sink == Sink({}, {0}, [FailedBefore], [touch], "");
    assert touched.pending == {} && touched.state.held == {};
    NothingToRelease(touched.(session := None, state := touched.state.Stopped()));
  }
}
