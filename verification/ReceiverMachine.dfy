// The receiver as the object it is (src/receiver.rs): every method does what its specification in Injection says.
module ReceiverMachine {
  import opened Injection
  import opened Modes
  import opened Ordered
  import opened Protocol

  class InputReceiver {
    var sink: Sink
    const state: ControlMachine
    var session: Option<nat>
    var expected: nat
    var pending: set<int>
    ghost var injected: map<nat, seq<InputEvent>>
    ghost var since: nat

    ghost function View(): Receiver
      reads this, state
    {
      Receiver(sink, state.View(), session, expected, pending, injected, since)
    }

    constructor (backend: Sink)
      ensures View() == NewReceiver(backend.fate).(sink := backend) && fresh(state)
    {
      sink, session, expected, pending, injected, since := backend, None, 0, {}, map[], 0;
      state := new ControlMachine();
    }

    method EmitOne(e: InputEvent) returns (ok: bool, ghost reached: bool)
      modifies this`sink
      ensures var out := Emit(old(sink), e); sink == out.sink && ok == out.ok && reached == out.reached
    {
      var out := Emit(sink, e);
      sink, ok, reached := out.sink, out.ok, out.reached;
    }

    method Release(codes: set<int>) returns (ok: bool)
      modifies this`sink, this`pending
      ensures (View(), ok) == ReleaseCodes(old(View()), codes)
    {
      hide Codes;
      pending := pending + codes;
      ghost var all := View();
      var order := Codes(pending);
      ok := true;
      for i := 0 to |order|
        invariant (View(), ok) == ReleaseEach(all, order[..i])
      {
        assert order[..i + 1][..i] == order[..i];
        var emitted, _ := EmitOne(Protocol.Release(order[i]));
        if emitted {
          pending := pending - {order[i]};
        } else {
          ok := false;
        }
      }
      assert order[..|order|] == order;
    }

    method ReleaseWithTouchpads(codes: set<int>) returns (ok: bool)
      modifies this`sink, this`pending
      ensures ReleaseWithPads(old(View()), codes) == if ok then Fine(View(), true) else Error(View(), SinkFailed)
    {
      hide ReleaseCodes;
      var keys := Release(codes);
      var (after, pads) := ResetPads(sink);
      sink := after;
      ok := keys && pads;
    }

    method Begin(id: nat) returns (answer: Option<bool>)
      modifies this, state
      ensures Agrees(Injection.Begin(old(View()), id), answer)
    {
      if id == 0 || pending != {} {
        return None;
      }
      var started := state.Start(Receiving);
      if started {
        session, expected := Some(id), 0;
        injected, since := injected[id := []], |sink.log|;
      }
      return Some(started);
    }

    /** The answer and the new state are those of the specification. */
    ghost predicate Agrees(spec: Answer, answer: Option<bool>)
      reads this, state
    {
      spec.r == View() && match answer
        case Some(accepted) => spec.Fine? && spec.accepted == accepted
        case None => spec.Error?
    }

    method Stop() returns (ok: bool)
      modifies this, state
      ensures Injection.Stop(old(View())) == if ok then Fine(View(), true) else Error(View(), SinkFailed)
    {
      session := None;
      var codes := state.Stop();
      ok := ReleaseWithTouchpads(codes);
    }

    method Input(id: nat, sequence: nat, e: InputEvent) returns (answer: Option<bool>)
      modifies this, state
      ensures Agrees(Injection.Input(old(View()), id, sequence, e), answer)
    {
      hide Injection.Stop, InputEvent.Valid, Emit, Effect;
      if session != Some(id) || state.mode != Receiving {
        return Some(false);
      }
      if sequence != expected || !e.Valid() || expected >= LAST_SEQUENCE {
        var _ := Stop();
        return None;
      }
      var held := e.HeldTransition();
      ghost var start := View();
      if held.Some? && held.value.1 {
        state.Press(held.value.0);
      }
      assert View() == Pressing(start, e);
      var emitted, reached := EmitOne(e);
      if reached {
        injected := injected[id := (if id in injected then injected[id] else []) + [e]];
      }
      if !emitted {
        var _ := Stop();
        return None;
      }
      if held.Some? && !held.value.1 {
        state.Release(held.value.0);
      }
      expected := expected + 1;
      return Some(true);
    }

    method End(id: nat) returns (ok: bool)
      modifies this, state
      ensures Agrees(Injection.End(old(View()), id), if ok then Some(true) else None)
    {
      ok := true;
      if session == Some(id) {
        ok := Stop();
      }
    }

    method AfterLock(codes: set<int>) returns (ok: bool)
      modifies this
      ensures var r := old(View()); Agrees(LockReleases(r, codes), if ok then Some(true) else None)
    {
      hide ReleaseCodes, ReleaseWithPads;
      if state.mode != Receiving {
        session := None;
        ok := ReleaseWithTouchpads(codes);
      } else {
        ok := Release(codes);
      }
    }

    method LocalLock(locked: bool) returns (ok: bool)
      modifies this, state
      ensures Agrees(Injection.LocalLock(old(View()), locked), if ok then Some(true) else None)
    {
      hide LockReleases;
      var codes := state.LocalLockChanged(locked);
      ok := AfterLock(codes);
    }

    method PeerLock(locked: bool) returns (ok: bool)
      modifies this, state
      ensures Agrees(Injection.PeerLock(old(View()), locked), if ok then Some(true) else None)
    {
      hide LockReleases;
      var codes := state.PeerLockChanged(locked);
      ok := AfterLock(codes);
    }

    method PhysicalActivity() returns (ok: bool)
      modifies this, state
      ensures Agrees(Injection.PhysicalActivity(old(View())), if ok then Some(true) else None)
    {
      hide ReleaseWithPads;
      ok := true;
      var codes := state.PhysicalActivity();
      if codes.Some? {
        session := None;
        ok := ReleaseWithTouchpads(codes.value);
      }
    }

    method PositionOn(output: string, e: InputEvent) returns (ok: bool)
      modifies this`sink
      ensures Agrees(Injection.PositionOn(old(View()), output, e), if ok then Some(true) else None)
    {
      if pending != {} || !(session.None? || expected == 0) || !e.AbsoluteInput? || !e.Valid() {
        return false;
      }
      var (selected, chosen) := SelectOutput(sink, output);
      sink := selected;
      if !chosen {
        return false;
      }
      var emitted, _ := EmitOne(e);
      return emitted;
    }
  }
}
