// Who is in control and what is held for the paired computer (ControlState and HeldInputs in src/input.rs).
module Modes {
  import opened Protocol

  datatype Mode = Local | Sending | Receiving | Paused

  datatype ControlState = ControlState(mode: Mode, localLocked: bool, peerLocked: bool, held: set<int>) {
    predicate AnyLock() {
      localLocked || peerLocked
    }

    predicate CanStart(next: Mode) {
      mode == Local && !AnyLock() && next in {Sending, Receiving}
    }

    /** Forgets what is held and falls back to local control, or to a pause while something is locked. */
    function Stopped(): ControlState {
      this.(held := {}, mode := if AnyLock() then Paused else Local)
    }

    function LocalLock(locked: bool): ControlState {
      if localLocked == locked then this else this.(localLocked := locked).Stopped()
    }

    function PeerLock(locked: bool): ControlState {
      if peerLocked == locked then this else this.(peerLocked := locked).Stopped()
    }
  }

  class ControlMachine {
    var mode: Mode
    var localLocked: bool
    var peerLocked: bool
    var held: set<int>

    function View(): ControlState
      reads this
    {
      ControlState(mode, localLocked, peerLocked, held)
    }

    constructor ()
      ensures View() == ControlState(Local, false, false, {})
    {
      mode, localLocked, peerLocked, held := Local, false, false, {};
    }

    method Start(next: Mode) returns (ok: bool)
      modifies this`mode
      ensures ok == old(View()).CanStart(next)
      ensures View() == if ok then old(View()).(mode := next) else old(View())
    {
      ok := mode == Local && !localLocked && !peerLocked && (next == Sending || next == Receiving);
      if ok {
        mode := next;
      }
    }

    method Press(code: int)
      modifies this`held
      ensures held == if mode in {Sending, Receiving} then old(held) + {code} else old(held)
    {
      if mode == Sending || mode == Receiving {
        held := held + {code};
      }
    }

    method Release(code: int)
      modifies this`held
      ensures held == old(held) - {code}
    {
      held := held - {code};
    }

    /** Gives back control; the codes that were held must be released by the caller. */
    method Stop() returns (codes: set<int>)
      modifies this`held, this`mode
      ensures View() == old(View()).Stopped() && codes == old(held)
    {
      codes := held;
      held := {};
      mode := if localLocked || peerLocked then Paused else Local;
    }

    method LocalLockChanged(locked: bool) returns (codes: set<int>)
      modifies this
      ensures View() == old(View()).LocalLock(locked)
      ensures codes == if View() == old(View()) then {} else old(held)
    {
      if localLocked == locked {
        return {};
      }
      localLocked := locked;
      codes := Stop();
    }

    method PeerLockChanged(locked: bool) returns (codes: set<int>)
      modifies this
      ensures View() == old(View()).PeerLock(locked)
      ensures codes == if View() == old(View()) then {} else old(held)
    {
      if peerLocked == locked {
        return {};
      }
      peerLocked := locked;
      codes := Stop();
    }

    method PhysicalActivity() returns (codes: Option<set<int>>)
      modifies this`held, this`mode
      ensures codes == if old(mode) == Receiving then Some(old(held)) else None
      ensures View() == if old(mode) == Receiving then old(View()).Stopped() else old(View())
    {
      if mode != Receiving {
        return None;
      }
      var freed := Stop();
      return Some(freed);
    }
  }
}
