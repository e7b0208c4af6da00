// The capture worker's state as the object it is (State in src/capture_probe.rs): every handler does what its
// specification in Capture says.
module CaptureMachine {
  import opened Capture
  import opened Geometry
  import opened Protocol
  import Keyboard

  class CaptureState {
    var finished: bool
    var why: Why
    var requested: bool
    var readyReported: bool
    var locked: bool
    var focused: bool
    var inhibited: bool
    var selected: Option<nat>
    var fraction: real
    var strips: seq<Strip>
    var pendingInputs: seq<InputEvent>
    var pressedKeys: set<int>
    var source: ScrollSource
    var room: seq<bool>
    var out: seq<Report>
    ghost var accepted: seq<InputEvent>
    ghost var buffer: seq<InputEvent>

    ghost function View(): Worker
      reads this
    {
      Worker(finished, why, requested, readyReported, locked, focused, inhibited, selected, fraction, strips,
             pendingInputs, pressedKeys, source, room, out, accepted, buffer)
    }

    constructor (edges: seq<Strip>, queue: seq<bool>)
      ensures View() == New(edges, queue)
    {
      finished, why, requested, readyReported := false, Unset, false, false;
      locked, focused, inhibited := false, false, false;
      selected, fraction, strips := None, 0.0, edges;
      pendingInputs, pressedKeys, source := [], {}, Wheel;
      room, out, accepted, buffer := queue, [], [], [];
    }

    method Finish(reason: Why)
      modifies this`finished, this`why
      ensures View() == Capture.Finish(old(View()), reason)
    {
      if !finished {
        why := reason;
      }
      finished := true;
    }

    method Publish(report: Report)
      modifies this`finished, this`why, this`room, this`out
      ensures View() == Capture.Publish(old(View()), report)
    {
      if finished {
        return;
      }
      var fits := room == [] || room[0];
      if room != [] {
        room := room[1..];
      }
      if fits {
        out := out + [report];
      } else {
        Finish(QueueUnavailable);
      }
    }

    method Input(event: InputEvent)
      modifies this
      ensures View() == Accept(old(View()), event)
    {
      if !event.Valid() {
        Finish(UnsupportedInput);
      } else if readyReported {
        accepted := accepted + [event];
        Publish(Captured(event));
      } else if |pendingInputs| < BUFFER_LIMIT {
        accepted := accepted + [event];
        pendingInputs := pendingInputs + [event];
      } else {
        Finish(QueueUnavailable);
      }
    }

    method ForwardAll(events: seq<InputEvent>)
      modifies this`finished, this`why, this`room, this`out
      ensures View() == PublishAll(old(View()), events)
    {
      hide Capture.Publish;
      ghost var start := View();
      for i := 0 to |events|
        invariant View() == PublishAll(start, events[..i])
      {
        assert events[..i + 1][..i] == events[..i];
        Publish(Captured(events[i]));
      }
      assert events[..|events|] == events;
    }

    method AnnounceReady(events: seq<InputEvent>)
      requires selected.Some?
      modifies this`finished, this`why, this`room, this`out
      ensures View() == Capture.Publish(PublishAll(Capture.Publish(old(View()), Started(selected.value, fraction)),
                                                   events), Ready)
    {
      hide Capture.Publish, PublishAll;
      Publish(Started(selected.value, fraction));
      ForwardAll(events);
      Publish(Ready);
    }

    method ReportReady()
      modifies this
      ensures View() == Capture.ReportReady(old(View()))
    {
      hide Capture.Publish, PublishAll;
      if readyReported || !locked || !focused || !inhibited || selected.None? {
        return;
      }
      readyReported := true;
      var events := pendingInputs;
      pendingInputs := [];
      buffer := events;
      AnnounceReady(events);
    }

    method RequestCapture(edge: nat, at: real, cancelled: bool, pointer: bool)
      modifies this
      ensures View() == Capture.RequestCapture(old(View()), edge, at, cancelled, pointer)
    {
      if requested || finished {
        return;
      }
      if cancelled {
        Finish(Cancelled);
        return;
      }
      fraction := Clamp(at, 0.0, 1.0);
      if edge >= |strips| || !pointer {
        return;
      }
      selected := Some(edge);
      requested := true;
    }

    method PointerEnter(strip: nat, at: real, cancelled: bool, pointer: bool)
      modifies this
      ensures View() == Dispatch(old(View()), PointerEntered(Some(strip), at, cancelled, pointer))
    {
      if strip >= |strips| {
        return;
      }
      var armed := strips[strip].armed;
      strips := strips[strip := strips[strip].(inside := true)];
      if armed {
        RequestCapture(strip, at, cancelled, pointer);
      }
    }

    method PointerLeave(strip: nat)
      modifies this`strips
      ensures View() == Dispatch(old(View()), PointerLeft(Some(strip)))
    {
      if strip < |strips| {
        strips := strips[strip := Strip(true, false)];
      }
    }

    method PressHeld(keys: seq<int>)
      modifies this
      ensures View() == PressEach(old(View()), keys)
    {
      hide Accept;
      ghost var start := View();
      for i := 0 to |keys|
        invariant View() == PressEach(start, keys[..i])
      {
        assert keys[..i + 1][..i] == keys[..i];
        if Fits16(keys[i]) && keys[i] !in pressedKeys {
          pressedKeys := pressedKeys + {keys[i]};
          Input(KeyInput(keys[i], true));
        }
      }
      assert keys[..|keys|] == keys;
    }

    method KeyboardEnter(keys: seq<int>, whole: bool)
      requires selected.Some?
      modifies this
      ensures View() == Dispatch(old(View()), FocusGained(true, whole, keys))
    {
      hide PressEach, Capture.ReportReady;
      focused := true;
      if whole {
        PressHeld(keys);
        ReportReady();
      } else {
        Finish(Interrupted);
      }
    }

    method Key(code: int, pressed: bool)
      requires requested
      modifies this
      ensures View() == Dispatch(old(View()), KeyChanged(code, pressed))
    {
      hide Accept;
      if !Fits16(code) {
        Finish(UnsupportedInput);
        return;
      }
      var changed := pressed != (code in pressedKeys);
      if pressed {
        pressedKeys := pressedKeys + {code};
      } else {
        pressedKeys := pressedKeys - {code};
      }
      if code == Keyboard.ESCAPE && pressed && Keyboard.Emergency(pressedKeys) {
        Finish(Escape);
      } else if changed {
        Input(KeyInput(code, pressed));
      }
    }

    method PointerLocked()
      modifies this
      ensures View() == Dispatch(old(View()), LockGained)
    {
      hide Capture.ReportReady;
      locked := true;
      ReportReady();
    }

    method ShortcutsInhibited()
      modifies this
      ensures View() == Dispatch(old(View()), InhibitorActive)
    {
      hide Capture.ReportReady;
      inhibited := true;
      ReportReady();
    }

    /** After the first roundtrips: a pointer already at a strip must leave it first. */
    method Arm()
      modifies this
      ensures View() == Dispatch(old(View()), ArmStrips)
    {
      hide Capture.Publish;
      ghost var before := strips;
      for i := 0 to |strips|
        invariant |strips| == |before| && View() == old(View()).(strips := strips)
        invariant forall k :: 0 <= k < |strips| ==>
                    strips[k] == if k < i then before[k].(armed := !before[k].inside) else before[k]
      {
        strips := strips[i := strips[i].(armed := !strips[i].inside)];
      }
      assert strips == Armed1(before);
      Publish(Report.Armed);
    }
  }
}
