// Routing one stroke between the local mirror and the paired computer (Router and
// VirtualTouchpad in src/touchpad.rs).
module Routing {
  import opened Protocol
  import opened Touchpad

  const QUEUE_LIMIT := 128
  const MAX_DELAY := 200_000

  /** What the physical device reports: a report end or loss marker, a key, an axis, or anything else. */
  datatype DeviceEvent =
    | Report(time: nat)
    | Lost
    | DeviceKey(code: int, value: int)
    | DeviceAxis(code: int, value: int)
    | Unrelated

  /** `written` is everything that the virtual device of the mirror has been given. */
  datatype Pad = Pad(descriptor: Descriptor, grabbed: bool, state: Touch, mirror: Touch, frame: seq<TouchEvent>,
                     written: seq<TouchEvent>)

  datatype TouchFrame = TouchFrame(pad: nat, time: nat, events: seq<TouchEvent>)

  datatype Router = Router(pads: seq<Pad>, remote: bool, pending: seq<TouchFrame>)

  /** The state of the fingers was once read from the kernel, so its values may be any; the mirror saw only valid
      frames. */
  ghost predicate SoundPad(p: Pad) {
    p.descriptor.Valid() && Readable(p.descriptor, p.state) && InShape(p.descriptor, p.mirror)
  }

  ghost predicate SoundRouter(r: Router) {
    forall i :: 0 <= i < |r.pads| ==> SoundPad(r.pads[i])
  }

  /** The same pads with the same capabilities, whatever happened to their contents. */
  ghost predicate SameDevices(r: Router, out: Router) {
    |r.pads| == |out.pads| && forall i :: 0 <= i < |r.pads| ==> r.pads[i].descriptor == out.pads[i].descriptor
  }

  lemma AllowedReplay(d: Descriptor, t: Touch, events: seq<TouchEvent>)
    requires d.Valid() && InShape(d, t) && d.AllowsFrame(events)
    ensures SlotsFit(events, |t.contacts|) && InShape(d, Replay(t, events))
  {
    ApplyInShape(d, t, events);
  }

  lemma ReadReplay(d: Descriptor, t: Touch, events: seq<TouchEvent>)
    requires d.Valid() && Readable(d, t) && d.AllowsFrame(events)
    ensures SlotsFit(events, |t.contacts|) && Readable(d, Replay(t, events))
  {
    ApplyReadable(d, t, events);
  }

  /** Writing a frame to the mirror: refused when not announced or too old. */
  function EmitAt(p: Pad, events: seq<TouchEvent>, time: nat, now: nat, writable: bool): (r: Outcome<Pad>)
    requires SoundPad(p)
    ensures r.Ok? ==> SoundPad(r.value)
  {
    if p.descriptor.AllowsFrame(events) && time <= now && now - time <= MAX_DELAY && writable then
      AllowedReplay(p.descriptor, p.mirror, events);
      Ok(p.(mirror := Replay(p.mirror, events), written := p.written + events))
    else Failed
  }

  function Reset(p: Pad, writable: bool): (r: Outcome<Pad>)
    requires SoundPad(p)
    ensures r.Ok? ==> SoundPad(r.value)
  {
    NewInShape(p.descriptor);
    var lifted :- EmitAt(p, ReleasesOf(p.mirror), 0, 0, writable);
    Ok(lifted.(mirror := New(p.descriptor)))
  }

  /** Handling one report of a grabbed pad. */
  function Deliver(r: Router, i: nat, time: nat, now: nat, writable: bool): (out: Outcome<Router>)
    requires SoundRouter(r) && i < |r.pads|
    ensures out.Ok? ==> SoundRouter(out.value) && SameDevices(r, out.value)
  {
    var p := r.pads[i];
    if |r.pending| >= QUEUE_LIMIT || !p.descriptor.AllowsFrame(p.frame) then Failed
    else
      ReadReplay(p.descriptor, p.state, p.frame);
      var q := p.(state := Replay(p.state, p.frame), frame := []);
      if r.remote then
        Ok(r.(pads := r.pads[i := q], pending := r.pending + [TouchFrame(i, time, p.frame)]))
      else
        var m :- EmitAt(q, p.frame, time, now, writable);
        Ok(r.(pads := r.pads[i := m]))
  }

  function Push(r: Router, i: nat, e: TouchEvent): (out: Outcome<Router>)
    requires SoundRouter(r) && i < |r.pads|
    ensures out.Ok? ==> SoundRouter(out.value) && SameDevices(r, out.value)
  {
    var p := r.pads[i];
    if |p.frame| >= MAX_FRAME then Failed
    else Ok(r.(pads := r.pads[i := p.(frame := p.frame + [e])]))
  }

  /** One device event of one pad. */
  function Feed(r: Router, i: nat, e: DeviceEvent, now: nat, writable: bool): (out: Outcome<Router>)
    requires SoundRouter(r) && i < |r.pads|
    ensures out.Ok? ==> SoundRouter(out.value) && SameDevices(r, out.value)
  {
    if !r.pads[i].grabbed then Ok(r)
    else match e
      case Lost => Failed
      case Report(time) => if r.pads[i].frame == [] then Ok(r) else Deliver(r, i, time, now, writable)
      case DeviceKey(code, value) =>
        if TouchKey(code) && value != 2 then Push(r, i, TouchEvent(Key, code, value)) else Ok(r)
      case DeviceAxis(code, value) =>
        if TouchAxis(code) then Push(r, i, TouchEvent(Absolute, code, value)) else Ok(r)
      case Unrelated => Ok(r)
  }

  /** Taking over an idle pad with the state the kernel reports. */
  function Grab(r: Router, i: nat, state: Touch): (out: Router)
    requires SoundRouter(r) && i < |r.pads| && Readable(r.pads[i].descriptor, state)
    ensures SoundRouter(out) && SameDevices(r, out)
  {
    if !r.pads[i].grabbed && Idle(state)
    then r.(pads := r.pads[i := r.pads[i].(state := state, grabbed := true)])
    else r
  }

  /** What one sampling round finds at one pad: its queued events, and its state if it was just acquired. */
  datatype Found = Found(events: seq<DeviceEvent>, acquired: Option<Touch>)

  function FeedAll(r: Router, i: nat, events: seq<DeviceEvent>, now: nat, writable: bool): (out: Outcome<Router>)
    requires SoundRouter(r) && i < |r.pads|
    ensures out.Ok? ==> SoundRouter(out.value) && SameDevices(r, out.value)
  {
    if events == [] then Ok(r)
    else
      var done :- FeedAll(r, i, events[..|events| - 1], now, writable);
      Feed(done, i, events[|events| - 1], now, writable)
  }

  /** Reading a device gives its slots, keys and axes, whatever their values. */
  ghost predicate ReadFrom(p: Pad, found: Found) {
    found.acquired.Some? ==> p.descriptor.Valid() && Readable(p.descriptor, found.acquired.value)
  }

  function SamplePad(r: Router, i: nat, found: Found, now: nat, writable: bool): (out: Outcome<Router>)
    requires SoundRouter(r) && i < |r.pads| && ReadFrom(r.pads[i], found)
    ensures out.Ok? ==> SoundRouter(out.value) && SameDevices(r, out.value)
  {
    var fed :- FeedAll(r, i, found.events, now, writable);
    Ok(if found.acquired.Some? then Grab(fed, i, found.acquired.value) else fed)
  }

  /** Switching one pad's destination. */
  function Switch(p: Pad, remote: bool, writable: bool): (r: Outcome<Pad>)
    requires SoundPad(p)
    ensures r.Ok? ==> SoundPad(r.value)
  {
    if !p.grabbed then Ok(p)
    else if remote then Reset(p, writable)
    else EmitAt(p, SnapshotOf(p.state), 0, 0, writable)
  }

  predicate CanSwitch(pads: seq<Pad>, remote: bool, writable: bool)
    requires forall i :: 0 <= i < |pads| ==> SoundPad(pads[i])
  {
    forall i :: 0 <= i < |pads| ==> Switch(pads[i], remote, writable).Ok?
  }

  function SwitchPads(pads: seq<Pad>, remote: bool, writable: bool): seq<Pad>
    requires forall i :: 0 <= i < |pads| ==> SoundPad(pads[i])
    requires CanSwitch(pads, remote, writable)
  {
    seq(|pads|, i requires 0 <= i < |pads| => Switch(pads[i], remote, writable).value)
  }

  ghost predicate Switched(p: Pad, after: Pad, remote: bool, writable: bool) {
    SoundPad(p) && Switch(p, remote, writable) == Ok(after)
  }

  function Snapshots(pads: seq<Pad>, upTo: nat, now: nat): seq<TouchFrame>
    requires upTo <= |pads|
  {
    if upTo == 0 then []
    else if pads[upTo - 1].grabbed
    then Snapshots(pads, upTo - 1, now) + [TouchFrame(upTo - 1, now, SnapshotOf(pads[upTo - 1].state))]
    else Snapshots(pads, upTo - 1, now)
  }

  /** Switching the destination of every grabbed pad: the new router and the snapshots to send. */
  function Redirect(r: Router, remote: bool, now: nat, writable: bool): (out: Outcome<(Router, seq<TouchFrame>)>)
    requires SoundRouter(r)
    ensures out.Ok? ==> SoundRouter(out.value.0) && |out.value.0.pads| == |r.pads|
  {
    if r.remote == remote then Ok((r, []))
    else if CanSwitch(r.pads, remote, writable) then
      Ok((Router(SwitchPads(r.pads, remote, writable), remote, []),
          if remote then Snapshots(r.pads, |r.pads|, now) else []))
    else Failed
  }

  lemma AllSwitched(r: Router, after: seq<Pad>, remote: bool, now: nat, writable: bool)
    requires SoundRouter(r) && r.remote != remote && |after| == |r.pads|
    requires forall i :: 0 <= i < |after| ==> Switched(r.pads[i], after[i], remote, writable)
    ensures Redirect(r, remote, now, writable)
         == Ok((Router(after, remote, []), if remote then Snapshots(r.pads, |r.pads|, now) else []))
  {
    hide SoundPad, InShape, Switch;
    forall i | 0 <= i < |after| ensures Switch(r.pads[i], remote, writable) == Ok(after[i]) {
      assert Switched(r.pads[i], after[i], remote, writable);
    }
    assert SwitchPads(r.pads, remote, writable) == after;
  }

  // ---- The destination stays in step with the fingers ----

  /** Everything known about a contact in the destination is true of the physical contact. */
  ghost predicate SameContact(physical: Contact, seen: Contact) {
    && (Active(physical) || Active(seen) ==> TrackingOf(physical) == TrackingOf(seen))
    && forall c :: c in seen && c != TRACKING ==> c in physical && physical[c] == seen[c]
  }

  ghost predicate InStep(physical: Touch, seen: Touch) {
    && seen.slot == physical.slot && seen.keys == physical.keys && seen.axes == physical.axes
    && |seen.contacts| == |physical.contacts|
    && forall i :: 0 <= i < |seen.contacts| ==> SameContact(physical.contacts[i], seen.contacts[i])
  }

  lemma StepTogether(physical: Touch, seen: Touch, e: TouchEvent)
    requires physical.Fits() && InStep(physical, seen) && SlotFits(e, |physical.contacts|)
    ensures InStep(ApplyOne(physical, e), ApplyOne(seen, e))
  {
  }

  /** The same events keep both sides in step, whatever they are. */
  lemma {:induction false} FrameTogether(physical: Touch, seen: Touch, events: seq<TouchEvent>)
    requires physical.Fits() && InStep(physical, seen) && SlotsFit(events, |physical.contacts|)
    ensures InStep(Replay(physical, events), Replay(seen, events))
    decreases |events|
  {
    if events != [] {
      StepTogether(physical, seen, events[0]);
      FrameTogether(ApplyOne(physical, events[0]), ApplyOne(seen, events[0]), events[1..]);
    }
  }

  /** A destination that accepts the snapshot starts in step. */
  lemma OpenedInStep(d: Descriptor, t: Touch)
    requires d.Valid() && Readable(d, t) && d.AllowsFrame(SnapshotOf(t))
    ensures SlotsFit(SnapshotOf(t), d.Slots()) && InStep(t, Replay(New(d), SnapshotOf(t)))
  {
    hide Descriptor.Valid, Descriptor.AllowsFrame, Readable, Presentable, InShape, InStep, Rebuilt, Blanked;
    SnapshotAllowedWhen(d, t);
    BlankedInShape(d, t);
    BlankedSnapshot(t);
    SnapshotRebuilds(d, Blanked(t));
    RebuiltInStep(t);
  }

  lemma RebuiltInStep(t: Touch)
    ensures InStep(t, Rebuilt(Blanked(t)))
  {
  }

  function FramesOf(pending: seq<TouchFrame>, i: nat): seq<TouchEvent> {
    if pending == [] then []
    else
      var last := pending[|pending| - 1];
      FramesOf(pending[..|pending| - 1], i) + if last.pad == i then last.events else []
  }

  lemma FramesOfAppend(pending: seq<TouchFrame>, c: TouchFrame, i: nat)
    ensures FramesOf(pending + [c], i) == FramesOf(pending, i) + if c.pad == i then c.events else []
  {
    assert (pending + [c])[..|pending|] == pending;
  }

  /** The router, the paired computer's virtual pads, and the pads whose destination a snapshot opened. */
  datatype Sharing = Sharing(router: Router, far: seq<Touch>, live: set<nat>)

  /** One pad, the frames on their way to the paired computer, and its pad there. */
  ghost predicate InvPad(p: Pad, remote: bool, frames: seq<TouchEvent>, far: Touch, live: bool)
    requires SoundPad(p)
  {
    && |far.contacts| == p.descriptor.Slots() && far.Fits()
    && SlotsFit(frames, p.descriptor.Slots())
    && (remote || !p.grabbed ==> p.mirror == New(p.descriptor))
    && (!remote ==> far == New(p.descriptor) && frames == [])
    && (live ==> p.grabbed && if remote then InStep(p.state, Replay(far, frames)) else InStep(p.state, p.mirror))
  }

  ghost predicate InvAt(s: Sharing, i: nat)
    requires i < |s.far| == |s.router.pads|
  {
    && SoundPad(s.router.pads[i])
    && InvPad(s.router.pads[i], s.router.remote, FramesOf(s.router.pending, i), s.far[i], i in s.live)
  }

  ghost predicate Inv(s: Sharing) {
    && SoundRouter(s.router) && |s.far| == |s.router.pads|
    && (!s.router.remote ==> s.router.pending == [])
    && (forall i :: 0 <= i < |s.far| ==> InvAt(s, i))
    && forall i :: i in s.live ==> i < |s.far|
  }

  /** Everything that can happen to a shared stroke. */
  datatype Action =
    | DeviceReports(pad: nat, event: DeviceEvent, now: nat, writable: bool)
    | TakeOver(pad: nat, state: Touch)
    | SendQueued
    | RouteTo(remote: bool, now: nat, writable: bool)

  ghost predicate Possible(s: Sharing, a: Action) {
    && Inv(s)
    && (a.DeviceReports? || a.TakeOver? ==> a.pad < |s.router.pads|)
    && (a.TakeOver? ==> Readable(s.router.pads[a.pad].descriptor, a.state))
  }

  ghost function AfterSending(s: Sharing): (r: Sharing)
    requires Inv(s)
  {
    s.(router := s.router.(pending := []),
       far := seq(|s.far|, i requires 0 <= i < |s.far| =>
         assert InvAt(s, i); Replay(s.far[i], FramesOf(s.router.pending, i))))
  }

  ghost function Next(s: Sharing, a: Action): Outcome<Sharing>
    requires Possible(s, a)
  {
    match a
    case DeviceReports(i, e, now, writable) =>
      var router :- Feed(s.router, i, e, now, writable);
      Ok(s.(router := router))
    case TakeOver(i, state) => Ok(s.(router := Grab(s.router, i, state)))
    case SendQueued => Ok(AfterSending(s))
    case RouteTo(remote, now, writable) =>
      var routed :- Redirect(s.router, remote, now, writable);
      if s.router.remote == remote then Ok(s)
      else if !Accepted(s.router.pads, routed.1) then Failed
      else
        // Leaving the paired computer resets its pads; entering it delivers what opens them, if it accepts that.
        Ok(Sharing(routed.0,
                   seq(|s.far|, i requires 0 <= i < |s.far| =>
                     assert InvAt(s, i);
                     assert SoundPad(s.router.pads[i]);
                     Given(s.router.pads, routed.1, i)),
                   set i | 0 <= i < |s.far| && s.router.pads[i].grabbed))
  }

  /** The other side, whose pads have the same descriptors, accepts the frames. */
  ghost predicate Accepted(pads: seq<Pad>, frames: seq<TouchFrame>) {
    forall k :: 0 <= k < |frames| ==>
      frames[k].pad < |pads| && pads[frames[k].pad].descriptor.AllowsFrame(frames[k].events)
  }

  /** A fresh pad over there after it was given its frames. */
  ghost function Given(pads: seq<Pad>, frames: seq<TouchFrame>, i: nat): (t: Touch)
    requires i < |pads| && pads[i].descriptor.Valid() && Accepted(pads, frames)
    ensures InShape(pads[i].descriptor, t)
  {
    NewInShape(pads[i].descriptor);
    if frames == [] then New(pads[i].descriptor)
    else
      var last := frames[|frames| - 1];
      var before := Given(pads, frames[..|frames| - 1], i);
      if last.pad != i then before
      else AllowedReplay(pads[i].descriptor, before, last.events); Replay(before, last.events)
  }

  lemma GivenNext(pads: seq<Pad>, front: seq<TouchFrame>, f: TouchFrame, i: nat)
    requires i < |pads| && pads[i].descriptor.Valid() && Accepted(pads, front + [f])
    ensures Accepted(pads, front)
    ensures if f.pad != i then Given(pads, front + [f], i) == Given(pads, front, i)
            else pads[i].descriptor.AllowsFrame(f.events)
                 && var before := Given(pads, front, i);
                    SlotsFit(f.events, |before.contacts|) && Given(pads, front + [f], i) == Replay(before, f.events)
  {
    hide Descriptor.Valid, Descriptor.AllowsFrame;
    AcceptedFront(pads, front, front + [f]);
    assert (front + [f])[..|front|] == front && (front + [f])[|front|] == f;
    if f.pad == i {
      AllowedReplay(pads[i].descriptor, Given(pads, front, i), f.events);
    }
  }

  /** The frames that open the pads give each grabbed one its snapshot, and the others nothing. */
  lemma {:induction false} SnapshotsGive(pads: seq<Pad>, upTo: nat, now: nat, i: nat)
    requires upTo <= |pads| && i < |pads| && SoundPad(pads[i]) && Accepted(pads, Snapshots(pads, upTo, now))
    ensures var given := Given(pads, Snapshots(pads, upTo, now), i);
            if i < upTo && pads[i].grabbed then Shows(pads[i], given) else given == New(pads[i].descriptor)
    decreases upTo
  {
    hide Descriptor.Valid, Descriptor.AllowsFrame, SnapshotOf, Given, Accepted, Shows, Replay, Readable, InShape, New;
    if upTo == 0 {
      NothingGiven(pads, i);
    } else if pads[upTo - 1].grabbed {
      var front := Snapshots(pads, upTo - 1, now);
      GivenNext(pads, front, TouchFrame(upTo - 1, now, SnapshotOf(pads[upTo - 1].state)), i);
      SnapshotsGive(pads, upTo - 1, now, i);
      if i == upTo - 1 {
        SnapshotShows(pads[i]);
      }
    } else {
      SnapshotsGive(pads, upTo - 1, now, i);
    }
  }

  lemma NothingGiven(pads: seq<Pad>, i: nat)
    requires i < |pads| && pads[i].descriptor.Valid() && Accepted(pads, [])
    ensures Given(pads, [], i) == New(pads[i].descriptor)
  {
  }

  lemma SnapshotShows(p: Pad)
    requires SoundPad(p) && p.descriptor.AllowsFrame(SnapshotOf(p.state))
    ensures SlotsFit(SnapshotOf(p.state), |New(p.descriptor).contacts|)
    ensures Shows(p, Replay(New(p.descriptor), SnapshotOf(p.state)))
  {
    hide Descriptor.Valid, Descriptor.AllowsFrame, SnapshotOf, InStep;
    OpenedInStep(p.descriptor, p.state);
  }

  lemma AcceptedFront(pads: seq<Pad>, front: seq<TouchFrame>, all: seq<TouchFrame>)
    requires Accepted(pads, all) && front <= all
    ensures Accepted(pads, front)
  {
    forall k | 0 <= k < |front|
      ensures front[k].pad < |pads| && pads[front[k].pad].descriptor.AllowsFrame(front[k].events)
    {
      assert all[k] == front[k];
    }
  }

  /** The pad over there is in step with the fingers as recorded. */
  ghost predicate Shows(p: Pad, far: Touch) {
    far.Fits() && |far.contacts| == |p.state.contacts| && InStep(p.state, far)
  }

  lemma DeliveredRemotely(p: Pad, frames: seq<TouchEvent>, far: Touch, live: bool)
    requires SoundPad(p) && InvPad(p, true, frames, far, live) && p.descriptor.AllowsFrame(p.frame)
    ensures SlotsFit(p.frame, p.descriptor.Slots())
    ensures var q := p.(state := Replay(p.state, p.frame), frame := []);
            SoundPad(q) && InvPad(q, true, frames + p.frame, far, live)
  {
    ReadReplay(p.descriptor, p.state, p.frame);
    ApplyConcat(far, frames, p.frame);
    if live {
      FrameTogether(p.state, Replay(far, frames), p.frame);
    }
  }

  lemma DeliveredLocally(p: Pad, far: Touch, live: bool)
    requires SoundPad(p) && InvPad(p, false, [], far, live) && p.grabbed && p.descriptor.AllowsFrame(p.frame)
    ensures SlotsFit(p.frame, p.descriptor.Slots())
    ensures var q := p.(state := Replay(p.state, p.frame), mirror := Replay(p.mirror, p.frame), frame := []);
            SoundPad(q) && InvPad(q, false, [], far, live)
  {
    ReadReplay(p.descriptor, p.state, p.frame);
    AllowedReplay(p.descriptor, p.mirror, p.frame);
    if live {
      FrameTogether(p.state, p.mirror, p.frame);
    }
  }

  lemma DeliverKeeps(s: Sharing, i: nat, time: nat, now: nat, writable: bool)
    requires Inv(s) && i < |s.far| && s.router.pads[i].grabbed
    ensures var out := Deliver(s.router, i, time, now, writable);
            out.Ok? ==> Inv(s.(router := out.value))
  {
    var out := Deliver(s.router, i, time, now, writable);
    if out.Ok? {
      var p := s.router.pads[i];
      var s' := s.(router := out.value);
      assert InvAt(s, i);
      if s.router.remote {
        DeliveredRemotely(p, FramesOf(s.router.pending, i), s.far[i], i in s.live);
      } else {
        DeliveredLocally(p, s.far[i], i in s.live);
      }
      forall j | 0 <= j < |s.far| ensures InvAt(s', j) {
        assert InvAt(s, j);
        if s.router.remote {
          FramesOfAppend(s.router.pending, TouchFrame(i, time, p.frame), j);
          if j != i {
            assert FramesOf(s'.router.pending, j) == FramesOf(s.router.pending, j);
          }
        }
      }
    }
  }

  lemma OnePadChanged(s: Sharing, i: nat, q: Pad)
    requires Inv(s) && i < |s.far| && SoundPad(q)
    requires InvPad(q, s.router.remote, FramesOf(s.router.pending, i), s.far[i], i in s.live)
    ensures Inv(s.(router := s.router.(pads := s.router.pads[i := q])))
  {
    var s' := s.(router := s.router.(pads := s.router.pads[i := q]));
    forall j | 0 <= j < |s.far| ensures InvAt(s', j) && SoundPad(s'.router.pads[j]) {
      assert InvAt(s, j);
    }
  }

  lemma PushKeeps(s: Sharing, i: nat, e: TouchEvent)
    requires Inv(s) && i < |s.far|
    ensures Push(s.router, i, e).Ok? ==> Inv(s.(router := Push(s.router, i, e).value))
  {
    assert InvAt(s, i);
    OnePadChanged(s, i, s.router.pads[i].(frame := s.router.pads[i].frame + [e]));
  }

  lemma FeedKeeps(s: Sharing, i: nat, e: DeviceEvent, now: nat, writable: bool)
    requires Inv(s) && i < |s.far|
    ensures var out := Feed(s.router, i, e, now, writable);
            out.Ok? ==> Inv(s.(router := out.value))
  {
    if s.router.pads[i].grabbed {
      match e
      case Lost =>
      case Report(time) =>
        if s.router.pads[i].frame != [] {
          DeliverKeeps(s, i, time, now, writable);
        }
      case DeviceKey(code, value) => PushKeeps(s, i, TouchEvent(Key, code, value));
      case DeviceAxis(code, value) => PushKeeps(s, i, TouchEvent(Absolute, code, value));
      case Unrelated =>
    }
  }

  lemma GrabKeeps(s: Sharing, i: nat, state: Touch)
    requires Inv(s) && i < |s.far| && Readable(s.router.pads[i].descriptor, state)
    ensures Inv(s.(router := Grab(s.router, i, state)))
  {
    assert InvAt(s, i);
    var p := s.router.pads[i];
    if !p.grabbed && Idle(state) {
      OnePadChanged(s, i, p.(state := state, grabbed := true));
    }
  }

  lemma SendKeeps(s: Sharing)
    requires Inv(s)
    ensures Inv(AfterSending(s))
  {
    forall j | 0 <= j < |s.far| ensures InvAt(AfterSending(s), j) {
      assert InvAt(s, j);
    }
  }

  lemma SwitchedPad(p: Pad, remote: bool, writable: bool, frames: seq<TouchEvent>, far: Touch, live: bool, next: Touch)
    requires SoundPad(p) && InvPad(p, !remote, frames, far, live) && Switch(p, remote, writable).Ok?
    requires if remote && p.grabbed then Shows(p, next) else next == New(p.descriptor)
    ensures var q := Switch(p, remote, writable).value; SoundPad(q) && InvPad(q, remote, [], next, p.grabbed)
  {
    if p.grabbed && !remote {
      OpenedInStep(p.descriptor, p.state);
    }
  }

  lemma RouteKeeps(s: Sharing, remote: bool, now: nat, writable: bool)
    requires Inv(s) && s.router.remote != remote
    ensures Next(s, RouteTo(remote, now, writable)).Ok? ==> Inv(Next(s, RouteTo(remote, now, writable)).value)
  {
    hide SoundPad, Shows, Switch, InvPad, Accepted, Given, Snapshots;
    var next := Next(s, RouteTo(remote, now, writable));
    if next.Ok? {
      forall j | 0 <= j < |s.far| ensures InvAt(next.value, j) {
        assert InvAt(s, j);
        GivenAtRoute(s.router.pads, remote, now, j);
        SwitchedPad(s.router.pads[j], remote, writable, FramesOf(s.router.pending, j), s.far[j], j in s.live,
                    next.value.far[j]);
      }
    }
  }

  lemma GivenAtRoute(pads: seq<Pad>, remote: bool, now: nat, i: nat)
    requires i < |pads| && SoundPad(pads[i]) && Accepted(pads, if remote then Snapshots(pads, |pads|, now) else [])
    ensures var given := Given(pads, if remote then Snapshots(pads, |pads|, now) else [], i);
            if remote && pads[i].grabbed then Shows(pads[i], given) else given == New(pads[i].descriptor)
  {
    hide Descriptor.Valid, Readable, InShape, Snapshots;
    if remote {
      SnapshotsGive(pads, |pads|, now, i);
    }
  }

  /** Every single action keeps every opened destination in step and every other one blank. */
  lemma NextKeeps(s: Sharing, a: Action)
    requires Possible(s, a)
    ensures Next(s, a).Ok? ==> Inv(Next(s, a).value)
  {
    match a
    case DeviceReports(i, e, now, writable) => FeedKeeps(s, i, e, now, writable);
    case TakeOver(i, state) => GrabKeeps(s, i, state);
    case SendQueued => SendKeeps(s);
    case RouteTo(remote, now, writable) =>
      if s.router.remote != remote {
        RouteKeeps(s, remote, now, writable);
      }
  }

  /** `s` is reached from `start` by the actions; a failed action ends sharing and reaches nothing. */
  ghost predicate Reaches(start: Sharing, actions: seq<Action>, s: Sharing)
    decreases |actions|
  {
    if actions == [] then s == start
    else Possible(start, actions[0]) && Next(start, actions[0]).Ok?
         && Reaches(Next(start, actions[0]).value, actions[1..], s)
  }

  ghost predicate Starts(s: Sharing) {
    && SoundRouter(s.router) && |s.far| == |s.router.pads|
    && !s.router.remote && s.router.pending == [] && s.live == {}
    && forall i :: 0 <= i < |s.far| ==>
         var p := s.router.pads[i];
         !p.grabbed && p.mirror == New(p.descriptor) && s.far[i] == New(p.descriptor)
  }

  /** From the snapshot that opens it, a destination follows the recorded state through any frames and route
      switches, while the other destination stays blank. Queued frames count as on their way. */
  lemma {:induction false} DestinationsFollow(start: Sharing, actions: seq<Action>, s: Sharing, i: nat)
    requires Starts(start) || Inv(start)
    requires Reaches(start, actions, s) && i in s.live
    ensures i < |s.far| == |s.router.pads| && SoundRouter(s.router) && s.router.pads[i].grabbed
    ensures s.router.remote ==>
              && SlotsFit(FramesOf(s.router.pending, i), |s.far[i].contacts|) && s.far[i].Fits()
              && InStep(s.router.pads[i].state, Replay(s.far[i], FramesOf(s.router.pending, i)))
              && Idle(s.router.pads[i].mirror)
    ensures !s.router.remote ==> InStep(s.router.pads[i].state, s.router.pads[i].mirror) && Idle(s.far[i])
    decreases |actions|
  {
    if Starts(start) {
      forall j | 0 <= j < |start.far| ensures InvAt(start, j) {}
    }
    if actions == [] {
      assert InvAt(s, i);
    } else {
      NextKeeps(start, actions[0]);
      DestinationsFollow(Next(start, actions[0]).value, actions[1..], s, i);
    }
  }

  // ---- The router itself ----

  class TouchRouter {
    var pads: seq<Pad>
    var remote: bool
    var pending: seq<TouchFrame>

    function View(): Router
      reads this
    {
      Router(pads, remote, pending)
    }

    /** Empties one pad's device queue; a report goes to the mirror or to the forwarding queue. */
    method Sample(i: nat, found: Found, now: nat, writable: bool) returns (ok: bool)
      requires SoundRouter(View()) && i < |pads| && ReadFrom(pads[i], found)
      modifies this
      ensures ok ==> SamplePad(old(View()), i, found, now, writable) == Ok(View())
      ensures !ok ==> SamplePad(old(View()), i, found, now, writable).Failed?
    {
      ok := FeedPad(i, found.events, now, writable);
      if ok && found.acquired.Some? && !pads[i].grabbed && Idle(found.acquired.value) {
        pads := pads[i := pads[i].(state := found.acquired.value, grabbed := true)];
      }
    }

    method FeedPad(i: nat, events: seq<DeviceEvent>, now: nat, writable: bool) returns (ok: bool)
      requires SoundRouter(View()) && i < |pads|
      modifies this
      ensures ok ==> FeedAll(old(View()), i, events, now, writable) == Ok(View())
      ensures !ok ==> FeedAll(old(View()), i, events, now, writable).Failed?
    {
      hide SoundPad, Feed;
      ghost var start := View();
      for k := 0 to |events|
        invariant |pads| == |start.pads|
        invariant FeedAll(start, i, events[..k], now, writable) == Ok(View())
      {
        assert events[..k + 1][..k] == events[..k];
        var fed := TakeEvent(i, events[k], now, writable);
        if !fed {
          FeedFails(start, i, events, k + 1, now, writable);
          return false;
        }
      }
      assert events[..|events|] == events;
      return true;
    }

    /** One event: keys and axes build up the frame, a report delivers it, a loss ends sharing. */
    method TakeEvent(i: nat, e: DeviceEvent, now: nat, writable: bool) returns (ok: bool)
      requires SoundRouter(View()) && i < |pads|
      modifies this
      ensures ok ==> Feed(old(View()), i, e, now, writable) == Ok(View())
      ensures !ok ==> Feed(old(View()), i, e, now, writable).Failed?
    {
      hide SoundPad, Deliver;
      if !pads[i].grabbed {
        return true;
      }
      match e
      case Lost => return false;
      case Report(time) =>
        ok := true;
        if pads[i].frame != [] {
          ok := DeliverFrame(i, time, now, writable);
        }
      case DeviceKey(code, value) =>
        ok := true;
        if TouchKey(code) && value != 2 {
          ok := PushEvent(i, TouchEvent(Key, code, value));
        }
      case DeviceAxis(code, value) =>
        ok := true;
        if TouchAxis(code) {
          ok := PushEvent(i, TouchEvent(Absolute, code, value));
        }
      case Unrelated => return true;
    }

    method PushEvent(i: nat, e: TouchEvent) returns (ok: bool)
      requires SoundRouter(View()) && i < |pads|
      modifies this`pads
      ensures ok ==> Push(old(View()), i, e) == Ok(View())
      ensures !ok ==> Push(old(View()), i, e).Failed?
    {
      hide SoundPad;
      var frame := pads[i].frame + [e];
      if |frame| > MAX_FRAME {
        return false;
      }
      pads := pads[i := pads[i].(frame := frame)];
      return true;
    }

    /** The frame is taken, checked and applied; then it is queued for the paired computer or written to the mirror. */
    method DeliverFrame(i: nat, time: nat, now: nat, writable: bool) returns (ok: bool)
      requires SoundRouter(View()) && i < |pads|
      modifies this`pads, this`pending
      ensures ok ==> Deliver(old(View()), i, time, now, writable) == Ok(View())
      ensures !ok ==> Deliver(old(View()), i, time, now, writable).Failed?
    {
      if |pending| >= QUEUE_LIMIT {
        return false;
      }
      var frame := pads[i].frame;
      if !pads[i].descriptor.AllowsFrame(frame) {
        return false;
      }
      ReadReplay(pads[i].descriptor, pads[i].state, frame);
      hide Descriptor.Valid, Descriptor.AllowsFrame, Readable, InShape, Replay;
      var q := pads[i].(state := Replay(pads[i].state, frame), frame := []);
      if remote {
        pads := pads[i := q];
        pending := pending + [TouchFrame(i, time, frame)];
        return true;
      }
      var written := WriteFrame(q, frame, time, now, writable);
      if written.Failed? {
        return false;
      }
      pads := pads[i := written.value];
      return true;
    }

    /** Writing to the mirror: the frame is checked again, must not be too old, and the mirror follows it. */
    static method WriteFrame(p: Pad, events: seq<TouchEvent>, time: nat, now: nat, writable: bool)
      returns (r: Outcome<Pad>)
      requires SoundPad(p)
      ensures r == EmitAt(p, events, time, now, writable)
    {
      if !p.descriptor.AllowsFrame(events) || time > now || now - time > MAX_DELAY || !writable {
        return Failed;
      }
      AllowedReplay(p.descriptor, p.mirror, events);
      return Ok(p.(mirror := Replay(p.mirror, events), written := p.written + events));
    }

    /** Redirects every grabbed pad; returns the snapshots that open the paired computer's pads. */
    method Route(remote: bool, now: nat, writable: bool) returns (r: Outcome<seq<TouchFrame>>)
      requires SoundRouter(View())
      modifies this
      ensures r.Ok? ==> Redirect(old(View()), remote, now, writable) == Ok((View(), r.value))
      ensures r.Failed? ==> Redirect(old(View()), remote, now, writable).Failed?
    {
      if this.remote == remote {
        return Ok([]);
      }
      ghost var start := View();
      var switched, snapshots := SwitchEach(pads, remote, now, writable);
      if switched.Failed? {
        return Failed;
      }
      AllSwitched(start, switched.value, remote, now, writable);
      pads, this.remote, pending := switched.value, remote, [];
      return Ok(snapshots);
    }

    static method SwitchEach(pads: seq<Pad>, remote: bool, now: nat, writable: bool)
      returns (r: Outcome<seq<Pad>>, snapshots: seq<TouchFrame>)
      requires forall i :: 0 <= i < |pads| ==> SoundPad(pads[i])
      ensures r.Failed? ==> !CanSwitch(pads, remote, writable)
      ensures r.Ok? ==> |r.value| == |pads|
                        && (forall i :: 0 <= i < |pads| ==> Switched(pads[i], r.value[i], remote, writable))
                        && snapshots == if remote then Snapshots(pads, |pads|, now) else []
    {
      hide SoundPad, Switch;
      var after: seq<Pad> := [];
      snapshots := [];
      for i := 0 to |pads|
        invariant |after| == i
        invariant forall k :: 0 <= k < i ==> Switched(pads[k], after[k], remote, writable)
        invariant snapshots == if remote then Snapshots(pads, i, now) else []
      {
        var switched := SwitchPad(pads[i], remote, writable);
        if switched.Failed? {
          return Failed, [];
        }
        after := after + [switched.value];
        if remote && pads[i].grabbed {
          snapshots := snapshots + [TouchFrame(i, now, SnapshotOf(pads[i].state))];
        }
      }
      return Ok(after), snapshots;
    }

    /** One pad: reset the mirror when leaving for the paired computer, replay the stroke when coming back. */
    static method SwitchPad(p: Pad, remote: bool, writable: bool) returns (r: Outcome<Pad>)
      requires SoundPad(p)
      ensures r == Switch(p, remote, writable)
      ensures r.Ok? ==> Switched(p, r.value, remote, writable)
    {
      if !p.grabbed {
        return Ok(p);
      }
      if remote {
        r := WriteFrame(p, ReleasesOf(p.mirror), 0, 0, writable);
        if r.Ok? {
          NewInShape(p.descriptor);
          r := Ok(r.value.(mirror := New(p.descriptor)));
        }
      } else {
        r := WriteFrame(p, SnapshotOf(p.state), 0, 0, writable);
      }
    }

    /** Hands the queued frames over for sending. */
    method Drain() returns (frames: seq<TouchFrame>)
      modifies this`pending
      ensures frames == old(pending) && pending == []
    {
      frames := pending;
      pending := [];
    }
  }

  lemma {:induction false} FeedFails(r: Router, i: nat, events: seq<DeviceEvent>, k: nat, now: nat, writable: bool)
    requires SoundRouter(r) && i < |r.pads| && k <= |events|
    requires FeedAll(r, i, events[..k], now, writable).Failed?
    ensures FeedAll(r, i, events, now, writable).Failed?
    decreases |events| - k
  {
    if k == |events| {
      assert events[..k] == events;
    } else {
      assert events[..k + 1][..k] == events[..k];
      FeedFails(r, i, events, k + 1, now, writable);
    }
  }
}
