// One stroke as the hardware makes it: the router records it exactly, and the destination shows it (Router::sample and
// route in src/touchpad.rs).
module Strokes {
  import opened Protocol
  import opened Routing
  import opened Touchpad

  /** What an event of the device means for the fingers and buttons on it: a touch key goes down on 1, goes up on 0 and
      stays on anything else, an axis takes its value, and those behind the slot belong to the contact of that slot. */
  function Moved(t: Touch, e: DeviceEvent): Touch {
    match e
    case DeviceKey(code, value) =>
      if !TouchKey(code) then t
      else if value == 1 then t.(keys := t.keys + {code})
      else if value == 0 then t.(keys := t.keys - {code})
      else t
    case DeviceAxis(code, value) =>
      if !TouchAxis(code) then t
      else if code < SLOT then t.(axes := t.axes[code := value])
      else if code == SLOT then t.(slot := value)
      else if 0 <= t.slot < |t.contacts| then t.(contacts := t.contacts[t.slot := t.contacts[t.slot][code := value]])
      else t
    case _ => t
  }

  /** A shared stroke with the hardware behind it: for every pad what the fingers do, what they did at its last report,
      all the reports so far by pad and time, how much its mirror had been given when it was last left for the paired
      computer, and what the fingers do, unseen, when events of the device are lost. */
  datatype Stroke = Stroke(sharing: Sharing, fingers: seq<Touch>, reported: seq<Touch>, reports: set<(nat, nat)>,
                           since: seq<nat>, unseen: seq<Touch>) {
    ghost predicate Fits() {
      |fingers| == |reported| == |since| == |unseen| == |sharing.router.pads|
    }
  }

  /** How much the mirrors have been given. */
  function Amounts(pads: seq<Pad>): seq<nat> {
    seq(|pads|, i requires 0 <= i < |pads| => |pads[i].written|)
  }

  /** Reading a pad that is not grabbed yields what its fingers do. */
  ghost predicate Can(st: Stroke, a: Action) {
    && st.Fits() && Possible(st.sharing, a)
    && (a.TakeOver? ==> !st.sharing.router.pads[a.pad].grabbed && a.state == st.fingers[a.pad])
  }

  /** The hardware moves by itself, and the router handles what it is told. */
  ghost function Then(st: Stroke, a: Action): Outcome<Stroke>
    requires Can(st, a)
  {
    var sharing :- Routing.Next(st.sharing, a);
    match a
    case DeviceReports(i, Report(time), _, _) =>
      Ok(st.(sharing := sharing, reported := st.reported[i := st.fingers[i]], reports := st.reports + {(i, time)}))
    case DeviceReports(i, Lost, _, _) => Ok(st.(sharing := sharing, fingers := st.fingers[i := st.unseen[i]]))
    case DeviceReports(i, e, _, _) =>
      Ok(st.(sharing := sharing, fingers := st.fingers[i := Moved(st.fingers[i], e)]))
    case TakeOver(i, _) => Ok(st.(sharing := sharing, reported := st.reported[i := st.fingers[i]]))
    case RouteTo(_, _, _) =>
      var leaves := sharing.router.remote && !st.sharing.router.remote;
      Ok(st.(sharing := sharing, since := if leaves then Amounts(sharing.router.pads) else st.since))
    case SendQueued => Ok(st.(sharing := sharing))
  }

  // ---- The record ----

  /** A grabbed pad's recorded state is what the fingers did at the last report, and the frame that is building up leads
      from there to what they do now, if the device's own description allows it. */
  ghost predicate RecordsPad(p: Pad, fingers: Touch, reported: Touch) {
    if !p.grabbed then p.frame == []
    else
      && p.state == reported && (p.frame == [] ==> fingers == p.state)
      && (p.descriptor.AllowsFrame(p.frame) ==>
            p.state.Fits() && SlotsFit(p.frame, |p.state.contacts|) && fingers == Replay(p.state, p.frame))
  }

  /** What the readers of the mirror see: all that its virtual device was given. */
  ghost function Seen(p: Pad): Touch
    requires p.descriptor.Valid() && SlotsFit(p.written, p.descriptor.Slots())
  {
    Replay(New(p.descriptor), p.written)
  }

  /** What the mirror was told since then, and nothing of what it had been told before. */
  ghost function Told(p: Pad, since: nat): Touch
    requires p.descriptor.Valid() && SlotsFit(p.written, p.descriptor.Slots()) && since <= |p.written|
  {
    Replay(New(p.descriptor), p.written[since..])
  }

  /** The record of the mirror is what it was told since it was last left, and its readers see that; while the stroke is
      the paired computer's, they see nothing. */
  ghost predicate Displays(p: Pad, since: nat, remote: bool) {
    && p.descriptor.Valid() && SlotsFit(p.written, p.descriptor.Slots()) && since <= |p.written|
    && InShape(p.descriptor, Seen(p)) && p.mirror == Told(p, since)
    && if remote && p.grabbed then Idle(Seen(p)) else InStep(Seen(p), p.mirror)
  }

  ghost predicate RecordsAt(st: Stroke, i: nat)
    requires st.Fits() && i < |st.fingers|
  {
    && RecordsPad(st.sharing.router.pads[i], st.fingers[i], st.reported[i])
    && Displays(st.sharing.router.pads[i], st.since[i], st.sharing.router.remote)
  }

  /** A frame that is written is seen as well as recorded. */
  lemma WriteDisplays(p: Pad, since: nat, remote: bool, events: seq<TouchEvent>, time: nat, now: nat, writable: bool)
    requires SoundPad(p) && Displays(p, since, remote) && InStep(Seen(p), p.mirror)
    requires EmitAt(p, events, time, now, writable).Ok?
    ensures var q := EmitAt(p, events, time, now, writable).value;
            Displays(q, since, false) && InStep(Seen(q), q.mirror)
  {
    hide Descriptor.Valid, Descriptor.AllowsFrame, Readable, InStep;
    WrittenTogether(p, events);
    WrittenSince(p, since, events);
    FrameTogether(Seen(p), p.mirror, events);
  }

  lemma WrittenTogether(p: Pad, events: seq<TouchEvent>)
    requires p.descriptor.Valid() && SlotsFit(p.written, p.descriptor.Slots()) && InShape(p.descriptor, Seen(p))
    requires p.descriptor.AllowsFrame(events)
    ensures var q := p.(written := p.written + events);
            && SlotsFit(events, p.descriptor.Slots()) && SlotsFit(q.written, p.descriptor.Slots())
            && Seen(q) == Replay(Seen(p), events) && InShape(p.descriptor, Seen(q))
  {
    hide Descriptor.Valid, Descriptor.AllowsFrame;
    AllowedReplay(p.descriptor, Seen(p), events);
    ApplyConcat(New(p.descriptor), p.written, events);
  }

  lemma WrittenSince(p: Pad, since: nat, events: seq<TouchEvent>)
    requires p.descriptor.Valid() && SlotsFit(p.written, p.descriptor.Slots()) && since <= |p.written|
    requires SlotsFit(events, p.descriptor.Slots())
    ensures var q := p.(written := p.written + events);
            SlotsFit(q.written, p.descriptor.Slots()) && Told(q, since) == Replay(Told(p, since), events)
  {
    hide Descriptor.Valid;
    assert (p.written + events)[since..] == p.written[since..] + events;
    ApplyConcat(New(p.descriptor), p.written[since..], events);
  }

  /** Leaving for the paired computer lifts everything that the readers see. */
  lemma ResetDisplays(p: Pad, since: nat, writable: bool)
    requires SoundPad(p) && p.grabbed && Displays(p, since, false) && Reset(p, writable).Ok?
    ensures var q := Reset(p, writable).value; Displays(q, |q.written|, true)
  {
    hide Descriptor.Valid, Descriptor.AllowsFrame, Readable, InStep, ReleasesOf;
    var lifted := EmitAt(p, ReleasesOf(p.mirror), 0, 0, writable).value;
    WriteDisplays(p, since, false, ReleasesOf(p.mirror), 0, 0, writable);
    ReleasesLift(p.descriptor, p.mirror);
    IdleTogether(Seen(lifted), lifted.mirror);
    var q := Reset(p, writable).value;
    assert q.written[|q.written|..] == [];
    BlankInStep(q);
  }

  lemma IdleTogether(seen: Touch, told: Touch)
    requires InStep(seen, told)
    ensures Idle(seen) <==> Idle(told)
  {
    if Idle(seen) {
      forall i | 0 <= i < |told.contacts| ensures !Active(told.contacts[i]) {
        assert SameContact(seen.contacts[i], told.contacts[i]);
      }
    }
    if Idle(told) {
      forall i | 0 <= i < |seen.contacts| ensures !Active(seen.contacts[i]) {
        assert SameContact(seen.contacts[i], told.contacts[i]);
      }
    }
  }

  /** Coming back shows the stroke as it is, whatever the readers remember of earlier ones. */
  lemma ReopenDisplays(p: Pad, since: nat, writable: bool)
    requires SoundPad(p) && p.grabbed && Displays(p, since, true) && p.mirror == New(p.descriptor)
    requires EmitAt(p, SnapshotOf(p.state), 0, 0, writable).Ok?
    ensures Displays(EmitAt(p, SnapshotOf(p.state), 0, 0, writable).value, since, false)
  {
    hide Descriptor.Valid, Descriptor.AllowsFrame, Readable, InStep, SnapshotOf, Idle;
    var events := SnapshotOf(p.state);
    WrittenTogether(p, events);
    WrittenSince(p, since, events);
    SnapshotShown(p.descriptor, p.state, Seen(p));
  }

  lemma SnapshotShown(d: Descriptor, t: Touch, held: Touch)
    requires d.Valid() && Readable(d, t) && d.AllowsFrame(SnapshotOf(t)) && InShape(d, held) && Idle(held)
    ensures SlotsFit(SnapshotOf(t), d.Slots())
    ensures InStep(Replay(held, SnapshotOf(t)), Replay(New(d), SnapshotOf(t)))
  {
    hide Descriptor.Valid, Descriptor.AllowsFrame, Readable, Presentable, Rebuilt, SnapshotOf, Encodable, TakenOver;
    SnapshotAllowedWhen(d, t);
    BlankedInShape(d, t);
    BlankedSnapshot(t);
    SnapshotRebuilds(d, Blanked(t));
    ShapeIsEncodable(d, Blanked(t));
    SnapshotOnto(held, Blanked(t));
    OntoInStep(held, Blanked(t));
  }

  /** A snapshot on a device on which nothing is down. */
  lemma SnapshotOnto(held: Touch, t: Touch)
    requires Encodable(t) && held.Fits() && |held.contacts| == |t.contacts| && held.keys == {}
    requires held.axes.Keys <= t.axes.Keys
    ensures SlotsFit(SnapshotOf(t), |t.contacts|)
    ensures Replay(held, SnapshotOf(t)) == t.(contacts := TakenOver(held.contacts, t.contacts, |t.contacts|))
  {
    hide Encodable, TakenOver;
    var frames := ContactFrames(t.contacts, |t.contacts|);
    var value := if TOUCH in t.keys then 1 else 0;
    var t1 := ApplyOne(held, TouchEvent(Key, TOUCH, value));
    ApplyContactFrames(t1, t, |t.contacts|);
    ApplySnapshotTail(Replay(t1, frames), t);
    ApplyConcat(t1, frames, SnapshotTail(t));
    ApplyTouch(held, value, frames + SnapshotTail(t));
  }

  lemma OntoInStep(held: Touch, t: Touch)
    requires |held.contacts| == |t.contacts| && forall i :: 0 <= i < |held.contacts| ==> !Active(held.contacts[i])
    ensures InStep(t.(contacts := TakenOver(held.contacts, t.contacts, |t.contacts|)), Rebuilt(t))
  {
  }

  /** What the readers remember of a slot fits what is known of the contact: of a slot without a finger everything, of
      one with a finger at least which coordinates there are. */
  ghost predicate Remembers(physical: Contact, held: Contact) {
    forall c :: c in held && c != TRACKING ==> c in physical && (!Active(physical) ==> physical[c] == held[c])
  }

  /** Coming back, the readers see the fingers in full exactly when what they remember fits: the snapshot says nothing
      of slots without a finger. */
  lemma ReadersSeeAllExactlyWhen(d: Descriptor, t: Touch, held: Touch)
    requires d.Valid() && Readable(d, t) && d.AllowsFrame(SnapshotOf(t)) && InShape(d, held) && Idle(held)
    ensures SlotsFit(SnapshotOf(t), d.Slots())
    ensures InStep(t, Replay(held, SnapshotOf(t)))
       <==> forall i :: 0 <= i < |t.contacts| ==> Remembers(t.contacts[i], held.contacts[i])
  {
    hide Descriptor.Valid, Descriptor.AllowsFrame, Presentable, Rebuilt, SnapshotOf, Encodable, TakenOver, Blanked;
    SnapshotAllowedWhen(d, t);
    BlankedInShape(d, t);
    BlankedSnapshot(t);
    ShapeIsEncodable(d, Blanked(t));
    SnapshotOnto(held, Blanked(t));
    RemembersAll(t, held);
  }

  lemma RemembersAll(t: Touch, held: Touch)
    requires |held.contacts| == |t.contacts| && forall i :: 0 <= i < |held.contacts| ==> !Active(held.contacts[i])
    ensures InStep(t, Blanked(t).(contacts := TakenOver(held.contacts, Blanked(t).contacts, |t.contacts|)))
       <==> forall i :: 0 <= i < |t.contacts| ==> Remembers(t.contacts[i], held.contacts[i])
  {
    var seen := TakenOver(held.contacts, Blanked(t).contacts, |t.contacts|);
    forall i | 0 <= i < |t.contacts|
      ensures SameContact(t.contacts[i], seen[i]) <==> Remembers(t.contacts[i], held.contacts[i])
    {
      assert seen[i] == if Active(t.contacts[i]) then held.contacts[i] + t.contacts[i] else held.contacts[i];
    }
  }

  lemma ShapeReads(d: Descriptor, t: Touch)
    requires d.Valid() && InShape(d, t)
    ensures Readable(d, t)
  {
    forall i, c | 0 <= i < |t.contacts| && c in t.contacts[i] ensures c in d.ContactCodes() {
      assert ContactInShape(d, t.contacts[i]);
      assert Find(d.axes, c).value in d.axes;
    }
  }

  /** A device without fingers on which the first coordinate of its one slot was last there. */
  ghost function Rested(v: int): Touch
    requires OFFSET.Valid()
  {
    New(OFFSET).(contacts := [map[TRACKING := -1, 53 := v]])
  }

  lemma RestedInShape(v: int)
    requires 1 <= v <= 10
    ensures OFFSET.Valid() && OFFSET.Slots() == 1 && InShape(OFFSET, Rested(v)) && Idle(Rested(v))
  {
    hide Descriptor.Valid, Descriptor.Slots, New, ContactInShape, Find;
    OffsetIsValid();
    NewInShape(OFFSET);
    RestedContact(v);
    assert OFFSET.Slots() == 1;
  }

  lemma RestedContact(v: int)
    requires 1 <= v <= 10
    ensures OFFSET.Valid() && OFFSET.Slots() == 1 && ContactInShape(OFFSET, map[TRACKING := -1, 53 := v])
  {
    hide Descriptor.Valid, Find;
    OffsetIsValid();
    FindOffset(2);
    FindOffset(3);
    FindOffset(5);
  }

  lemma FindOffset(i: nat)
    requires i < |OFFSET.axes|
    ensures Find(OFFSET.axes, OFFSET.axes[i].code) == Some(OFFSET.axes[i])
  {
    OffsetIsValid();
    FindUnique(OFFSET, OFFSET.axes[i]);
  }

  /** And that may fail: readers who saw the first coordinate of a slot at 5, and whose finger has since left it at 9
      while the stroke was the paired computer's, still believe in 5. */
  lemma ReadersMayBeStale()
    ensures OFFSET.Valid() && InShape(OFFSET, Rested(5)) && Idle(Rested(5))
    ensures OFFSET.AllowsFrame(SnapshotOf(Rested(9))) && SlotsFit(SnapshotOf(Rested(9)), OFFSET.Slots())
    ensures !InStep(Rested(9), Replay(Rested(5), SnapshotOf(Rested(9))))
  {
    hide Descriptor.Valid, Descriptor.AllowsFrame, SnapshotOf, InStep, InShape, Idle, Replay, Readable, New;
    RestedInShape(5);
    RestedInShape(9);
    SnapshotAllowed(OFFSET, Rested(9));
    ShapeReads(OFFSET, Rested(9));
    RestedDiffer();
    ReadersSeeAllExactlyWhen(OFFSET, Rested(9), Rested(5));
  }

  lemma RestedDiffer()
    requires OFFSET.Valid()
    ensures |Rested(9).contacts| == 1 && !Remembers(Rested(9).contacts[0], Rested(5).contacts[0])
  {
    hide Descriptor.Valid, New;
    assert 53 in Rested(5).contacts[0];
  }

  lemma BlankInStep(q: Pad)
    requires q.descriptor.Valid()
    ensures Idle(New(q.descriptor)) && Replay(New(q.descriptor), []) == New(q.descriptor)
  {
  }

  ghost predicate Records(st: Stroke) {
    && st.Fits() && Inv(st.sharing)
    && (forall i: nat :: i < |st.fingers| ==> RecordsAt(st, i))
    && forall f :: f in st.sharing.router.pending ==> (f.pad, f.time) in st.reports
  }

  /** One more event in the frame: still allowed only if the frame was, and then both sides move alike. */
  lemma PushRecords(p: Pad, fingers: Touch, reported: Touch, raw: DeviceEvent, e: TouchEvent)
    requires SoundPad(p) && p.grabbed && RecordsPad(p, fingers, reported)
    requires (raw == DeviceKey(e.code, e.value) && e.kind == Key && TouchKey(e.code))
             || (raw == DeviceAxis(e.code, e.value) && e.kind == Absolute && TouchAxis(e.code))
    ensures RecordsPad(p.(frame := p.frame + [e]), Moved(fingers, raw), reported)
  {
    hide Descriptor.Valid, InShape;
    var frame := p.frame + [e];
    if p.descriptor.AllowsFrame(frame) {
      FramePrefix(p.descriptor, p.frame, e);
      ReadReplay(p.descriptor, p.state, frame);
      SlotsOfPrefix(p.frame, e, |p.state.contacts|);
      ApplyConcat(p.state, p.frame, [e]);
      var before := Replay(p.state, p.frame);
      assert [e][1..] == [];
      assert Replay(before, [e]) == ApplyOne(before, e);
      assert before == fingers by {
        if p.frame == [] {
          assert before == p.state;
        }
      }
      assert frame[|p.frame|] == e;
      MovesAlike(before, raw, e);
    }
  }

  lemma MovesAlike(t: Touch, raw: DeviceEvent, e: TouchEvent)
    requires t.Fits() && SlotFits(e, |t.contacts|) && ValidTouchEvent(e)
    requires (raw == DeviceKey(e.code, e.value) && e.kind == Key)
             || (raw == DeviceAxis(e.code, e.value) && e.kind == Absolute)
    ensures ApplyOne(t, e) == Moved(t, raw)
  {
  }

  lemma FramePrefix(d: Descriptor, frame: seq<TouchEvent>, e: TouchEvent)
    requires d.AllowsFrame(frame + [e])
    ensures (frame == [] || d.AllowsFrame(frame)) && ValidTouchEvent(e)
  {
    var all := frame + [e];
    assert all[|frame|] == e;
    forall i | 0 <= i < |frame| ensures d.Allows(frame[i]) && ValidTouchEvent(frame[i]) {
      assert all[i] == frame[i];
    }
  }

  lemma SlotsOfPrefix(frame: seq<TouchEvent>, e: TouchEvent, slots: nat)
    requires SlotsFit(frame + [e], slots)
    ensures SlotsFit(frame, slots) && SlotFits(e, slots) && SlotsFit([e], slots)
  {
    var all := frame + [e];
    assert all[|frame|] == e;
    forall i | 0 <= i < |frame| ensures SlotFits(frame[i], slots) {
      assert all[i] == frame[i];
    }
  }

  /** What an accepted report makes of a grabbed pad and of the queue. */
  lemma ReportDone(s: Sharing, i: nat, time: nat, now: nat, writable: bool)
    requires Inv(s) && i < |s.far| && s.router.pads[i].grabbed && Feed(s.router, i, Report(time), now, writable).Ok?
    ensures var p, after := s.router.pads[i], Feed(s.router, i, Report(time), now, writable).value;
            && |after.pads| == |s.router.pads| && after.remote == s.router.remote
            && (forall j :: 0 <= j < |after.pads| && j != i ==> after.pads[j] == s.router.pads[j])
            && (p.frame == [] ==> after == s.router)
            && (p.frame != [] ==>
                  && p.descriptor.AllowsFrame(p.frame) && p.state.Fits() && SlotsFit(p.frame, |p.state.contacts|)
                  && var q := p.(state := Replay(p.state, p.frame), frame := []);
                  && SoundPad(q)
                  && after.pads[i] == q.(mirror := after.pads[i].mirror, written := after.pads[i].written)
                  && (if s.router.remote then after.pads[i] == q
                      else EmitAt(q, p.frame, time, now, writable) == Ok(after.pads[i]))
                  && after.pending
                     == s.router.pending + (if s.router.remote then [TouchFrame(i, time, p.frame)] else [])
                  && (!s.router.remote ==> time <= now <= time + MAX_DELAY))
  {
    hide Descriptor.Valid, Descriptor.AllowsFrame, InShape, InvPad;
    assert InvAt(s, i);
    var p := s.router.pads[i];
    if p.frame != [] {
      ReadReplay(p.descriptor, p.state, p.frame);
    }
  }

  lemma FeedRecords(st: Stroke, i: nat, e: DeviceEvent, now: nat, writable: bool)
    requires Records(st) && i < |st.fingers| && Feed(st.sharing.router, i, e, now, writable).Ok?
    ensures Records(Then(st, DeviceReports(i, e, now, writable)).value)
  {
    hide Inv, RecordsPad, SoundPad, Moved, Deliver, Displays, EmitAt, Replay;
    NextKeeps(st.sharing, DeviceReports(i, e, now, writable));
    InvSounds(st.sharing, i);
    var p := st.sharing.router.pads[i];
    var next := Then(st, DeviceReports(i, e, now, writable)).value;
    assert RecordsAt(st, i);
    if !p.grabbed {
      UngrabbedRecords(p, st.fingers[i], st.reported[i], next.fingers[i], next.reported[i]);
    } else {
      match e
      case Lost =>
      case Report(time) =>
        ReportDone(st.sharing, i, time, now, writable);
        ReportRecords(p, next.sharing.router.pads[i], st.fingers[i], st.reported[i]);
        ReportDisplays(p, next.sharing.router.pads[i], st.since[i], st.sharing.router.remote, time, now, writable);
      case DeviceKey(code, value) =>
        if TouchKey(code) && value != 2 {
          PushRecords(p, st.fingers[i], st.reported[i], e, TouchEvent(Key, code, value));
          PushDisplays(p, st.since[i], st.sharing.router.remote, TouchEvent(Key, code, value));
        } else {
          NotMoved(st.fingers[i], e);
        }
      case DeviceAxis(code, value) =>
        if TouchAxis(code) {
          PushRecords(p, st.fingers[i], st.reported[i], e, TouchEvent(Absolute, code, value));
          PushDisplays(p, st.since[i], st.sharing.router.remote, TouchEvent(Absolute, code, value));
        } else {
          NotMoved(st.fingers[i], e);
        }
      case Unrelated => NotMoved(st.fingers[i], e);
    }
    forall j: nat | j < |st.fingers| && j != i ensures RecordsAt(next, j) {
      assert RecordsAt(st, j);
    }
  }

  lemma InvSounds(s: Sharing, i: nat)
    requires Inv(s) && i < |s.far|
    ensures SoundRouter(s.router) && SoundPad(s.router.pads[i])
  {
    assert InvAt(s, i);
  }

  lemma NotMoved(t: Touch, e: DeviceEvent)
    requires match e
             case DeviceKey(code, value) => !TouchKey(code) || value == 2
             case DeviceAxis(code, _) => !TouchAxis(code)
             case _ => true
    ensures Moved(t, e) == t
  {
  }

  lemma UngrabbedRecords(p: Pad, fingers: Touch, reported: Touch, later: Touch, then_: Touch)
    requires !p.grabbed && RecordsPad(p, fingers, reported)
    ensures RecordsPad(p, later, then_)
  {
  }

  lemma ReportRecords(p: Pad, q: Pad, fingers: Touch, reported: Touch)
    requires p.grabbed && RecordsPad(p, fingers, reported)
    requires p.frame == [] ==> q == p
    requires p.frame != [] ==> p.descriptor.AllowsFrame(p.frame) && p.state.Fits()
                               && SlotsFit(p.frame, |p.state.contacts|)
                               && q == p.(state := Replay(p.state, p.frame), frame := [], mirror := q.mirror,
                                         written := q.written)
    ensures RecordsPad(q, fingers, fingers) && q.state == fingers
  {
    NoEmptyFrame(p.descriptor);
  }

  /** The frame that is building up does not matter to the readers of the mirror. */
  lemma PushDisplays(p: Pad, since: nat, remote: bool, e: TouchEvent)
    requires Displays(p, since, remote)
    ensures Displays(p.(frame := p.frame + [e]), since, remote)
  {
    hide Descriptor.Valid, InShape, InStep, Replay;
  }

  lemma ReportDisplays(p: Pad, after: Pad, since: nat, remote: bool, time: nat, now: nat, writable: bool)
    requires p.grabbed && Displays(p, since, remote) && (p.frame == [] ==> after == p)
    requires p.frame != [] ==>
               && p.state.Fits() && SlotsFit(p.frame, |p.state.contacts|)
               && var q := p.(state := Replay(p.state, p.frame), frame := []);
               && SoundPad(q)
               && if remote then after == q else EmitAt(q, p.frame, time, now, writable) == Ok(after)
    ensures Displays(after, since, remote)
  {
    hide Descriptor.Valid, InShape, InStep, EmitAt, SoundPad;
    if p.frame != [] {
      var q := p.(state := Replay(p.state, p.frame), frame := []);
      assert Seen(q) == Seen(p) && Told(q, since) == Told(p, since);
      if !remote {
        WriteDisplays(q, since, remote, p.frame, time, now, writable);
      }
    }
  }

  lemma NoEmptyFrame(d: Descriptor)
    ensures !d.AllowsFrame([])
  {
  }

  lemma GrabRecords(st: Stroke, i: nat)
    requires Records(st) && i < |st.fingers| && Can(st, TakeOver(i, st.fingers[i]))
    ensures Records(Then(st, TakeOver(i, st.fingers[i])).value)
  {
    hide Inv, SoundPad, Displays;
    NextKeeps(st.sharing, TakeOver(i, st.fingers[i]));
    InvSounds(st.sharing, i);
    var next := Then(st, TakeOver(i, st.fingers[i])).value;
    NoEmptyFrame(st.sharing.router.pads[i].descriptor);
    assert RecordsAt(st, i);
    UngrabbedMirror(st.sharing, i);
    GrabDisplays(st.sharing.router.pads[i], st.since[i], st.sharing.router.remote, st.fingers[i]);
    forall j: nat | j < |st.fingers| ensures RecordsAt(next, j) {
      assert RecordsAt(st, j);
    }
  }

  /** The mirror of a pad that is not grabbed is blank, and so is that of any pad that is shown over there. */
  lemma UngrabbedMirror(s: Sharing, i: nat)
    requires Inv(s) && i < |s.far|
    ensures var p := s.router.pads[i]; s.router.remote || !p.grabbed ==> p.mirror == New(p.descriptor)
  {
    assert InvAt(s, i);
  }

  lemma GrabDisplays(p: Pad, since: nat, remote: bool, state: Touch)
    requires Displays(p, since, remote) && !p.grabbed && p.mirror == New(p.descriptor)
    ensures Displays(p.(state := state, grabbed := true), since, remote)
  {
    hide InShape, InStep;
    IdleTogether(Seen(p), p.mirror);
  }

  /** Switching writes to the mirror only. */
  lemma SwitchAside(p: Pad, remote: bool, writable: bool)
    requires SoundPad(p) && Switch(p, remote, writable).Ok?
    ensures var q := Switch(p, remote, writable).value; q == p.(mirror := q.mirror, written := q.written)
  {
    hide Descriptor.Valid, Descriptor.AllowsFrame, Readable, InShape;
  }

  lemma RouteRecords(st: Stroke, remote: bool, now: nat, writable: bool)
    requires Records(st) && Then(st, RouteTo(remote, now, writable)).Ok?
    ensures Records(Then(st, RouteTo(remote, now, writable)).value)
  {
    hide Inv, SoundPad, RecordsPad, Switch, Displays;
    NextKeeps(st.sharing, RouteTo(remote, now, writable));
    var next := Then(st, RouteTo(remote, now, writable)).value;
    forall j: nat | j < |st.fingers| ensures RecordsAt(next, j) {
      assert RecordsAt(st, j);
      if st.sharing.router.remote != remote {
        InvSounds(st.sharing, j);
        UngrabbedMirror(st.sharing, j);
        SwitchAside(st.sharing.router.pads[j], remote, writable);
        SwitchDisplays(st.sharing.router.pads[j], st.since[j], remote, writable);
        MirrorAside(st.sharing.router.pads[j], next.sharing.router.pads[j], st.fingers[j], st.reported[j]);
      }
    }
  }

  lemma SwitchDisplays(p: Pad, since: nat, remote: bool, writable: bool)
    requires SoundPad(p) && Displays(p, since, !remote) && Switch(p, remote, writable).Ok?
    requires !remote || !p.grabbed ==> p.mirror == New(p.descriptor)
    ensures var q := Switch(p, remote, writable).value; Displays(q, if remote then |q.written| else since, remote)
  {
    hide Descriptor.Valid, Readable, InShape, InStep, Reset, EmitAt, SnapshotOf;
    if !p.grabbed {
      assert p.written[|p.written|..] == [];
      BlankInStep(p);
    } else if remote {
      ResetDisplays(p, since, writable);
    } else {
      ReopenDisplays(p, since, writable);
      SwitchAside(p, remote, writable);
    }
  }

  lemma MirrorAside(p: Pad, q: Pad, fingers: Touch, reported: Touch)
    requires q == p.(mirror := q.mirror, written := q.written) && RecordsPad(p, fingers, reported)
    ensures RecordsPad(q, fingers, reported)
  {
  }

  lemma SendRecords(st: Stroke)
    requires Records(st)
    ensures Records(Then(st, SendQueued).value)
  {
    hide Inv, RecordsPad, Displays;
    NextKeeps(st.sharing, SendQueued);
    InvSounds1(st.sharing);
    var next := Then(st, SendQueued).value;
    forall j: nat | j < |st.fingers| ensures RecordsAt(next, j) {
      assert RecordsAt(st, j);
    }
  }

  lemma InvSounds1(s: Sharing)
    requires Inv(s)
    ensures |s.far| == |s.router.pads|
  {
  }

  /** Whatever the hardware and the router do, the record stays true. */
  lemma ThenRecords(st: Stroke, a: Action)
    requires Records(st) && Can(st, a) && Then(st, a).Ok?
    ensures Records(Then(st, a).value)
  {
    hide Records, Inv, Feed, Redirect;
    RecordsFits(st);
    match a
    case DeviceReports(i, e, now, writable) => FeedRecords(st, i, e, now, writable);
    case TakeOver(i, _) => GrabRecords(st, i);
    case SendQueued => SendRecords(st);
    case RouteTo(remote, now, writable) => RouteRecords(st, remote, now, writable);
  }

  lemma RecordsFits(st: Stroke)
    requires Records(st)
    ensures st.Fits() && Inv(st.sharing)
  {
  }

  // ---- Whole strokes ----

  /** `st` is reached from `start`; a failed action ends sharing and reaches nothing. */
  ghost predicate Comes(start: Stroke, actions: seq<Action>, st: Stroke)
    decreases |actions|
  {
    if actions == [] then st == start
    else Can(start, actions[0]) && Then(start, actions[0]).Ok? && Comes(Then(start, actions[0]).value, actions[1..], st)
  }

  /** At the start no pad is grabbed and nothing is on its way; the fingers may do anything. */
  ghost predicate Begins(st: Stroke) {
    && Starts(st.sharing) && st.Fits() && st.reports == {}
    && forall i :: 0 <= i < |st.sharing.router.pads| ==>
         st.sharing.router.pads[i].frame == [] && st.sharing.router.pads[i].written == [] && st.since[i] == 0
  }

  lemma BeginsRecorded(st: Stroke)
    requires Begins(st)
    ensures Records(st)
  {
    hide Descriptor.Valid, Readable, InShape, Displays;
    forall j: nat | j < |st.sharing.far| ensures InvAt(st.sharing, j) {
    }
    forall j: nat | j < |st.fingers| ensures RecordsAt(st, j) {
      NewDisplays(st.sharing.router.pads[j]);
    }
  }

  lemma NewDisplays(p: Pad)
    requires p.descriptor.Valid() && p.written == [] && p.mirror == New(p.descriptor) && !p.grabbed
    ensures Displays(p, 0, false)
  {
    NewInShape(p.descriptor);
    BlankInStep(p);
    assert p.written[0..] == [];
  }

  lemma {:induction false} AlwaysRecorded(start: Stroke, actions: seq<Action>, st: Stroke)
    requires Records(start) && Comes(start, actions, st)
    ensures Records(st) && Reaches(start.sharing, actions, st.sharing)
    decreases |actions|
  {
    hide Records, Then;
    if actions != [] {
      ThenRecords(start, actions[0]);
      ThenShares(start, actions[0]);
      AlwaysRecorded(Then(start, actions[0]).value, actions[1..], st);
    }
  }

  lemma ThenShares(st: Stroke, a: Action)
    requires Can(st, a) && Then(st, a).Ok?
    ensures Routing.Next(st.sharing, a) == Ok(Then(st, a).value.sharing)
  {
    hide Routing.Next;
  }

  /** Over every run, the state recorded for a grabbed pad is what its fingers did at its last report; every accepted
      report records what they do then. If they moved since the last one, the report queues one frame under its own time
      for the paired computer, or is written here, and then it is neither early nor later than the allowed delay. */
  lemma ReportsAreRecorded(start: Stroke, actions: seq<Action>, st: Stroke, i: nat, time: nat, now: nat, writable: bool)
    requires Begins(start) && Comes(start, actions, st) && i < |st.sharing.router.pads|
    requires st.sharing.router.pads[i].grabbed
    ensures st.Fits() && st.sharing.router.pads[i].state == st.reported[i]
    ensures var a := DeviceReports(i, Report(time), now, writable);
            Can(st, a) && Then(st, a).Ok? ==>
              var router, after := st.sharing.router, Then(st, a).value.sharing.router;
              && after.pads[i].state == st.fingers[i]
              && (st.fingers[i] != st.reported[i] && router.remote ==>
                    |after.pending| == |router.pending| + 1 && router.pending <= after.pending
                    && after.pending[|router.pending|].pad == i && after.pending[|router.pending|].time == time)
              && (st.fingers[i] != st.reported[i] && !router.remote ==> time <= now <= time + MAX_DELAY)
  {
    hide Inv, RecordsPad, Displays, EmitAt, Replay, SoundPad, Feed;
    BeginsRecorded(start);
    AlwaysRecorded(start, actions, st);
    assert RecordsAt(st, i);
    var p := st.sharing.router.pads[i];
    RecordedPad(p, st.fingers[i], st.reported[i]);
    var a := DeviceReports(i, Report(time), now, writable);
    if Can(st, a) && Then(st, a).Ok? {
      InvSounds1(st.sharing);
      ReportDone(st.sharing, i, time, now, writable);
      ReportRecords(p, Then(st, a).value.sharing.router.pads[i], st.fingers[i], st.reported[i]);
    }
  }

  lemma RecordedPad(p: Pad, fingers: Touch, reported: Touch)
    requires p.grabbed && RecordsPad(p, fingers, reported)
    ensures p.state == reported && (fingers != reported ==> p.frame != [])
  {
  }

  /** A pad is grabbed, for good, exactly when it is taken over with nothing down on it: no key and no contact. */
  lemma PadsAreTakenIdle(st: Stroke, a: Action, i: nat)
    requires Can(st, a) && Then(st, a).Ok? && i < |st.sharing.router.pads|
    ensures |Then(st, a).value.sharing.router.pads| == |st.sharing.router.pads|
    ensures Then(st, a).value.sharing.router.pads[i].grabbed
       <==> st.sharing.router.pads[i].grabbed
            || (a == TakeOver(i, st.fingers[i]) && st.fingers[i].keys == {}
                && forall k :: 0 <= k < |st.fingers[i].contacts| ==>
                     TRACKING !in st.fingers[i].contacts[k] || st.fingers[i].contacts[k][TRACKING] < 0)
  {
    hide Inv, SoundPad, Switch, EmitAt;
    InvSounds1(st.sharing);
    InvSounds(st.sharing, i);
    match a
    case RouteTo(remote, now, writable) =>
      if st.sharing.router.remote != remote {
        SwitchAside(st.sharing.router.pads[i], remote, writable);
      }
    case DeviceReports(j, e, now, writable) =>
      InvSounds(st.sharing, j);
      EmitKeepsGrabbed(st.sharing.router, j, e, now, writable);
    case _ =>
  }

  lemma EmitKeepsGrabbed(r: Router, j: nat, e: DeviceEvent, now: nat, writable: bool)
    requires SoundRouter(r) && j < |r.pads| && Feed(r, j, e, now, writable).Ok?
    ensures var after := Feed(r, j, e, now, writable).value;
            |after.pads| == |r.pads| && forall i :: 0 <= i < |r.pads| ==> after.pads[i].grabbed == r.pads[i].grabbed
  {
    hide Descriptor.Valid, Descriptor.AllowsFrame, Readable, InShape, Replay;
  }

  /** What sampling a pad comes to: its events one by one, in order, and then taking it over if it was acquired. */
  function SampleActions(i: nat, found: Found, now: nat, writable: bool): seq<Action> {
    EventActions(i, found.events, now, writable)
    + if found.acquired.Some? then [TakeOver(i, found.acquired.value)] else []
  }

  function EventActions(i: nat, events: seq<DeviceEvent>, now: nat, writable: bool): seq<Action> {
    seq(|events|, k requires 0 <= k < |events| => DeviceReports(i, events[k], now, writable))
  }

  lemma {:induction false} ReachesThen(start: Sharing, actions: seq<Action>, mid: Sharing, a: Action)
    requires Reaches(start, actions, mid) && Possible(mid, a) && Routing.Next(mid, a).Ok?
    ensures Reaches(start, actions + [a], Routing.Next(mid, a).value)
    decreases |actions|
  {
    hide Possible, Routing.Next;
    if actions == [] {
      assert [] + [a] == [a] && [a][1..] == [];
    } else {
      assert (actions + [a])[0] == actions[0] && (actions + [a])[1..] == actions[1..] + [a];
      ReachesThen(Routing.Next(start, actions[0]).value, actions[1..], mid, a);
    }
  }

  lemma {:induction false} FeedingReaches(s: Sharing, i: nat, events: seq<DeviceEvent>, now: nat, writable: bool)
    requires Inv(s) && i < |s.far|
    ensures SoundRouter(s.router) && i < |s.router.pads|
    ensures var fed := FeedAll(s.router, i, events, now, writable);
            fed.Ok? ==> Reaches(s, EventActions(i, events, now, writable), s.(router := fed.value))
                        && Inv(s.(router := fed.value))
    decreases |events|
  {
    hide Inv, Feed, Reaches, SoundPad;
    InvSounds1(s);
    InvSounds(s, i);
    var fed := FeedAll(s.router, i, events, now, writable);
    if events == [] {
      NothingReaches(s);
      assert EventActions(i, events, now, writable) == [] && s.(router := fed.value) == s;
    } else if fed.Ok? {
      var front, last := events[..|events| - 1], events[|events| - 1];
      FeedingReaches(s, i, front, now, writable);
      var before := s.(router := FeedAll(s.router, i, front, now, writable).value);
      var a := DeviceReports(i, last, now, writable);
      NextKeeps(before, a);
      ReachesThen(s, EventActions(i, front, now, writable), before, a);
      assert EventActions(i, events, now, writable) == EventActions(i, front, now, writable) + [a];
    }
  }

  lemma NothingReaches(s: Sharing)
    ensures Reaches(s, [], s)
  {
  }

  /** Sampling a pad is its events in order, none left out, and the take-over of an acquired pad. */
  lemma SamplingIsItsEvents(s: Sharing, i: nat, found: Found, now: nat, writable: bool)
    requires Inv(s) && i < |s.far|
    ensures SoundRouter(s.router) && i < |s.router.pads|
    ensures ReadFrom(s.router.pads[i], found) ==>
              var sampled := SamplePad(s.router, i, found, now, writable);
              sampled.Ok? ==> Reaches(s, SampleActions(i, found, now, writable), s.(router := sampled.value))
  {
    hide Inv, FeedAll, Reaches, SoundPad;
    FeedingReaches(s, i, found.events, now, writable);
    InvSounds(s, i);
    var events := EventActions(i, found.events, now, writable);
    var fed := FeedAll(s.router, i, found.events, now, writable);
    if fed.Ok? && ReadFrom(s.router.pads[i], found) {
      if found.acquired.Some? {
        ReachesThen(s, events, s.(router := fed.value), TakeOver(i, found.acquired.value));
      } else {
        assert events + [] == events;
      }
    }
  }

  /** From the snapshot that opens it, a destination shows what the fingers did at the last report of their pad, through
      any events and route switches, while on the other one nothing is down. Queued frames count as on their way, and
      carry the time of a report of their pad. At this computer the destination is what the readers of the virtual
      device see; of what they still know of earlier strokes nothing is said. */
  lemma StrokeContinuity(start: Stroke, actions: seq<Action>, st: Stroke, i: nat)
    requires Begins(start) && Comes(start, actions, st) && i in st.sharing.live
    ensures var s := st.sharing;
            && st.Fits() && i < |s.far| == |s.router.pads| && SoundRouter(s.router)
            && var p := s.router.pads[i];
               && p.grabbed && SlotsFit(p.written, p.descriptor.Slots()) && st.since[i] <= |p.written|
               && if s.router.remote
                  then && SlotsFit(FramesOf(s.router.pending, i), |s.far[i].contacts|) && s.far[i].Fits()
                       && InStep(st.reported[i], Replay(s.far[i], FramesOf(s.router.pending, i)))
                       && Idle(Seen(p))
                  else && InStep(st.reported[i], Told(p, st.since[i])) && InStep(Seen(p), Told(p, st.since[i]))
                       && Idle(s.far[i])
    ensures forall f :: f in st.sharing.router.pending ==> (f.pad, f.time) in st.reports
  {
    hide Inv, RecordsPad, InStep, SoundPad;
    BeginsRecorded(start);
    AlwaysRecorded(start, actions, st);
    DestinationsFollow(start.sharing, actions, st.sharing, i);
    assert RecordsAt(st, i);
    RecordedPad(st.sharing.router.pads[i], st.fingers[i], st.reported[i]);
  }
}
