// Giving the physical touchpad back to the reader that missed everything while the device was
// grabbed (handoff_frames and finish_physical_handoff in src/touchpad.rs).
module Handoff {
  import opened Protocol
  import opened Touchpad

  // ---- The frames ----

  predicate ContactAxis(a: AxisInfo) {
    a.code > SLOT && a.code != TRACKING
  }

  predicate Ranged(a: AxisInfo) {
    a.minimum < a.maximum
  }

  function Abs(code: int, value: int): TouchEvent {
    TouchEvent(Absolute, code, value)
  }

  function HiddenKeys(keys: seq<int>, upTo: nat): seq<TouchEvent>
    requires upTo <= |keys|
  {
    if upTo == 0 then [] else HiddenKeys(keys, upTo - 1) + [TouchEvent(Key, keys[upTo - 1], 0)]
  }

  // Mouse buttons are left alone in the visible frame.
  function NeutralKeys(keys: seq<int>, upTo: nat): seq<TouchEvent>
    requires upTo <= |keys|
  {
    if upTo == 0 then []
    else if keys[upTo - 1] >= 325 then NeutralKeys(keys, upTo - 1) + [TouchEvent(Key, keys[upTo - 1], 0)]
    else NeutralKeys(keys, upTo - 1)
  }

  function HiddenAxes(axes: seq<AxisInfo>, upTo: nat): seq<TouchEvent>
    requires upTo <= |axes|
  {
    if upTo == 0 then []
    else
      var a := axes[upTo - 1];
      if ContactAxis(a) then HiddenAxes(axes, upTo - 1) + [Abs(a.code, a.minimum), Abs(a.code, a.maximum)]
      else HiddenAxes(axes, upTo - 1)
  }

  function NeutralAxes(axes: seq<AxisInfo>, upTo: nat): seq<TouchEvent>
    requires upTo <= |axes|
  {
    if upTo == 0 then []
    else
      var a := axes[upTo - 1];
      if ContactAxis(a) then NeutralAxes(axes, upTo - 1) + [Abs(a.code, a.minimum)]
      else NeutralAxes(axes, upTo - 1)
  }

  function Heading(slot: int, tracking: int): seq<TouchEvent> {
    [SlotEvent(slot), TrackingEvent(tracking)]
  }

  function HiddenSlots(axes: seq<AxisInfo>, upTo: nat): seq<TouchEvent> {
    if upTo == 0 then []
    else HiddenSlots(axes, upTo - 1) + (Heading(upTo - 1, -1) + HiddenAxes(axes, |axes|))
  }

  function NeutralSlots(axes: seq<AxisInfo>, upTo: nat): seq<TouchEvent> {
    if upTo == 0 then []
    else NeutralSlots(axes, upTo - 1) + (Heading(upTo - 1, -1) + NeutralAxes(axes, |axes|))
  }

  function GlobalEvents(axes: seq<AxisInfo>, upTo: nat, top: bool): seq<TouchEvent>
    requires upTo <= |axes|
  {
    if upTo == 0 then []
    else
      var a := axes[upTo - 1];
      if a.code < SLOT
      then GlobalEvents(axes, upTo - 1, top) + [Abs(a.code, if top then a.maximum else a.minimum)]
      else GlobalEvents(axes, upTo - 1, top)
  }

  function HiddenFrame(d: Descriptor): seq<TouchEvent>
    requires d.Valid()
  {
    HiddenKeys(d.keys, |d.keys|) + (HiddenSlots(d.axes, d.Slots()) + GlobalEvents(d.axes, |d.axes|, true))
  }

  function NeutralFrame(d: Descriptor): seq<TouchEvent>
    requires d.Valid()
  {
    NeutralKeys(d.keys, |d.keys|) + (NeutralSlots(d.axes, d.Slots()) + GlobalEvents(d.axes, |d.axes|, false))
  }

  /** The private starts that make an ending visible in every slot. */
  function LegacyStarts(id: int, upTo: nat): seq<TouchEvent> {
    if upTo == 0 then [] else LegacyStarts(id, upTo - 1) + Heading(upTo - 1, id)
  }

  function RepairId(d: Descriptor): int
    requires d.Valid()
  {
    var minimum := Find(d.axes, TRACKING).value.minimum;
    if minimum >= 0 then minimum else 0
  }

  /** The refusal of devices whose coordinates cannot be forced to change. */
  predicate Synchronizable(d: Descriptor) {
    exists i :: 0 <= i < |d.axes| && (d.axes[i].code == 53 || d.axes[i].code == 54)
                && d.axes[i].maximum - d.axes[i].minimum > 2 * d.axes[i].fuzz
  }

  /** A device that passes every check made when it is opened, and is taken over while idle, may still have a state
      whose snapshot its own description refuses: then it can never be handed to the other computer. */
  lemma OpenedButRefused()
    ensures OFFSET.Valid() && Synchronizable(OFFSET)
    ensures Readable(OFFSET, Unused(OFFSET)) && Idle(Unused(OFFSET))
    ensures !OFFSET.AllowsFrame(SnapshotOf(Unused(OFFSET)))
  {
    hide Descriptor.Valid, Descriptor.AllowsFrame, Idle, Readable, Unused, SnapshotOf;
    OffsetIsValid();
    UnusedIsRefused(OFFSET, OFFSET.axes[0]);
    assert OFFSET.axes[3].code == 53 && OFFSET.axes[3].maximum - OFFSET.axes[3].minimum > 2 * OFFSET.axes[3].fuzz;
  }

  // ---- The kernel ----

  /** Kernel state of a type B device: the slot being written and the slot last announced to readers. */
  datatype Kernel = Kernel(slot: int, announced: int, keys: set<int>, axes: map<int, int>, contacts: seq<Contact>) {
    predicate Fits() {
      0 <= slot < |contacts| && 0 <= announced < |contacts|
    }
  }

  function Absorb(k: Kernel, e: TouchEvent): (r: Kernel)
    requires k.Fits()
    ensures r.Fits() && |r.contacts| == |k.contacts|
  {
    if e.kind == Key then k.(keys := if e.value == 0 then k.keys - {e.code} else k.keys + {e.code})
    else if e.code == SLOT then (if 0 <= e.value < |k.contacts| then k.(slot := e.value) else k)
    else if e.code > SLOT then
      if e.code in k.contacts[k.slot] && k.contacts[k.slot][e.code] != e.value
      then k.(contacts := k.contacts[k.slot := k.contacts[k.slot][e.code := e.value]], announced := k.slot)
      else k
    else if e.code in k.axes then k.(axes := k.axes[e.code := e.value])
    else k
  }

  /** What readers of the device are shown of one event: only changes, and the slot just before them. */
  function Shown(k: Kernel, e: TouchEvent): (r: seq<TouchEvent>)
    requires k.Fits()
    ensures SlotsFit(r, |k.contacts|)
  {
    if e.kind == Key then (if (e.code in k.keys) == (e.value != 0) then [] else [e])
    else if e.code == SLOT then []
    else if e.code > SLOT then
      if e.code in k.contacts[k.slot] && k.contacts[k.slot][e.code] != e.value
      then (if k.announced == k.slot then [] else [SlotEvent(k.slot)]) + [e]
      else []
    else if e.code in k.axes && k.axes[e.code] != e.value then [e]
    else []
  }

  function AbsorbAll(k: Kernel, events: seq<TouchEvent>): (r: Kernel)
    requires k.Fits()
    ensures r.Fits() && |r.contacts| == |k.contacts|
  {
    if events == [] then k
    else Absorb(AbsorbAll(k, events[..|events| - 1]), events[|events| - 1])
  }

  function ShownAll(k: Kernel, events: seq<TouchEvent>): (r: seq<TouchEvent>)
    requires k.Fits()
    ensures SlotsFit(r, |k.contacts|)
  {
    if events == [] then []
    else
      var before := AbsorbAll(k, events[..|events| - 1]);
      ShownAll(k, events[..|events| - 1]) + Shown(before, events[|events| - 1])
  }

  /** Kernel and a reader that follows it. */
  datatype Pair = Pair(k: Kernel, r: Touch) {
    predicate Fits() {
      k.Fits() && r.Fits() && |r.contacts| == |k.contacts|
    }
  }

  /** One event written while the reader is watching. */
  function Feed(p: Pair, e: TouchEvent): (q: Pair)
    requires p.Fits()
    ensures q.Fits() && |q.k.contacts| == |p.k.contacts|
  {
    Pair(Absorb(p.k, e), Replay(p.r, Shown(p.k, e)))
  }

  function FeedAll(p: Pair, events: seq<TouchEvent>): (q: Pair)
    requires p.Fits()
    ensures q.Fits() && |q.k.contacts| == |p.k.contacts|
  {
    if events == [] then p else Feed(FeedAll(p, events[..|events| - 1]), events[|events| - 1])
  }

  lemma {:induction false} FeedAllIsReplay(p: Pair, events: seq<TouchEvent>)
    requires p.Fits()
    ensures FeedAll(p, events) == Pair(AbsorbAll(p.k, events), Replay(p.r, ShownAll(p.k, events)))
    decreases |events|
  {
    if events != [] {
      var before := events[..|events| - 1];
      FeedAllIsReplay(p, before);
      ApplyConcat(p.r, ShownAll(p.k, before), Shown(AbsorbAll(p.k, before), events[|events| - 1]));
    }
  }

  lemma {:induction false} FeedConcat(p: Pair, a: seq<TouchEvent>, b: seq<TouchEvent>)
    requires p.Fits()
    ensures FeedAll(p, a + b) == FeedAll(FeedAll(p, a), b)
    decreases |b|
  {
    if b == [] {
      assert a + b == a;
    } else {
      assert (a + b)[..|a + b| - 1] == a + b[..|b| - 1];
      FeedConcat(p, a, b[..|b| - 1]);
    }
  }

  lemma FeedSnoc(p: Pair, a: seq<TouchEvent>, e: TouchEvent)
    requires p.Fits()
    ensures FeedAll(p, a + [e]) == Feed(FeedAll(p, a), e)
  {
    assert (a + [e])[..|a|] == a;
  }

  lemma {:induction false} AbsorbConcat(k: Kernel, a: seq<TouchEvent>, b: seq<TouchEvent>)
    requires k.Fits()
    ensures AbsorbAll(k, a + b) == AbsorbAll(AbsorbAll(k, a), b)
    decreases |b|
  {
    if b == [] {
      assert a + b == a;
    } else {
      assert (a + b)[..|a + b| - 1] == a + b[..|b| - 1];
      AbsorbConcat(k, a, b[..|b| - 1]);
    }
  }

  lemma AbsorbTwo(k: Kernel, a: TouchEvent, b: TouchEvent)
    requires k.Fits()
    ensures AbsorbAll(k, [a, b]) == Absorb(Absorb(k, a), b)
  {
    assert [a, b][..1] == [a] && [a][..0] == [];
    assert AbsorbAll(k, [a]) == Absorb(AbsorbAll(k, []), a);
  }

  lemma FeedTwo(p: Pair, a: TouchEvent, b: TouchEvent)
    requires p.Fits()
    ensures FeedAll(p, [a, b]) == Feed(Feed(p, a), b)
  {
    assert [a, b][..1] == [a] && [a][..0] == [];
    assert FeedAll(p, [a]) == Feed(FeedAll(p, []), a);
  }

  // ---- Hidden frame: the kernel alone ----

  /** A contact after the hidden frame: every coordinate at its maximum. */
  function Raised(c: Contact, axes: seq<AxisInfo>, upTo: nat): Contact
    requires upTo <= |axes|
  {
    if upTo == 0 then c
    else
      var a := axes[upTo - 1];
      if ContactAxis(a) then Raised(c, axes, upTo - 1)[a.code := a.maximum] else Raised(c, axes, upTo - 1)
  }

  ghost predicate Reports(c: Contact, axes: seq<AxisInfo>) {
    TRACKING in c && forall i :: 0 <= i < |axes| && ContactAxis(axes[i]) ==> axes[i].code in c
  }

  /** Some coordinate below `upTo` can be made to change. */
  ghost predicate CanChange(axes: seq<AxisInfo>, upTo: nat) {
    exists i :: 0 <= i < upTo <= |axes| && ContactAxis(axes[i]) && Ranged(axes[i])
  }

  lemma AbsorbContact(k: Kernel, code: int, value: int)
    requires k.Fits() && code > SLOT && code in k.contacts[k.slot]
    ensures var c := k.contacts[k.slot];
            Absorb(k, Abs(code, value))
            == k.(contacts := k.contacts[k.slot := c[code := value]],
                  announced := if c[code] == value then k.announced else k.slot)
  {
    var c := k.contacts[k.slot];
    if c[code] == value {
      assert c[code := value] == c;
      assert k.contacts[k.slot := c] == k.contacts;
    }
  }

  lemma RaiseAxis(k: Kernel, a: AxisInfo)
    requires k.Fits() && ContactAxis(a) && a.code in k.contacts[k.slot]
    ensures var r := AbsorbAll(k, [Abs(a.code, a.minimum), Abs(a.code, a.maximum)]);
            && r == k.(contacts := k.contacts[k.slot := k.contacts[k.slot][a.code := a.maximum]],
                       announced := r.announced)
            && (r.announced == k.announced || r.announced == k.slot)
            && (a.minimum != a.maximum ==> r.announced == k.slot)
  {
    AbsorbTwo(k, Abs(a.code, a.minimum), Abs(a.code, a.maximum));
    AbsorbContact(k, a.code, a.minimum);
    var k1 := Absorb(k, Abs(a.code, a.minimum));
    AbsorbContact(k1, a.code, a.maximum);
    assert k.contacts[k.slot][a.code := a.minimum][a.code := a.maximum] == k.contacts[k.slot][a.code := a.maximum];
  }

  lemma {:induction false} RaiseAxes(k: Kernel, axes: seq<AxisInfo>, upTo: nat)
    requires k.Fits() && Reports(k.contacts[k.slot], axes) && upTo <= |axes|
    ensures var r := AbsorbAll(k, HiddenAxes(axes, upTo));
            && r == k.(contacts := k.contacts[k.slot := Raised(k.contacts[k.slot], axes, upTo)],
                       announced := r.announced)
            && (r.announced == k.announced || r.announced == k.slot)
            && (CanChange(axes, upTo) ==> r.announced == k.slot)
    ensures Reports(Raised(k.contacts[k.slot], axes, upTo), axes)
  {
    hide Absorb;
    if upTo == 0 {
      assert k.contacts[k.slot := k.contacts[k.slot]] == k.contacts;
    } else {
      RaiseAxes(k, axes, upTo - 1);
      var a := axes[upTo - 1];
      if ContactAxis(a) {
        var before := AbsorbAll(k, HiddenAxes(axes, upTo - 1));
        AbsorbConcat(k, HiddenAxes(axes, upTo - 1), [Abs(a.code, a.minimum), Abs(a.code, a.maximum)]);
        RaiseAxis(before, a);
      }
    }
  }

  lemma AbsorbHeading(k: Kernel, i: int)
    requires k.Fits() && 0 <= i < |k.contacts| && TRACKING in k.contacts[i]
    ensures var r := AbsorbAll(k, Heading(i, -1));
            r == k.(slot := i, announced := r.announced, contacts := k.contacts[i := k.contacts[i][TRACKING := -1]])
  {
    AbsorbTwo(k, SlotEvent(i), TrackingEvent(-1));
    AbsorbContact(Absorb(k, SlotEvent(i)), TRACKING, -1);
  }

  function RaisedContacts(contacts: seq<Contact>, axes: seq<AxisInfo>, upTo: nat): (r: seq<Contact>)
    ensures |r| == |contacts|
  {
    seq(|contacts|, i requires 0 <= i < |contacts| =>
      if i < upTo then Raised(contacts[i][TRACKING := -1], axes, |axes|) else contacts[i])
  }

  /** Writing every slot announces every slot: a coordinate changes, or there is only one slot. */
  ghost predicate CanAnnounce(axes: seq<AxisInfo>, slots: nat) {
    CanChange(axes, |axes|) || slots == 1
  }

  lemma {:induction false} RaiseSlots(k: Kernel, axes: seq<AxisInfo>, upTo: nat)
    requires k.Fits() && CanAnnounce(axes, |k.contacts|) && upTo <= |k.contacts|
    requires forall i :: 0 <= i < |k.contacts| ==> Reports(k.contacts[i], axes)
    ensures var r := AbsorbAll(k, HiddenSlots(axes, upTo));
            && r == k.(slot := r.slot, announced := r.announced, contacts := RaisedContacts(k.contacts, axes, upTo))
            && (upTo > 0 ==> r.slot == r.announced == upTo - 1)
  {
    hide Absorb, Raised;
    if upTo == 0 {
      assert RaisedContacts(k.contacts, axes, 0) == k.contacts;
    } else {
      var i := upTo - 1;
      RaiseSlots(k, axes, i);
      var before := AbsorbAll(k, HiddenSlots(axes, i));
      AbsorbConcat(k, HiddenSlots(axes, i), Heading(i, -1) + HiddenAxes(axes, |axes|));
      AbsorbConcat(before, Heading(i, -1), HiddenAxes(axes, |axes|));
      AbsorbHeading(before, i);
      var headed := AbsorbAll(before, Heading(i, -1));
      RaiseAxes(headed, axes, |axes|);
      assert RaisedContacts(k.contacts, axes, upTo)
          == RaisedContacts(k.contacts, axes, i)[i := Raised(k.contacts[i][TRACKING := -1], axes, |axes|)];
    }
  }

  lemma AbsorbKeyUp(k: Kernel, code: int)
    requires k.Fits()
    ensures Absorb(k, TouchEvent(Key, code, 0)) == k.(keys := k.keys - {code})
  {
    assert code !in k.keys ==> k.keys - {code} == k.keys;
  }

  lemma NamedNext(keys: seq<int>, upTo: nat)
    requires 0 < upTo <= |keys|
    ensures Named(keys[..upTo]) == Named(keys[..upTo - 1]) + {keys[upTo - 1]}
  {
    assert keys[..upTo] == keys[..upTo - 1] + [keys[upTo - 1]];
  }

  lemma {:induction false} ReleaseHiddenKeys(k: Kernel, keys: seq<int>, upTo: nat)
    requires k.Fits() && upTo <= |keys|
    ensures AbsorbAll(k, HiddenKeys(keys, upTo)) == k.(keys := k.keys - Named(keys[..upTo]))
  {
    hide Absorb;
    if upTo == 0 {
      assert k.keys - Named(keys[..0]) == k.keys;
    } else {
      ReleaseHiddenKeys(k, keys, upTo - 1);
      AbsorbSnoc(k, HiddenKeys(keys, upTo - 1), TouchEvent(Key, keys[upTo - 1], 0));
      AbsorbKeyUp(k.(keys := k.keys - Named(keys[..upTo - 1])), keys[upTo - 1]);
      NamedNext(keys, upTo);
      hide Named;
      var all, before := Named(keys[..upTo]), Named(keys[..upTo - 1]);
      assert k.keys - all == (k.keys - before) - {keys[upTo - 1]};
    }
  }

  lemma AbsorbSnoc(k: Kernel, a: seq<TouchEvent>, e: TouchEvent)
    requires k.Fits()
    ensures AbsorbAll(k, a + [e]) == Absorb(AbsorbAll(k, a), e)
  {
    assert (a + [e])[..|a|] == a;
  }

  /** Shared axes after their part of a frame. */
  function GlobalsAt(m: map<int, int>, axes: seq<AxisInfo>, upTo: nat, top: bool): map<int, int>
    requires upTo <= |axes|
  {
    if upTo == 0 then m
    else
      var a := axes[upTo - 1];
      if a.code < SLOT
      then GlobalsAt(m, axes, upTo - 1, top)[a.code := if top then a.maximum else a.minimum]
      else GlobalsAt(m, axes, upTo - 1, top)
  }

  ghost predicate ReportsGlobals(m: map<int, int>, axes: seq<AxisInfo>) {
    forall i :: 0 <= i < |axes| && axes[i].code < SLOT ==> axes[i].code in m
  }

  lemma AbsorbGlobal(k: Kernel, code: int, value: int)
    requires k.Fits() && code < SLOT && code in k.axes
    ensures Absorb(k, Abs(code, value)) == k.(axes := k.axes[code := value])
  {
    assert k.axes[code] == value ==> k.axes[code := value] == k.axes;
  }

  lemma {:induction false} StillReported(m: map<int, int>, axes: seq<AxisInfo>, upTo: nat, top: bool)
    requires ReportsGlobals(m, axes) && upTo <= |axes|
    ensures ReportsGlobals(GlobalsAt(m, axes, upTo, top), axes)
  {
    if upTo > 0 {
      StillReported(m, axes, upTo - 1, top);
    }
  }

  lemma {:induction false} SetGlobals(k: Kernel, axes: seq<AxisInfo>, upTo: nat, top: bool)
    requires k.Fits() && ReportsGlobals(k.axes, axes) && upTo <= |axes|
    ensures AbsorbAll(k, GlobalEvents(axes, upTo, top)) == k.(axes := GlobalsAt(k.axes, axes, upTo, top))
    ensures ReportsGlobals(GlobalsAt(k.axes, axes, upTo, top), axes)
  {
    hide Absorb;
    StillReported(k.axes, axes, upTo, top);
    if upTo > 0 {
      SetGlobals(k, axes, upTo - 1, top);
      var a := axes[upTo - 1];
      if a.code < SLOT {
        var value := if top then a.maximum else a.minimum;
        AbsorbSnoc(k, GlobalEvents(axes, upTo - 1, top), Abs(a.code, value));
        AbsorbGlobal(k.(axes := GlobalsAt(k.axes, axes, upTo - 1, top)), a.code, value);
      }
    }
  }

  /** A kernel driving this device. */
  ghost predicate Drives(d: Descriptor, k: Kernel)
    requires d.Valid()
  {
    && k.Fits() && |k.contacts| == d.Slots()
    && (forall c :: c in k.keys ==> c in d.keys)
    && ReportsGlobals(k.axes, d.axes)
    && forall i :: 0 <= i < |k.contacts| ==> Reports(k.contacts[i], d.axes)
  }

  /** The kernel right after the hidden frame. */
  function Neutralized(d: Descriptor, k: Kernel): Kernel
    requires d.Valid()
  {
    Kernel(d.Slots() - 1, d.Slots() - 1, {}, GlobalsAt(k.axes, d.axes, |d.axes|, true),
           RaisedContacts(k.contacts, d.axes, |k.contacts|))
  }

  /** The hidden frame brings every kernel state to the same neutral position, slot announced. */
  lemma HiddenNeutralizes(d: Descriptor, k: Kernel)
    requires d.Valid() && Drives(d, k) && CanAnnounce(d.axes, d.Slots())
    ensures AbsorbAll(k, HiddenFrame(d)) == Neutralized(d, k)
  {
    var keys := HiddenKeys(d.keys, |d.keys|);
    var slots := HiddenSlots(d.axes, d.Slots());
    var globals := GlobalEvents(d.axes, |d.axes|, true);
    ReleaseHiddenKeys(k, d.keys, |d.keys|);
    assert d.keys[..|d.keys|] == d.keys;
    forall c | c in k.keys ensures c in Named(d.keys) {}
    assert k.keys - Named(d.keys) == {};
    hide Descriptor.Valid;
    var k1 := AbsorbAll(k, keys);
    RaiseSlots(k1, d.axes, d.Slots());
    var k2 := AbsorbAll(k1, slots);
    SetGlobals(k2, d.axes, |d.axes|, true);
    AbsorbConcat(k1, slots, globals);
    AbsorbConcat(k, keys, slots + globals);
  }

  // ---- Neutral frame: the kernel and the reader together ----

  function Lowered(c: Contact, axes: seq<AxisInfo>, upTo: nat): Contact
    requires upTo <= |axes|
  {
    if upTo == 0 then c
    else
      var a := axes[upTo - 1];
      if ContactAxis(a) then Lowered(c, axes, upTo - 1)[a.code := a.minimum] else Lowered(c, axes, upTo - 1)
  }

  /** What the reader sees of that: only the coordinates that can change. */
  function Dropped(c: Contact, axes: seq<AxisInfo>, upTo: nat): Contact
    requires upTo <= |axes|
  {
    if upTo == 0 then c
    else
      var a := axes[upTo - 1];
      if ContactAxis(a) && Ranged(a) then Dropped(c, axes, upTo - 1)[a.code := a.minimum]
      else Dropped(c, axes, upTo - 1)
  }

  ghost predicate AtTop(c: Contact, axes: seq<AxisInfo>, from: nat) {
    forall i :: from <= i < |axes| && ContactAxis(axes[i]) ==>
      axes[i].code in c && c[axes[i].code] == axes[i].maximum
  }

  /** If the slot being written is the announced one, the reader is already on it. */
  ghost predicate Aligned(p: Pair) {
    p.Fits() && (p.k.announced == p.k.slot ==> p.r.slot == p.k.slot)
  }

  lemma FeedContact(p: Pair, code: int, value: int)
    requires Aligned(p) && code > SLOT && code in p.k.contacts[p.k.slot]
    ensures var i := p.k.slot;
            var c := p.k.contacts[i];
            var q := Feed(p, Abs(code, value));
            && Aligned(q)
            && q.k == p.k.(contacts := p.k.contacts[i := c[code := value]],
                           announced := if c[code] == value then p.k.announced else i)
            && q.r == if c[code] == value then p.r
                      else p.r.(slot := i, contacts := p.r.contacts[i := p.r.contacts[i][code := value]])
  {
    AbsorbContact(p.k, code, value);
    var e := Abs(code, value);
    var shown := Shown(p.k, e);
    if shown != [] {
      if p.k.announced == p.k.slot {
        assert shown[1..] == [];
        assert Replay(p.r, shown) == Replay(ApplyOne(p.r, e), []);
      } else {
        ApplySnoc(p.r, [SlotEvent(p.k.slot)], e);
        assert [SlotEvent(p.k.slot)][1..] == [];
        assert Replay(p.r, [SlotEvent(p.k.slot)]) == ApplyOne(p.r, SlotEvent(p.k.slot));
      }
    }
  }

  ghost predicate DistinctAxes(axes: seq<AxisInfo>) {
    && (forall i, j :: 0 <= i < j < |axes| ==> axes[i].code != axes[j].code)
    && forall i :: 0 <= i < |axes| ==> axes[i].minimum <= axes[i].maximum
  }

  lemma {:induction false} StillAtTop(c: Contact, axes: seq<AxisInfo>, upTo: nat)
    requires DistinctAxes(axes) && AtTop(c, axes, 0) && upTo <= |axes|
    ensures AtTop(Lowered(c, axes, upTo), axes, upTo)
  {
    if upTo > 0 {
      StillAtTop(c, axes, upTo - 1);
    }
  }

  lemma UpdatedTwice(contacts: seq<Contact>, i: nat, first: Contact, last: Contact)
    requires i < |contacts|
    ensures contacts[i := first][i := last] == contacts[i := last]
  {
  }

  /** How far the pair q has come from p once the first upTo axes of the current slot are lowered. */
  ghost predicate LoweredTo(p: Pair, q: Pair, axes: seq<AxisInfo>, upTo: nat)
    requires Aligned(p) && upTo <= |axes|
  {
    var i := p.k.slot;
    && Aligned(q)
    && q.k == p.k.(contacts := p.k.contacts[i := Lowered(p.k.contacts[i], axes, upTo)],
                   announced := q.k.announced)
    && q.r == p.r.(slot := q.r.slot,
                   contacts := p.r.contacts[i := Dropped(p.r.contacts[i], axes, upTo)])
    && (q.k.announced == p.k.announced || q.k.announced == i)
    && (CanChange(axes, upTo) ==> q.k.announced == i)
  }

  lemma LowerAxis(p: Pair, before: Pair, axes: seq<AxisInfo>, upTo: nat)
    requires Aligned(p) && 0 < upTo <= |axes| && DistinctAxes(axes) && AtTop(p.k.contacts[p.k.slot], axes, 0)
    requires LoweredTo(p, before, axes, upTo - 1) && ContactAxis(axes[upTo - 1])
    ensures LoweredTo(p, Feed(before, Abs(axes[upTo - 1].code, axes[upTo - 1].minimum)), axes, upTo)
  {
    hide Feed;
    var i := p.k.slot;
    var a := axes[upTo - 1];
    StillAtTop(p.k.contacts[i], axes, upTo - 1);
    FeedContact(before, a.code, a.minimum);
    UpdatedTwice(p.k.contacts, i, before.k.contacts[i], Lowered(p.k.contacts[i], axes, upTo));
    UpdatedTwice(p.r.contacts, i, before.r.contacts[i], Dropped(p.r.contacts[i], axes, upTo));
  }

  lemma {:induction false} LowerAxes(p: Pair, axes: seq<AxisInfo>, upTo: nat)
    requires Aligned(p) && upTo <= |axes| && DistinctAxes(axes) && AtTop(p.k.contacts[p.k.slot], axes, 0)
    ensures LoweredTo(p, FeedAll(p, NeutralAxes(axes, upTo)), axes, upTo)
  {
    hide Feed;
    var i := p.k.slot;
    if upTo == 0 {
      assert p.k.contacts[i := p.k.contacts[i]] == p.k.contacts;
      assert p.r.contacts[i := p.r.contacts[i]] == p.r.contacts;
    } else {
      LowerAxes(p, axes, upTo - 1);
      var a := axes[upTo - 1];
      if ContactAxis(a) {
        var before := FeedAll(p, NeutralAxes(axes, upTo - 1));
        FeedSnoc(p, NeutralAxes(axes, upTo - 1), Abs(a.code, a.minimum));
        LowerAxis(p, before, axes, upTo);
      }
    }
  }

  function EndedContact(c: Contact, ended: bool): Contact {
    if ended then c[TRACKING := -1] else c
  }

  lemma FeedHeading(p: Pair, i: int)
    requires p.Fits() && 0 <= i < |p.k.contacts| && TRACKING in p.k.contacts[i]
    requires p.k.announced == i ==> p.r.slot == i
    ensures var c := p.k.contacts[i];
            var shown := c[TRACKING] != -1;
            var q := FeedAll(p, Heading(i, -1));
            && Aligned(q)
            && q.k == p.k.(slot := i, contacts := p.k.contacts[i := c[TRACKING := -1]],
                           announced := if shown then i else p.k.announced)
            && q.r == p.r.(slot := if shown then i else p.r.slot,
                           contacts := p.r.contacts[i := EndedContact(p.r.contacts[i], shown)])
  {
    FeedTwo(p, SlotEvent(i), TrackingEvent(-1));
    var p1 := Feed(p, SlotEvent(i));
    assert p1 == Pair(p.k.(slot := i), p.r);
    FeedContact(p1, TRACKING, -1);
    assert p.r.contacts[i := p.r.contacts[i]] == p.r.contacts;
  }

  /** The slot part of the neutral frame, for one slot. */
  function NeutralSlot(axes: seq<AxisInfo>, i: nat): seq<TouchEvent> {
    Heading(i, -1) + NeutralAxes(axes, |axes|)
  }

  lemma AtTopEnded(c: Contact, axes: seq<AxisInfo>)
    requires AtTop(c, axes, 0)
    ensures AtTop(c[TRACKING := -1], axes, 0)
  {
  }

  /** Reader and kernel leave a slot together, whatever slot the reader was stuck on before. */
  lemma {:induction false} FeedSlot(p: Pair, axes: seq<AxisInfo>, i: nat)
    requires p.Fits() && i < |p.k.contacts| && DistinctAxes(axes) && CanAnnounce(axes, |p.k.contacts|)
    requires TRACKING in p.k.contacts[i] && AtTop(p.k.contacts[i], axes, 0)
    requires p.k.announced == i ==> p.r.slot == i
    ensures var c := p.k.contacts[i];
            FeedAll(p, NeutralSlot(axes, i))
            == Pair(p.k.(slot := i, announced := i,
                         contacts := p.k.contacts[i := Lowered(c[TRACKING := -1], axes, |axes|)]),
                    p.r.(slot := i,
                         contacts := p.r.contacts[i :=
                           Dropped(EndedContact(p.r.contacts[i], c[TRACKING] != -1), axes, |axes|)]))
  {
    hide Feed;
    var c := p.k.contacts[i];
    FeedConcat(p, Heading(i, -1), NeutralAxes(axes, |axes|));
    FeedHeading(p, i);
    AtTopEnded(c, axes);
    LowerAxes(FeedAll(p, Heading(i, -1)), axes, |axes|);
  }

  function LoweredContacts(contacts: seq<Contact>, axes: seq<AxisInfo>, upTo: nat): (r: seq<Contact>)
    ensures |r| == |contacts|
  {
    seq(|contacts|, i requires 0 <= i < |contacts| =>
      if i < upTo then Lowered(contacts[i][TRACKING := -1], axes, |axes|) else contacts[i])
  }

  function DroppedContacts(contacts: seq<Contact>, axes: seq<AxisInfo>, upTo: nat, ended: bool): (r: seq<Contact>)
    ensures |r| == |contacts|
  {
    seq(|contacts|, i requires 0 <= i < |contacts| =>
      if i < upTo then Dropped(EndedContact(contacts[i], ended), axes, |axes|) else contacts[i])
  }

  /** Contacts as the hidden frame leaves them: coordinates at the top, all ended or all started. */
  ghost predicate Prepared(contacts: seq<Contact>, axes: seq<AxisInfo>, started: bool) {
    forall i :: 0 <= i < |contacts| ==>
      TRACKING in contacts[i] && (started <==> contacts[i][TRACKING] != -1) && AtTop(contacts[i], axes, 0)
  }

  lemma {:induction false} FeedSlots(p: Pair, axes: seq<AxisInfo>, upTo: nat, started: bool)
    requires p.Fits() && upTo <= |p.k.contacts| && DistinctAxes(axes) && CanAnnounce(axes, |p.k.contacts|)
    requires p.k.announced == |p.k.contacts| - 1 && Prepared(p.k.contacts, axes, started)
    ensures var q := FeedAll(p, NeutralSlots(axes, upTo));
            && q.k == p.k.(slot := q.k.slot, announced := q.k.announced,
                           contacts := LoweredContacts(p.k.contacts, axes, upTo))
            && q.r == p.r.(slot := q.r.slot, contacts := DroppedContacts(p.r.contacts, axes, upTo, started))
            && (if upTo > 0 then q.k.slot == q.k.announced == q.r.slot == upTo - 1 else q == p)
  {
    hide Feed, Dropped, Lowered, AtTop;
    if upTo == 0 {
      assert LoweredContacts(p.k.contacts, axes, 0) == p.k.contacts;
      assert DroppedContacts(p.r.contacts, axes, 0, started) == p.r.contacts;
    } else {
      var i := upTo - 1;
      FeedSlots(p, axes, i, started);
      var before := FeedAll(p, NeutralSlots(axes, i));
      FeedConcat(p, NeutralSlots(axes, i), NeutralSlot(axes, i));
      FeedSlot(before, axes, i);
      assert LoweredContacts(p.k.contacts, axes, upTo)
          == before.k.contacts[i := Lowered(p.k.contacts[i][TRACKING := -1], axes, |axes|)];
      assert DroppedContacts(p.r.contacts, axes, upTo, started)
          == before.r.contacts[i := Dropped(EndedContact(p.r.contacts[i], started), axes, |axes|)];
    }
  }

  lemma FeedIdleKey(p: Pair, code: int)
    requires p.Fits() && p.k.keys == {}
    ensures Feed(p, TouchEvent(Key, code, 0)) == p
  {
    assert p.k.keys - {code} == p.k.keys;
  }

  lemma {:induction false} FeedNeutralKeys(p: Pair, keys: seq<int>, upTo: nat)
    requires p.Fits() && p.k.keys == {} && upTo <= |keys|
    ensures FeedAll(p, NeutralKeys(keys, upTo)) == p
  {
    hide Feed;
    if upTo > 0 {
      FeedNeutralKeys(p, keys, upTo - 1);
      if keys[upTo - 1] >= 325 {
        FeedSnoc(p, NeutralKeys(keys, upTo - 1), TouchEvent(Key, keys[upTo - 1], 0));
        FeedIdleKey(p, keys[upTo - 1]);
      }
    }
  }

  function DroppedGlobals(m: map<int, int>, axes: seq<AxisInfo>, upTo: nat): map<int, int>
    requires upTo <= |axes|
  {
    if upTo == 0 then m
    else
      var a := axes[upTo - 1];
      if a.code < SLOT && Ranged(a) then DroppedGlobals(m, axes, upTo - 1)[a.code := a.minimum]
      else DroppedGlobals(m, axes, upTo - 1)
  }

  ghost predicate GlobalsAtTop(m: map<int, int>, axes: seq<AxisInfo>, from: nat) {
    forall i :: from <= i < |axes| && axes[i].code < SLOT ==>
      axes[i].code in m && m[axes[i].code] == axes[i].maximum
  }

  lemma {:induction false} RaisedGlobals(m: map<int, int>, axes: seq<AxisInfo>, upTo: nat)
    requires DistinctAxes(axes) && upTo <= |axes|
    ensures forall i :: 0 <= i < upTo && axes[i].code < SLOT ==>
              axes[i].code in GlobalsAt(m, axes, upTo, true)
              && GlobalsAt(m, axes, upTo, true)[axes[i].code] == axes[i].maximum
  {
    if upTo > 0 {
      RaisedGlobals(m, axes, upTo - 1);
    }
  }

  lemma {:induction false} GlobalsStillAtTop(m: map<int, int>, axes: seq<AxisInfo>, upTo: nat)
    requires DistinctAxes(axes) && GlobalsAtTop(m, axes, 0) && upTo <= |axes|
    ensures GlobalsAtTop(GlobalsAt(m, axes, upTo, false), axes, upTo)
  {
    if upTo > 0 {
      GlobalsStillAtTop(m, axes, upTo - 1);
    }
  }

  lemma FeedGlobal(p: Pair, a: AxisInfo)
    requires p.Fits() && a.code < SLOT && a.code in p.k.axes && p.k.axes[a.code] == a.maximum
    requires a.minimum <= a.maximum
    ensures Feed(p, Abs(a.code, a.minimum))
         == Pair(p.k.(axes := p.k.axes[a.code := a.minimum]),
                 if Ranged(a) then p.r.(axes := p.r.axes[a.code := a.minimum]) else p.r)
  {
    var e := Abs(a.code, a.minimum);
    assert [e][1..] == [];
    assert Replay(p.r, [e]) == Replay(ApplyOne(p.r, e), []);
  }

  lemma {:induction false} FeedGlobals(p: Pair, axes: seq<AxisInfo>, upTo: nat)
    requires p.Fits() && DistinctAxes(axes) && GlobalsAtTop(p.k.axes, axes, 0) && upTo <= |axes|
    ensures FeedAll(p, GlobalEvents(axes, upTo, false))
         == Pair(p.k.(axes := GlobalsAt(p.k.axes, axes, upTo, false)),
                 p.r.(axes := DroppedGlobals(p.r.axes, axes, upTo)))
  {
    hide Feed;
    if upTo > 0 {
      FeedGlobals(p, axes, upTo - 1);
      var a := axes[upTo - 1];
      if a.code < SLOT {
        GlobalsStillAtTop(p.k.axes, axes, upTo - 1);
        FeedSnoc(p, GlobalEvents(axes, upTo - 1, false), Abs(a.code, a.minimum));
        FeedGlobal(FeedAll(p, GlobalEvents(axes, upTo - 1, false)), a);
      }
    }
  }

  /** The pair after the neutral frame, started from a prepared kernel. */
  function AfterNeutral(d: Descriptor, p: Pair, started: bool): Pair
    requires d.Valid()
  {
    var n := |p.k.contacts|;
    Pair(Kernel(n - 1, n - 1, {}, GlobalsAt(p.k.axes, d.axes, |d.axes|, false),
                LoweredContacts(p.k.contacts, d.axes, n)),
         Touch(n - 1, p.r.keys, DroppedGlobals(p.r.axes, d.axes, |d.axes|),
               DroppedContacts(p.r.contacts, d.axes, n, started)))
  }

  lemma NeutralResult(d: Descriptor, p: Pair, started: bool)
    requires d.Valid() && p.Fits() && |p.k.contacts| == d.Slots() && CanAnnounce(d.axes, d.Slots())
    requires p.k.keys == {} && p.k.announced == d.Slots() - 1
    requires Prepared(p.k.contacts, d.axes, started) && GlobalsAtTop(p.k.axes, d.axes, 0)
    requires DistinctAxes(d.axes)
    ensures FeedAll(p, NeutralFrame(d)) == AfterNeutral(d, p, started)
  {
    hide Feed, Descriptor.Valid;
    var keys := NeutralKeys(d.keys, |d.keys|);
    var slots := NeutralSlots(d.axes, d.Slots());
    var globals := GlobalEvents(d.axes, |d.axes|, false);
    FeedNeutralKeys(p, d.keys, |d.keys|);
    FeedSlots(p, d.axes, d.Slots(), started);
    FeedGlobals(FeedAll(p, slots), d.axes, |d.axes|);
    FeedConcat(p, slots, globals);
    FeedConcat(p, keys, slots + globals);
  }

  // ---- What the handoff promises ----

  ghost predicate AgreeContact(axes: seq<AxisInfo>, physical: Contact, seen: Contact) {
    && (Active(physical) || Active(seen) ==> TrackingOf(physical) == TrackingOf(seen))
    && forall j :: 0 <= j < |axes| && ContactAxis(axes[j]) && Ranged(axes[j]) ==>
         && axes[j].code in physical && axes[j].code in seen
         && physical[axes[j].code] == seen[axes[j].code]
  }

  ghost predicate AgreeGlobals(axes: seq<AxisInfo>, physical: map<int, int>, seen: map<int, int>) {
    forall j :: 0 <= j < |axes| && axes[j].code < SLOT && Ranged(axes[j]) ==>
      && axes[j].code in physical && axes[j].code in seen
      && physical[axes[j].code] == seen[axes[j].code]
  }

  /** Reader and kernel agree on slot, keys, every tracking identifier and every axis that can move. */
  ghost predicate Agree(axes: seq<AxisInfo>, p: Pair) {
    && p.Fits() && p.r.slot == p.k.announced && p.r.keys == p.k.keys
    && AgreeGlobals(axes, p.k.axes, p.r.axes)
    && forall i :: 0 <= i < |p.r.contacts| ==> AgreeContact(axes, p.k.contacts[i], p.r.contacts[i])
  }

  /** No press and no start of a contact. */
  predicate Harmless(e: TouchEvent) {
    (e.kind == Key ==> e.value == 0) && (e.kind == Absolute && e.code == TRACKING ==> e.value < 0)
  }

  predicate AllHarmless(events: seq<TouchEvent>) {
    forall i :: 0 <= i < |events| ==> Harmless(events[i])
  }

  lemma {:induction false} ShownHarmless(k: Kernel, events: seq<TouchEvent>)
    requires k.Fits() && AllHarmless(events)
    ensures AllHarmless(ShownAll(k, events))
    decreases |events|
  {
    if events != [] {
      ShownHarmless(k, events[..|events| - 1]);
    }
  }

  lemma {:induction false} NeutralAxesHarmless(axes: seq<AxisInfo>, upTo: nat)
    requires upTo <= |axes|
    ensures AllHarmless(NeutralAxes(axes, upTo))
  {
    if upTo > 0 {
      NeutralAxesHarmless(axes, upTo - 1);
    }
  }

  lemma {:induction false} RaisedAtTop(c: Contact, axes: seq<AxisInfo>, upTo: nat)
    requires DistinctAxes(axes) && upTo <= |axes|
    ensures forall j :: 0 <= j < upTo && ContactAxis(axes[j]) ==>
              axes[j].code in Raised(c, axes, upTo) && Raised(c, axes, upTo)[axes[j].code] == axes[j].maximum
    ensures TRACKING in c ==> TRACKING in Raised(c, axes, upTo) && Raised(c, axes, upTo)[TRACKING] == c[TRACKING]
  {
    if upTo > 0 {
      RaisedAtTop(c, axes, upTo - 1);
    }
  }

  lemma {:induction false} LoweredAgrees(c: Contact, seen: Contact, axes: seq<AxisInfo>, upTo: nat)
    requires DistinctAxes(axes) && upTo <= |axes|
    ensures forall j :: 0 <= j < upTo && ContactAxis(axes[j]) && Ranged(axes[j]) ==>
              && axes[j].code in Lowered(c, axes, upTo) && axes[j].code in Dropped(seen, axes, upTo)
              && Lowered(c, axes, upTo)[axes[j].code] == Dropped(seen, axes, upTo)[axes[j].code]
    ensures TrackingOf(Lowered(c, axes, upTo)) == TrackingOf(c)
    ensures TrackingOf(Dropped(seen, axes, upTo)) == TrackingOf(seen)
  {
    if upTo > 0 {
      LoweredAgrees(c, seen, axes, upTo - 1);
    }
  }

  lemma {:induction false} DroppedGlobalsAgree(m: map<int, int>, seen: map<int, int>, axes: seq<AxisInfo>, upTo: nat)
    requires DistinctAxes(axes) && upTo <= |axes|
    ensures forall j :: 0 <= j < upTo && axes[j].code < SLOT && Ranged(axes[j]) ==>
              && axes[j].code in GlobalsAt(m, axes, upTo, false) && axes[j].code in DroppedGlobals(seen, axes, upTo)
              && GlobalsAt(m, axes, upTo, false)[axes[j].code] == DroppedGlobals(seen, axes, upTo)[axes[j].code]
  {
    if upTo > 0 {
      DroppedGlobalsAgree(m, seen, axes, upTo - 1);
    }
  }

  lemma ValidIsDistinct(d: Descriptor)
    requires d.Valid()
    ensures DistinctAxes(d.axes)
  {
    forall i | 0 <= i < |d.axes| ensures d.axes[i].minimum <= d.axes[i].maximum {
      assert Descriptor.SoundAxis(d.axes[i]);
    }
  }

  lemma RaisedArePrepared(contacts: seq<Contact>, axes: seq<AxisInfo>)
    requires DistinctAxes(axes)
    ensures Prepared(RaisedContacts(contacts, axes, |contacts|), axes, false)
  {
    var raised := RaisedContacts(contacts, axes, |contacts|);
    forall i | 0 <= i < |raised|
      ensures TRACKING in raised[i] && raised[i][TRACKING] == -1 && AtTop(raised[i], axes, 0)
    {
      RaisedAtTop(contacts[i][TRACKING := -1], axes, |axes|);
    }
  }

  lemma NeutralizedIsPrepared(d: Descriptor, k: Kernel)
    requires d.Valid() && Drives(d, k)
    ensures Prepared(Neutralized(d, k).contacts, d.axes, false)
    ensures GlobalsAtTop(Neutralized(d, k).axes, d.axes, 0)
  {
    ValidIsDistinct(d);
    hide Descriptor.Valid, Prepared;
    RaisedArePrepared(k.contacts, d.axes);
    RaisedGlobals(k.axes, d.axes, |d.axes|);
  }

  lemma SynchronizableCanChange(d: Descriptor)
    requires d.Valid() && Synchronizable(d)
    ensures CanChange(d.axes, |d.axes|)
  {
    var i :| 0 <= i < |d.axes| && (d.axes[i].code == 53 || d.axes[i].code == 54)
             && d.axes[i].maximum - d.axes[i].minimum > 2 * d.axes[i].fuzz;
    assert Descriptor.SoundAxis(d.axes[i]);
  }

  /** The kernel and the reader after hidden frame, ungrab and neutral frame. */
  function AfterHandoff(d: Descriptor, k: Kernel, r: Touch): Pair
    requires d.Valid() && k.Fits() && r.Fits() && |r.contacts| == |k.contacts|
  {
    FeedAll(Pair(AbsorbAll(k, HiddenFrame(d)), r), NeutralFrame(d))
  }

  lemma NeutralAgrees(d: Descriptor, p: Pair, started: bool)
    requires d.Valid() && DistinctAxes(d.axes) && p.Fits() && p.r.keys == {} && 0 < |p.k.contacts|
    requires Prepared(p.k.contacts, d.axes, started)
    requires started || forall i :: 0 <= i < |p.r.contacts| ==> !Active(p.r.contacts[i])
    ensures Agree(d.axes, AfterNeutral(d, p, started))
  {
    hide Descriptor.Valid;
    var q := AfterNeutral(d, p, started);
    DroppedGlobalsAgree(p.k.axes, p.r.axes, d.axes, |d.axes|);
    forall i | 0 <= i < |q.r.contacts| ensures AgreeContact(d.axes, q.k.contacts[i], q.r.contacts[i]) {
      LoweredAgrees(p.k.contacts[i][TRACKING := -1], EndedContact(p.r.contacts[i], started), d.axes, |d.axes|);
    }
  }

  lemma HandoffAgreesWhen(d: Descriptor, k: Kernel, r: Touch)
    requires d.Valid() && Drives(d, k) && CanAnnounce(d.axes, d.Slots())
    requires r.Fits() && |r.contacts| == |k.contacts| && Idle(r)
    ensures Agree(d.axes, AfterHandoff(d, k, r))
  {
    ValidIsDistinct(d);
    HiddenNeutralizes(d, k);
    NeutralizedIsPrepared(d, k);
    hide Descriptor.Valid, Drives;
    var p := Pair(Neutralized(d, k), r);
    NeutralResult(d, p, false);
    NeutralAgrees(d, p, false);
  }

  /** Every accepted device: hidden frame, ungrab and neutral frame put every reader that was idle when the
      grab began back in agreement with the kernel, and show it no press and no contact start. */
  lemma HandoffResynchronizes(d: Descriptor, k: Kernel, r: Touch)
    requires d.Valid() && Synchronizable(d) && Drives(d, k)
    requires r.Fits() && |r.contacts| == |k.contacts| && Idle(r)
    ensures var grabbed := AbsorbAll(k, HiddenFrame(d));
            var shown := ShownAll(grabbed, NeutralFrame(d));
            && Agree(d.axes, Pair(AbsorbAll(grabbed, NeutralFrame(d)), Replay(r, shown)))
            && AllHarmless(shown)
  {
    SynchronizableCanChange(d);
    HandoffAgreesWhen(d, k, r);
    var grabbed := AbsorbAll(k, HiddenFrame(d));
    FeedAllIsReplay(Pair(grabbed, r), NeutralFrame(d));
    NeutralFrameHarmless(d);
    ShownHarmless(grabbed, NeutralFrame(d));
  }

  lemma {:induction false} NeutralKeysHarmless(keys: seq<int>, upTo: nat)
    requires upTo <= |keys|
    ensures AllHarmless(NeutralKeys(keys, upTo))
  {
    if upTo > 0 {
      NeutralKeysHarmless(keys, upTo - 1);
    }
  }

  lemma {:induction false} NeutralSlotsHarmless(axes: seq<AxisInfo>, upTo: nat)
    ensures AllHarmless(NeutralSlots(axes, upTo))
  {
    if upTo > 0 {
      NeutralSlotsHarmless(axes, upTo - 1);
      NeutralAxesHarmless(axes, |axes|);
    }
  }

  lemma {:induction false} GlobalsHarmless(axes: seq<AxisInfo>, upTo: nat)
    requires upTo <= |axes|
    ensures AllHarmless(GlobalEvents(axes, upTo, false))
  {
    if upTo > 0 {
      GlobalsHarmless(axes, upTo - 1);
    }
  }

  lemma NeutralFrameHarmless(d: Descriptor)
    requires d.Valid()
    ensures AllHarmless(NeutralFrame(d))
  {
    NeutralKeysHarmless(d.keys, |d.keys|);
    NeutralSlotsHarmless(d.axes, d.Slots());
    GlobalsHarmless(d.axes, |d.axes|);
  }

  lemma FeedAgrees(axes: seq<AxisInfo>, p: Pair, e: TouchEvent)
    requires Agree(axes, p)
    ensures Agree(axes, Feed(p, e))
  {
    if e.kind == Absolute && e.code > SLOT {
      if e.code in p.k.contacts[p.k.slot] {
        FeedWatched(p, e.code, e.value);
      }
    } else {
      var shown := Shown(p.k, e);
      if shown != [] {
        assert shown[1..] == [];
        assert Replay(p.r, shown) == Replay(ApplyOne(p.r, e), []);
      }
    }
  }

  lemma FeedWatched(p: Pair, code: int, value: int)
    requires p.Fits() && p.r.slot == p.k.announced && code > SLOT && code in p.k.contacts[p.k.slot]
    ensures var i := p.k.slot;
            var c := p.k.contacts[i];
            var q := Feed(p, Abs(code, value));
            if c[code] == value then q == p
            else q == Pair(p.k.(contacts := p.k.contacts[i := c[code := value]], announced := i),
                           p.r.(slot := i, contacts := p.r.contacts[i := p.r.contacts[i][code := value]]))
  {
    FeedContact(p, code, value);
    if p.k.contacts[p.k.slot][code] == value {
      assert p.k.contacts[p.k.slot][code := value] == p.k.contacts[p.k.slot];
      assert p.k.contacts[p.k.slot := p.k.contacts[p.k.slot]] == p.k.contacts;
    }
  }

  /** Once in agreement, a reader stays in agreement under whatever the hardware reports next. */
  lemma {:induction false} StaysInAgreement(axes: seq<AxisInfo>, p: Pair, later: seq<TouchEvent>)
    requires Agree(axes, p)
    ensures Agree(axes, Pair(AbsorbAll(p.k, later), Replay(p.r, ShownAll(p.k, later))))
    decreases |later|
  {
    FeedAllIsReplay(p, later);
    if later != [] {
      var before := later[..|later| - 1];
      StaysInAgreement(axes, p, before);
      FeedAllIsReplay(p, before);
      FeedAgrees(axes, FeedAll(p, before), later[|later| - 1]);
    }
  }

  // ---- Repairing a reader a legacy version left behind ----

  function StartedContacts(contacts: seq<Contact>, id: int, upTo: nat): (r: seq<Contact>)
    ensures |r| == |contacts|
  {
    seq(|contacts|, i requires 0 <= i < |contacts| => if i < upTo then contacts[i][TRACKING := id] else contacts[i])
  }

  lemma {:induction false} StartSlots(k: Kernel, id: int, upTo: nat)
    requires k.Fits() && id >= 0 && upTo <= |k.contacts|
    requires forall i :: 0 <= i < |k.contacts| ==> TRACKING in k.contacts[i] && k.contacts[i][TRACKING] == -1
    ensures var r := AbsorbAll(k, LegacyStarts(id, upTo));
            && r == k.(slot := r.slot, announced := r.announced, contacts := StartedContacts(k.contacts, id, upTo))
            && (upTo > 0 ==> r.slot == r.announced == upTo - 1)
  {
    if upTo == 0 {
      assert StartedContacts(k.contacts, id, 0) == k.contacts;
    } else {
      var i := upTo - 1;
      StartSlots(k, id, i);
      var before := AbsorbAll(k, LegacyStarts(id, i));
      AbsorbConcat(k, LegacyStarts(id, i), Heading(i, id));
      AbsorbTwo(before, SlotEvent(i), TrackingEvent(id));
      AbsorbContact(Absorb(before, SlotEvent(i)), TRACKING, id);
      assert StartedContacts(k.contacts, id, upTo) == before.contacts[i := k.contacts[i][TRACKING := id]];
    }
  }

  function RepairFrame(d: Descriptor): seq<TouchEvent>
    requires d.Valid()
  {
    HiddenFrame(d) + LegacyStarts(RepairId(d), d.Slots())
  }

  lemma RepairPrepares(d: Descriptor, k: Kernel)
    requires d.Valid() && Drives(d, k) && CanAnnounce(d.axes, d.Slots())
    ensures var q := AbsorbAll(k, RepairFrame(d));
            && q.keys == {} && q.announced == d.Slots() - 1 && |q.contacts| == d.Slots()
            && Prepared(q.contacts, d.axes, true) && GlobalsAtTop(q.axes, d.axes, 0)
  {
    HiddenNeutralizes(d, k);
    NeutralizedIsPrepared(d, k);
    AbsorbConcat(k, HiddenFrame(d), LegacyStarts(RepairId(d), d.Slots()));
    hide Descriptor.Valid, Drives, Absorb, HiddenFrame, AtTop, CanAnnounce;
    StartedIsPrepared(Neutralized(d, k), d.axes, RepairId(d), d.Slots());
  }

  lemma StartedIsPrepared(k: Kernel, axes: seq<AxisInfo>, id: int, slots: nat)
    requires id >= 0 && k.Fits() && |k.contacts| == slots && Prepared(k.contacts, axes, false)
    ensures var q := AbsorbAll(k, LegacyStarts(id, slots));
            && q.keys == k.keys && q.announced == slots - 1 && |q.contacts| == slots && q.axes == k.axes
            && Prepared(q.contacts, axes, true)
  {
    hide Absorb;
    StartSlots(k, id, slots);
    var q := AbsorbAll(k, LegacyStarts(id, slots));
    forall i | 0 <= i < |q.contacts| ensures AtTop(q.contacts[i], axes, 0) {
      assert AtTop(k.contacts[i], axes, 0);
    }
  }

  lemma RepairedPair(d: Descriptor, p: Pair)
    requires d.Valid() && p.Fits() && |p.k.contacts| == d.Slots() && CanAnnounce(d.axes, d.Slots())
    requires p.k.keys == {} && p.k.announced == d.Slots() - 1
    requires Prepared(p.k.contacts, d.axes, true) && GlobalsAtTop(p.k.axes, d.axes, 0) && DistinctAxes(d.axes)
    ensures var q := FeedAll(p, NeutralFrame(d));
            && q.r.slot == q.k.announced && q.r.keys == p.r.keys && q.k.keys == {}
            && |q.r.contacts| == |p.r.contacts| == |q.k.contacts|
            && forall i :: 0 <= i < |q.r.contacts| ==>
                 && TRACKING in q.r.contacts[i] && q.r.contacts[i][TRACKING] == -1
                 && AgreeContact(d.axes, q.k.contacts[i], q.r.contacts[i])
  {
    hide Descriptor.Valid, AgreeContact, Prepared, Feed, Absorb, GlobalsAtTop;
    NeutralResult(d, p, true);
    forall i | 0 <= i < |p.r.contacts| {
      RepairedContact(p.k.contacts[i], p.r.contacts[i], d.axes);
    }
  }

  /** From any reader state, ghost contacts included, the repair ends every contact on the right slot and
      shows no press and no contact start. */
  lemma LegacyRepair(d: Descriptor, k: Kernel, r: Touch)
    requires d.Valid() && Synchronizable(d) && Drives(d, k)
    requires r.Fits() && |r.contacts| == |k.contacts|
    ensures var grabbed := AbsorbAll(k, RepairFrame(d));
            var shown := ShownAll(grabbed, NeutralFrame(d));
            var after := AbsorbAll(grabbed, NeutralFrame(d));
            var reader := Replay(r, shown);
            && reader.slot == after.announced && reader.keys == r.keys && after.keys == {}
            && (forall i :: 0 <= i < |r.contacts| ==>
                  && TRACKING in reader.contacts[i] && reader.contacts[i][TRACKING] == -1
                  && AgreeContact(d.axes, after.contacts[i], reader.contacts[i]))
            && AllHarmless(shown)
  {
    SynchronizableCanChange(d);
    RepairPrepares(d, k);
    ValidIsDistinct(d);
    NeutralFrameHarmless(d);
    hide Descriptor.Valid, Drives, RepairFrame, NeutralFrame, Synchronizable, GlobalsAtTop, AgreeContact, Prepared,
         Feed, Absorb, AllHarmless;
    var grabbed := AbsorbAll(k, RepairFrame(d));
    ShownHarmless(grabbed, NeutralFrame(d));
    RepairedPair(d, Pair(grabbed, r));
    FeedAllIsReplay(Pair(grabbed, r), NeutralFrame(d));
  }

  lemma RepairedContact(c: Contact, seen: Contact, axes: seq<AxisInfo>)
    requires DistinctAxes(axes)
    ensures var reader := Dropped(EndedContact(seen, true), axes, |axes|);
            && TRACKING in reader && reader[TRACKING] == -1
            && AgreeContact(axes, Lowered(c[TRACKING := -1], axes, |axes|), reader)
  {
    LoweredAgrees(c[TRACKING := -1], EndedContact(seen, true), axes, |axes|);
    DroppedKeepsTracking(EndedContact(seen, true), axes, |axes|);
  }

  lemma {:induction false} DroppedKeepsTracking(c: Contact, axes: seq<AxisInfo>, upTo: nat)
    requires upTo <= |axes| && TRACKING in c
    ensures TRACKING in Dropped(c, axes, upTo) && Dropped(c, axes, upTo)[TRACKING] == c[TRACKING]
  {
    if upTo > 0 {
      DroppedKeepsTracking(c, axes, upTo - 1);
    }
  }

  // ---- Exactly which devices the handoff resynchronises ----

  ghost predicate Resynchronizes(d: Descriptor)
    requires d.Valid()
  {
    forall k: Kernel, r: Touch ::
      Drives(d, k) && r.Fits() && |r.contacts| == |k.contacts| && Idle(r) ==> Agree(d.axes, AfterHandoff(d, k, r))
  }

  ghost predicate AllFlat(axes: seq<AxisInfo>) {
    forall i :: 0 <= i < |axes| && ContactAxis(axes[i]) ==> axes[i].minimum == axes[i].maximum
  }

  lemma QuietAxis(p: Pair, a: AxisInfo)
    requires p.Fits() && ContactAxis(a) && a.minimum == a.maximum
    requires a.code in p.k.contacts[p.k.slot] && p.k.contacts[p.k.slot][a.code] == a.minimum
    ensures Absorb(p.k, Abs(a.code, a.minimum)) == p.k && Feed(p, Abs(a.code, a.minimum)) == p
  {
  }

  lemma {:induction false} QuietAxes(p: Pair, axes: seq<AxisInfo>, upTo: nat)
    requires p.Fits() && upTo <= |axes| && AllFlat(axes) && AtTop(p.k.contacts[p.k.slot], axes, 0)
    ensures AbsorbAll(p.k, HiddenAxes(axes, upTo)) == p.k
    ensures FeedAll(p, NeutralAxes(axes, upTo)) == p
  {
    if upTo > 0 {
      QuietAxes(p, axes, upTo - 1);
      var a := axes[upTo - 1];
      if ContactAxis(a) {
        QuietAxis(p, a);
        hide Feed, Absorb;
        AbsorbConcat(p.k, HiddenAxes(axes, upTo - 1), [Abs(a.code, a.minimum), Abs(a.code, a.maximum)]);
        AbsorbTwo(p.k, Abs(a.code, a.minimum), Abs(a.code, a.maximum));
        FeedSnoc(p, NeutralAxes(axes, upTo - 1), Abs(a.code, a.minimum));
      }
    }
  }

  lemma QuietHeading(p: Pair, i: int)
    requires p.Fits() && 0 <= i < |p.k.contacts|
    requires TRACKING in p.k.contacts[i] && p.k.contacts[i][TRACKING] == -1
    ensures AbsorbAll(p.k, Heading(i, -1)) == p.k.(slot := i)
    ensures FeedAll(p, Heading(i, -1)) == p.(k := p.k.(slot := i))
  {
    AbsorbTwo(p.k, SlotEvent(i), TrackingEvent(-1));
    FeedTwo(p, SlotEvent(i), TrackingEvent(-1));
  }

  lemma {:induction false} QuietSlots(p: Pair, axes: seq<AxisInfo>, upTo: nat)
    requires p.Fits() && upTo <= |p.k.contacts| && AllFlat(axes) && Prepared(p.k.contacts, axes, false)
    ensures var k := AbsorbAll(p.k, HiddenSlots(axes, upTo)); k == p.k.(slot := k.slot)
    ensures var q := FeedAll(p, NeutralSlots(axes, upTo)); q == Pair(p.k.(slot := q.k.slot), p.r)
  {
    hide Feed, Absorb;
    if upTo > 0 {
      var i := upTo - 1;
      QuietSlots(p, axes, i);
      var k := AbsorbAll(p.k, HiddenSlots(axes, i));
      AbsorbConcat(p.k, HiddenSlots(axes, i), Heading(i, -1) + HiddenAxes(axes, |axes|));
      AbsorbConcat(k, Heading(i, -1), HiddenAxes(axes, |axes|));
      QuietHeading(Pair(k, p.r), i);
      QuietAxes(Pair(k.(slot := i), p.r), axes, |axes|);
      var q := FeedAll(p, NeutralSlots(axes, i));
      FeedConcat(p, NeutralSlots(axes, i), NeutralSlot(axes, i));
      FeedConcat(q, Heading(i, -1), NeutralAxes(axes, |axes|));
      QuietHeading(q, i);
      QuietAxes(q.(k := q.k.(slot := i)), axes, |axes|);
    }
  }

  /** A kernel resting in slot 0 and an idle reader whose last word was slot 1. */
  function RestingKernel(d: Descriptor): Kernel
    requires d.Valid()
  {
    Kernel(0, 0, {}, GlobalsAt(map[], d.axes, |d.axes|, true),
           seq(d.Slots(), _ => Raised(map[TRACKING := -1], d.axes, |d.axes|)))
  }

  function StaleReader(d: Descriptor): Touch
    requires d.Valid()
  {
    Touch(1, {}, map[], seq(d.Slots(), _ => map[]))
  }

  lemma {:induction false} SetsGlobals(m: map<int, int>, axes: seq<AxisInfo>, upTo: nat)
    requires upTo <= |axes|
    ensures forall i :: 0 <= i < upTo && axes[i].code < SLOT ==> axes[i].code in GlobalsAt(m, axes, upTo, true)
  {
    if upTo > 0 {
      SetsGlobals(m, axes, upTo - 1);
    }
  }

  lemma RestingIsPrepared(d: Descriptor)
    requires d.Valid() && DistinctAxes(d.axes)
    ensures Drives(d, RestingKernel(d)) && Prepared(RestingKernel(d).contacts, d.axes, false)
  {
    hide Descriptor.Valid, Raised, GlobalsAt;
    RaisedAtTop(map[TRACKING := -1], d.axes, |d.axes|);
    SetsGlobals(map[], d.axes, |d.axes|);
  }

  lemma StaleHidden(d: Descriptor, k: Kernel)
    requires d.Valid() && DistinctAxes(d.axes) && AllFlat(d.axes)
    requires Drives(d, k) && k.keys == {} && Prepared(k.contacts, d.axes, false)
    ensures var q := AbsorbAll(k, HiddenFrame(d));
            && q == k.(slot := q.slot, axes := q.axes) && GlobalsAtTop(q.axes, d.axes, 0)
  {
    hide Absorb, Descriptor.Valid, Raised, AtTop;
    var keys := HiddenKeys(d.keys, |d.keys|);
    var slots := HiddenSlots(d.axes, d.Slots());
    var globals := GlobalEvents(d.axes, |d.axes|, true);
    ReleaseHiddenKeys(k, d.keys, |d.keys|);
    assert k.keys - Named(d.keys[..|d.keys|]) == {};
    QuietSlots(Pair(k, Touch(0, {}, map[], k.contacts)), d.axes, d.Slots());
    SetGlobals(AbsorbAll(k, slots), d.axes, |d.axes|, true);
    RaisedGlobals(k.axes, d.axes, |d.axes|);
    AbsorbConcat(k, slots, globals);
    AbsorbConcat(k, keys, slots + globals);
  }

  lemma StaleNeutral(d: Descriptor, p: Pair)
    requires d.Valid() && DistinctAxes(d.axes) && AllFlat(d.axes) && p.Fits() && |p.k.contacts| == d.Slots()
    requires p.k.keys == {} && Prepared(p.k.contacts, d.axes, false) && GlobalsAtTop(p.k.axes, d.axes, 0)
    ensures var q := FeedAll(p, NeutralFrame(d)); q.r.slot == p.r.slot && q.k.announced == p.k.announced
  {
    hide Feed;
    var keys := NeutralKeys(d.keys, |d.keys|);
    var slots := NeutralSlots(d.axes, d.Slots());
    var globals := GlobalEvents(d.axes, |d.axes|, false);
    FeedNeutralKeys(p, d.keys, |d.keys|);
    QuietSlots(p, d.axes, d.Slots());
    FeedGlobals(FeedAll(p, slots), d.axes, |d.axes|);
    FeedConcat(p, slots, globals);
    FeedConcat(p, keys, slots + globals);
  }

  lemma StaleSlotSurvives(d: Descriptor)
    requires d.Valid() && !CanChange(d.axes, |d.axes|) && d.Slots() > 1
    ensures !Resynchronizes(d)
  {
    ValidIsDistinct(d);
    var k := RestingKernel(d);
    var r := StaleReader(d);
    assert AllFlat(d.axes);
    RestingIsPrepared(d);
    StaleHidden(d, k);
    StaleNeutral(d, Pair(AbsorbAll(k, HiddenFrame(d)), r));
    assert !Agree(d.axes, AfterHandoff(d, k, r));
  }

  /** The handoff resynchronises every idle reader exactly when some coordinate of a contact can change or
      the device has a single slot; the refusal in the code demands the former. */
  lemma ResynchronizesExactlyWhen(d: Descriptor)
    requires d.Valid()
    ensures Resynchronizes(d) <==> CanChange(d.axes, |d.axes|) || d.Slots() == 1
  {
    if CanAnnounce(d.axes, d.Slots()) {
      forall k: Kernel, r: Touch | Drives(d, k) && r.Fits() && |r.contacts| == |k.contacts| && Idle(r)
        ensures Agree(d.axes, AfterHandoff(d, k, r)) {
        HandoffAgreesWhen(d, k, r);
      }
    } else {
      StaleSlotSurvives(d);
    }
  }

  // ---- Building the frames ----

  lemma SoundPair(d: Descriptor, a: TouchEvent, b: TouchEvent)
    requires d.Valid() && d.Allows(a) && d.Allows(b) && a.kind == b.kind == Absolute
    ensures Sound(d, [a, b])
  {
    SoundOne(d, a);
    SoundOne(d, b);
  }

  lemma AxisSound(d: Descriptor, i: nat)
    requires d.Valid() && i < |d.axes|
    ensures Sound(d, [Abs(d.axes[i].code, d.axes[i].minimum)]) && Sound(d, [Abs(d.axes[i].code, d.axes[i].maximum)])
  {
    FindUnique(d, d.axes[i]);
    assert Descriptor.SoundAxis(d.axes[i]);
    SoundOne(d, Abs(d.axes[i].code, d.axes[i].minimum));
    SoundOne(d, Abs(d.axes[i].code, d.axes[i].maximum));
  }

  lemma {:induction false} AxesSound(d: Descriptor, upTo: nat)
    requires d.Valid() && upTo <= |d.axes|
    ensures Sound(d, HiddenAxes(d.axes, upTo)) && Sound(d, NeutralAxes(d.axes, upTo))
    ensures Sound(d, GlobalEvents(d.axes, upTo, true)) && Sound(d, GlobalEvents(d.axes, upTo, false))
  {
    hide Descriptor.Valid, Sound;
    if upTo == 0 {
      SoundNothing(d);
    } else {
      AxesSound(d, upTo - 1);
      AxisSound(d, upTo - 1);
      var a := d.axes[upTo - 1];
      var low, high := [Abs(a.code, a.minimum)], [Abs(a.code, a.maximum)];
      SoundConcat(d, low, high);
      assert low + high == [Abs(a.code, a.minimum), Abs(a.code, a.maximum)];
      SoundConcat(d, HiddenAxes(d.axes, upTo - 1), low + high);
      SoundConcat(d, NeutralAxes(d.axes, upTo - 1), low);
      SoundConcat(d, GlobalEvents(d.axes, upTo - 1, true), high);
      SoundConcat(d, GlobalEvents(d.axes, upTo - 1, false), low);
    }
  }

  lemma SoundNothing(d: Descriptor)
    ensures Sound(d, [])
  {
  }

  lemma {:induction false} SlotsSound(d: Descriptor, id: int, upTo: nat)
    requires d.Valid() && upTo <= d.Slots() && d.Allows(TrackingEvent(id))
    ensures Sound(d, HiddenSlots(d.axes, upTo)) && Sound(d, NeutralSlots(d.axes, upTo))
    ensures Sound(d, LegacyStarts(id, upTo))
  {
    if upTo > 0 {
      SlotsSound(d, id, upTo - 1);
      AxesSound(d, |d.axes|);
      SoundPair(d, SlotEvent(upTo - 1), TrackingEvent(-1));
      SoundPair(d, SlotEvent(upTo - 1), TrackingEvent(id));
      hide Descriptor.Valid, Descriptor.Allows, HiddenAxes, NeutralAxes;
      SoundConcat(d, Heading(upTo - 1, -1), HiddenAxes(d.axes, |d.axes|));
      SoundConcat(d, Heading(upTo - 1, -1), NeutralAxes(d.axes, |d.axes|));
      SoundConcat(d, HiddenSlots(d.axes, upTo - 1), Heading(upTo - 1, -1) + HiddenAxes(d.axes, |d.axes|));
      SoundConcat(d, NeutralSlots(d.axes, upTo - 1), Heading(upTo - 1, -1) + NeutralAxes(d.axes, |d.axes|));
      SoundConcat(d, LegacyStarts(id, upTo - 1), Heading(upTo - 1, id));
    }
  }

  lemma {:induction false} ReleasedKeysSound(d: Descriptor, upTo: nat)
    requires d.Valid() && upTo <= |d.keys|
    ensures Sound(d, HiddenKeys(d.keys, upTo)) && Sound(d, NeutralKeys(d.keys, upTo))
  {
    if upTo > 0 {
      ReleasedKeysSound(d, upTo - 1);
      SoundOne(d, TouchEvent(Key, d.keys[upTo - 1], 0));
      hide Descriptor.Valid, Descriptor.Allows;
      SoundConcat(d, HiddenKeys(d.keys, upTo - 1), [TouchEvent(Key, d.keys[upTo - 1], 0)]);
      SoundConcat(d, NeutralKeys(d.keys, upTo - 1), [TouchEvent(Key, d.keys[upTo - 1], 0)]);
    }
  }

  /** The frames name only what the device announced, so validating their parts never fails. */
  lemma FramesSound(d: Descriptor)
    requires d.Valid()
    ensures Sound(d, HiddenFrame(d)) && Sound(d, NeutralFrame(d))
    ensures d.Allows(TrackingEvent(RepairId(d))) ==> Sound(d, RepairFrame(d))
  {
    var id := if d.Allows(TrackingEvent(RepairId(d))) then RepairId(d) else -1;
    ReleasedKeysSound(d, |d.keys|);
    SlotsSound(d, id, d.Slots());
    AxesSound(d, |d.axes|);
    var n := d.Slots();
    hide Descriptor.Valid, Descriptor.Allows;
    SoundConcat(d, HiddenSlots(d.axes, n), GlobalEvents(d.axes, |d.axes|, true));
    SoundConcat(d, HiddenKeys(d.keys, |d.keys|), HiddenSlots(d.axes, n) + GlobalEvents(d.axes, |d.axes|, true));
    SoundConcat(d, NeutralSlots(d.axes, n), GlobalEvents(d.axes, |d.axes|, false));
    SoundConcat(d, NeutralKeys(d.keys, |d.keys|), NeutralSlots(d.axes, n) + GlobalEvents(d.axes, |d.axes|, false));
    SoundConcat(d, HiddenFrame(d), LegacyStarts(id, n));
  }

  const PART := 256

  /** Validates a frame in parts small enough for the frame limit. */
  method ValidateParts(d: Descriptor, events: seq<TouchEvent>) returns (ok: bool)
    ensures ok <==> Sound(d, events)
  {
    hide Descriptor.Allows, ValidTouchEvent;
    ok := true;
    var at := 0;
    while at < |events|
      invariant 0 <= at <= |events|
      invariant ok <==> Sound(d, events[..at])
    {
      var end := if at + PART <= |events| then at + PART else |events|;
      assert events[..end] == events[..at] + events[at..end];
      assert Sound(d, events[..end]) <==> Sound(d, events[..at]) && Sound(d, events[at..end]) by {
        SplitSound(d, events[..at], events[at..end]);
      }
      ok := ok && d.AllowsFrame(events[at..end]);
      at := end;
    }
    assert events[..at] == events;
  }

  lemma SplitSound(d: Descriptor, a: seq<TouchEvent>, b: seq<TouchEvent>)
    ensures Sound(d, a + b) <==> Sound(d, a) && Sound(d, b)
  {
    hide Descriptor.Allows, ValidTouchEvent;
    if Sound(d, a + b) {
      forall i | 0 <= i < |a| ensures d.Allows(a[i]) && ValidTouchEvent(a[i]) {
        assert (a + b)[i] == a[i];
      }
      forall i | 0 <= i < |b| ensures d.Allows(b[i]) && ValidTouchEvent(b[i]) {
        assert (a + b)[|a| + i] == b[i];
      }
    }
  }

  method HandoffFrames(d: Descriptor) returns (r: Option<(seq<TouchEvent>, seq<TouchEvent>)>)
    ensures r.Some? <==> d.Valid() && Synchronizable(d)
    ensures r.Some? ==> r.value == (HiddenFrame(d), NeutralFrame(d))
  {
    var valid := Validate(d);
    if !valid || !Synchronizable(d) {
      return None;
    }
    hide Descriptor.Valid, Descriptor.Allows, Synchronizable, HiddenSlots, NeutralSlots;
    var hiddenKeys, neutralKeys := KeyFrames(d.keys);
    var hiddenSlots, neutralSlots := SlotFrames(d.axes, d.Slots());
    var hiddenGlobals: seq<TouchEvent>, neutralGlobals: seq<TouchEvent> := [], [];
    for i := 0 to |d.axes|
      invariant hiddenGlobals == GlobalEvents(d.axes, i, true) && neutralGlobals == GlobalEvents(d.axes, i, false)
    {
      if d.axes[i].code < SLOT {
        hiddenGlobals := hiddenGlobals + [Abs(d.axes[i].code, d.axes[i].maximum)];
        neutralGlobals := neutralGlobals + [Abs(d.axes[i].code, d.axes[i].minimum)];
      }
    }
    var hidden := hiddenKeys + (hiddenSlots + hiddenGlobals);
    var neutral := neutralKeys + (neutralSlots + neutralGlobals);
    FramesSound(d);
    var hiddenOk := ValidateParts(d, hidden);
    var neutralOk := ValidateParts(d, neutral);
    if !hiddenOk || !neutralOk {
      return None;
    }
    return Some((hidden, neutral));
  }

  method KeyFrames(keys: seq<int>) returns (hidden: seq<TouchEvent>, neutral: seq<TouchEvent>)
    ensures hidden == HiddenKeys(keys, |keys|) && neutral == NeutralKeys(keys, |keys|)
  {
    hidden, neutral := [], [];
    for i := 0 to |keys|
      invariant hidden == HiddenKeys(keys, i) && neutral == NeutralKeys(keys, i)
    {
      hidden := hidden + [TouchEvent(Key, keys[i], 0)];
      if keys[i] >= 325 {
        neutral := neutral + [TouchEvent(Key, keys[i], 0)];
      }
    }
  }

  method SlotFrames(axes: seq<AxisInfo>, slots: nat) returns (hidden: seq<TouchEvent>, neutral: seq<TouchEvent>)
    ensures hidden == HiddenSlots(axes, slots) && neutral == NeutralSlots(axes, slots)
  {
    hidden, neutral := [], [];
    for slot := 0 to slots
      invariant hidden == HiddenSlots(axes, slot) && neutral == NeutralSlots(axes, slot)
    {
      var high: seq<TouchEvent>, low: seq<TouchEvent> := [], [];
      for i := 0 to |axes|
        invariant high == HiddenAxes(axes, i) && low == NeutralAxes(axes, i)
      {
        if ContactAxis(axes[i]) {
          high := high + [Abs(axes[i].code, axes[i].minimum), Abs(axes[i].code, axes[i].maximum)];
          low := low + [Abs(axes[i].code, axes[i].minimum)];
        }
      }
      hidden := hidden + (Heading(slot, -1) + high);
      neutral := neutral + (Heading(slot, -1) + low);
    }
  }

  /** What is written while grabbed and what is written after the ungrab. */
  method FinishHandoff(d: Descriptor, repair: bool) returns (r: Option<(seq<TouchEvent>, seq<TouchEvent>)>)
    ensures r.Some? <==> d.Valid() && Synchronizable(d)
                         && (repair ==> RepairId(d) <= Find(d.axes, TRACKING).value.maximum)
    ensures r.Some? ==> r.value == (if repair then RepairFrame(d) else HiddenFrame(d), NeutralFrame(d))
  {
    hide Descriptor.Valid, RepairFrame, HiddenFrame, NeutralFrame;
    r := HandoffFrames(d);
    if r.Some? && repair {
      var extended := StartContacts(d, r.value.0);
      r := if extended.Some? then Some((extended.value, r.value.1)) else None;
    }
  }

  /** The repair extends the hidden frame by a contact in every slot, so that the neutral frame ends them all. */
  method StartContacts(d: Descriptor, hidden: seq<TouchEvent>) returns (r: Option<seq<TouchEvent>>)
    requires d.Valid() && Synchronizable(d) && hidden == HiddenFrame(d)
    ensures r.Some? <==> RepairId(d) <= Find(d.axes, TRACKING).value.maximum
    ensures r.Some? ==> r.value == RepairFrame(d)
  {
    hide HiddenFrame;
    var tracking := Find(d.axes, TRACKING).value;
    var id := if tracking.minimum >= 0 then tracking.minimum else 0;
    if id > tracking.maximum {
      return None;
    }
    var starts := Starts(id, d.Slots());
    FramesSound(d);
    var ok := ValidateParts(d, hidden + starts);
    return if ok then Some(hidden + starts) else None;
  }

  method Starts(id: int, slots: nat) returns (starts: seq<TouchEvent>)
    ensures starts == LegacyStarts(id, slots)
  {
    starts := [];
    for slot := 0 to slots
      invariant starts == LegacyStarts(id, slot)
    {
      starts := starts + [SlotEvent(slot), TrackingEvent(id)];
    }
  }
}
