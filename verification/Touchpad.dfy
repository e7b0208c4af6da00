// Touchpad capabilities and the interpreter of multi-touch (protocol type B) frames
// (src/touchpad.rs).
module Touchpad {
  import opened Ordered
  import opened Protocol

  datatype AxisInfo = AxisInfo(code: int, minimum: int, maximum: int, fuzz: int, flat: int, resolution: int)

  /** The first axis with this code. */
  function Find(axes: seq<AxisInfo>, code: int): (r: Option<AxisInfo>)
    ensures r.Some? ==> r.value in axes && r.value.code == code
    ensures r.None? ==> forall a :: a in axes ==> a.code != code
  {
    if axes == [] then None
    else if axes[0].code == code then Some(axes[0])
    else Find(axes[1..], code)
  }

  datatype Descriptor = Descriptor(keys: seq<int>, properties: seq<int>, axes: seq<AxisInfo>) {
    ghost predicate Valid() {
      && SoundLists()
      && (forall i :: 0 <= i < |axes| ==> SoundAxis(axes[i]))
      && Distinct()
      && Complete()
    }

    predicate SoundLists() {
      && 2 <= |keys| <= 16
      && (forall i :: 0 <= i < |keys| ==> TouchKey(keys[i]))
      && (forall i, j :: 0 <= i < j < |keys| ==> keys[i] != keys[j])
      && TOUCH in keys && 325 in keys
      && |properties| <= 5 && 0 in properties
      && (forall i :: 0 <= i < |properties| ==> properties[i] in {0, 2, 3, 4, 6})
      && 4 <= |axes| <= 20
    }

    predicate Complete() {
      && Find(axes, 0).Some? && Find(axes, 1).Some? && Find(axes, 53).Some? && Find(axes, 54).Some?
      && Find(axes, TRACKING).Some? && Find(axes, SLOT).Some?
      && Find(axes, SLOT).value.minimum == 0
      && 0 <= Find(axes, SLOT).value.maximum < 32
    }

    ghost predicate Distinct() {
      forall i, j :: 0 <= i < j < |axes| ==> axes[i].code != axes[j].code
    }

    static predicate SoundAxis(a: AxisInfo) {
      && TouchAxis(a.code)
      && -MAX_VALUE <= a.minimum <= a.maximum <= MAX_VALUE
      && 0 <= a.fuzz <= 100_000 && 0 <= a.flat <= 100_000 && 0 <= a.resolution <= 100_000
    }

    /** How many contacts the device can report. */
    function Slots(): (n: nat)
      requires Valid()
      ensures 0 < n <= 32
    {
      Find(axes, SLOT).value.maximum + 1
    }

    /** Whether an event is one this device announced. */
    predicate Allows(e: TouchEvent) {
      match e.kind
      case Key => e.code in keys
      case Absolute =>
        var axis := Find(axes, e.code);
        && axis.Some?
        && (axis.value.minimum <= e.value <= axis.value.maximum || (e.code == TRACKING && e.value == -1))
    }

    predicate AllowsFrame(events: seq<TouchEvent>) {
      && ValidFrame(events)
      && forall i :: 0 <= i < |events| ==> Allows(events[i])
    }

    /** Codes of the axes the whole device shares. */
    ghost function GlobalCodes(): set<int> {
      set a | a in axes && a.code < SLOT :: a.code
    }

    /** Codes of the axes every contact has for itself. */
    ghost function ContactCodes(): set<int> {
      set a | a in axes && a.code > SLOT :: a.code
    }
  }

  lemma FindUnique(d: Descriptor, a: AxisInfo)
    requires d.Distinct() && a in d.axes
    ensures Find(d.axes, a.code) == Some(a)
  {
  }

  /** The validator: the loop over the axes collects their codes in a growing set. */
  method Validate(d: Descriptor) returns (ok: bool)
    ensures ok <==> d.Valid()
  {
    if !d.SoundLists() {
      return false;
    }
    var codes: set<int> := {};
    for i := 0 to |d.axes|
      invariant forall k :: 0 <= k < i ==> d.axes[k].code in codes
      invariant forall c :: c in codes ==> exists k :: 0 <= k < i && d.axes[k].code == c
      invariant forall k :: 0 <= k < i ==> Descriptor.SoundAxis(d.axes[k])
      invariant forall j, k :: 0 <= j < k < i ==> d.axes[j].code != d.axes[k].code
    {
      if d.axes[i].code in codes || !Descriptor.SoundAxis(d.axes[i]) {
        return false;
      }
      codes := codes + {d.axes[i].code};
    }
    return d.Complete();
  }

  type Contact = map<int, int>

  /** What a reader of the device believes. */
  datatype Touch = Touch(slot: int, keys: set<int>, axes: map<int, int>, contacts: seq<Contact>) {
    predicate Fits() {
      0 <= slot < |contacts|
    }
  }

  function TrackingOf(c: Contact): int {
    if TRACKING in c then c[TRACKING] else -1
  }

  /** A finger is on the pad in this contact. */
  predicate Active(c: Contact) {
    TrackingOf(c) >= 0
  }

  predicate Idle(t: Touch) {
    t.keys == {} && forall i :: 0 <= i < |t.contacts| ==> !Active(t.contacts[i])
  }

  /** The shared axes among the first `upTo`, each at its minimum. */
  function Minima(axes: seq<AxisInfo>, upTo: nat): map<int, int>
    requires upTo <= |axes|
  {
    if upTo == 0 then map[]
    else
      var a := axes[upTo - 1];
      if a.code < SLOT then Minima(axes, upTo - 1)[a.code := a.minimum] else Minima(axes, upTo - 1)
  }

  function New(d: Descriptor): (t: Touch)
    requires d.Valid()
    ensures Idle(t) && t.Fits()
  {
    Touch(0, {}, Minima(d.axes, |d.axes|), seq(d.Slots(), _ => map[TRACKING := -1]))
  }

  /** An event that would not index outside `n` contacts. */
  predicate SlotFits(e: TouchEvent, n: nat) {
    e.kind == Absolute && e.code == SLOT ==> 0 <= e.value < n
  }

  predicate SlotsFit(events: seq<TouchEvent>, n: nat) {
    forall i :: 0 <= i < |events| ==> SlotFits(events[i], n)
  }

  function ApplyOne(t: Touch, e: TouchEvent): (r: Touch)
    requires t.Fits() && SlotFits(e, |t.contacts|)
    ensures r.Fits() && |r.contacts| == |t.contacts|
  {
    if e.kind == Key then
      t.(keys := if e.value == 0 then t.keys - {e.code} else t.keys + {e.code})
    else if e.code == SLOT then
      t.(slot := e.value)
    else if e.code > SLOT then
      t.(contacts := t.contacts[t.slot := t.contacts[t.slot][e.code := e.value]])
    else
      t.(axes := t.axes[e.code := e.value])
  }

  function Replay(t: Touch, events: seq<TouchEvent>): (r: Touch)
    requires t.Fits() && SlotsFit(events, |t.contacts|)
    ensures r.Fits() && |r.contacts| == |t.contacts|
    decreases |events|
  {
    if events == [] then t else Replay(ApplyOne(t, events[0]), events[1..])
  }

  lemma {:induction false} ApplyConcat(t: Touch, a: seq<TouchEvent>, b: seq<TouchEvent>)
    requires t.Fits() && SlotsFit(a, |t.contacts|) && SlotsFit(b, |t.contacts|)
    ensures SlotsFit(a + b, |t.contacts|)
    ensures Replay(t, a + b) == Replay(Replay(t, a), b)
    decreases |a|
  {
    if a == [] {
      assert a + b == b;
    } else {
      assert (a + b)[0] == a[0] && (a + b)[1..] == a[1..] + b;
      ApplyConcat(ApplyOne(t, a[0]), a[1..], b);
    }
  }

  lemma ApplySnoc(t: Touch, a: seq<TouchEvent>, e: TouchEvent)
    requires t.Fits() && SlotsFit(a, |t.contacts|) && SlotFits(e, |t.contacts|)
    ensures SlotsFit(a + [e], |t.contacts|)
    ensures Replay(t, a + [e]) == ApplyOne(Replay(t, a), e)
  {
    ApplyConcat(t, a, [e]);
    assert Replay(Replay(t, a), [e]) == ApplyOne(Replay(t, a), e);
  }

  // ---- Frames built from a state ----

  /** The value a map holds for a code, and 0 for a code it lacks. */
  function Value(m: map<int, int>, code: int): int {
    if code in m then m[code] else 0
  }

  function AbsEvents(m: map<int, int>, order: seq<int>): seq<TouchEvent> {
    if order == [] then []
    else [TouchEvent(Absolute, order[0], Value(m, order[0]))] + AbsEvents(m, order[1..])
  }

  function KeyEvents(order: seq<int>, value: int): seq<TouchEvent> {
    if order == [] then [] else [TouchEvent(Key, order[0], value)] + KeyEvents(order[1..], value)
  }

  function SlotEvent(slot: int): TouchEvent {
    TouchEvent(Absolute, SLOT, slot)
  }

  function TrackingEvent(id: int): TouchEvent {
    TouchEvent(Absolute, TRACKING, id)
  }

  function ContactFrame(c: Contact, slot: int): seq<TouchEvent> {
    if Active(c) then
      [SlotEvent(slot), TrackingEvent(TrackingOf(c))] + AbsEvents(c, Codes(c.Keys - {TRACKING}))
    else []
  }

  function ContactFrames(contacts: seq<Contact>, upTo: nat): seq<TouchEvent>
    requires upTo <= |contacts|
  {
    if upTo == 0 then []
    else ContactFrames(contacts, upTo - 1) + ContactFrame(contacts[upTo - 1], upTo - 1)
  }

  function OtherKeys(t: Touch): seq<int> {
    Codes(t.keys - {TOUCH})
  }

  function SnapshotTail(t: Touch): seq<TouchEvent> {
    AbsEvents(t.axes, Codes(t.axes.Keys)) + (KeyEvents(OtherKeys(t), 1) + [SlotEvent(t.slot)])
  }

  /** The frame that reproduces the current stroke in another destination. */
  function SnapshotOf(t: Touch): seq<TouchEvent> {
    [TouchEvent(Key, TOUCH, if TOUCH in t.keys then 1 else 0)]
    + (ContactFrames(t.contacts, |t.contacts|) + SnapshotTail(t))
  }

  function Endings(n: nat): seq<TouchEvent> {
    if n == 0 then [] else Endings(n - 1) + [SlotEvent(n - 1), TrackingEvent(-1)]
  }

  /** The frame that lifts everything. */
  function ReleasesOf(t: Touch): seq<TouchEvent> {
    [TouchEvent(Key, TOUCH, 0)] + (Endings(|t.contacts|) + KeyEvents(OtherKeys(t), 0))
  }

  // ---- What every state reached by announced frames satisfies ----

  /** A value an axis of the device may hold. */
  predicate InRange(d: Descriptor, code: int, value: int) {
    d.Allows(TouchEvent(Absolute, code, value))
  }

  /** States that only ever saw frames the device announced. */
  ghost predicate InShape(d: Descriptor, t: Touch)
    requires d.Valid()
  {
    && |t.contacts| == d.Slots() && t.Fits()
    && (forall c :: c in t.keys ==> c in d.keys)
    && t.axes.Keys == d.GlobalCodes()
    && (forall c :: c in t.axes ==> InRange(d, c, t.axes[c]))
    && (forall i :: 0 <= i < |t.contacts| ==> ContactInShape(d, t.contacts[i]))
  }

  ghost predicate ContactInShape(d: Descriptor, contact: Contact) {
    forall c :: c in contact ==> c > SLOT && InRange(d, c, contact[c])
  }

  /** An announced slot event never indexes outside the contacts. */
  lemma AllowedSlot(d: Descriptor, e: TouchEvent)
    requires d.Valid() && d.Allows(e)
    ensures SlotFits(e, d.Slots())
  {
  }

  lemma {:induction false} MinimaSpec(axes: seq<AxisInfo>, upTo: nat)
    requires forall i, j :: 0 <= i < j < |axes| ==> axes[i].code != axes[j].code
    requires upTo <= |axes|
    ensures forall i :: 0 <= i < upTo && axes[i].code < SLOT ==>
              axes[i].code in Minima(axes, upTo) && Minima(axes, upTo)[axes[i].code] == axes[i].minimum
    ensures forall c :: c in Minima(axes, upTo) ==> exists i :: 0 <= i < upTo && axes[i].code == c && c < SLOT
  {
    if upTo > 0 {
      MinimaSpec(axes, upTo - 1);
    }
  }

  lemma MinimaKeys(d: Descriptor)
    requires d.Distinct()
    ensures Minima(d.axes, |d.axes|).Keys == d.GlobalCodes()
  {
    MinimaSpec(d.axes, |d.axes|);
    var m := Minima(d.axes, |d.axes|);
    forall c | c in d.GlobalCodes() ensures c in m {
      var i :| 0 <= i < |d.axes| && d.axes[i].code == c && c < SLOT;
    }
    forall c | c in m ensures c in d.GlobalCodes() {
      var i :| 0 <= i < |d.axes| && d.axes[i].code == c && c < SLOT;
      assert d.axes[i] in d.axes;
    }
  }

  lemma MinimaInRange(d: Descriptor, c: int)
    requires d.Distinct() && c in Minima(d.axes, |d.axes|)
    requires forall i :: 0 <= i < |d.axes| ==> d.axes[i].minimum <= d.axes[i].maximum
    ensures InRange(d, c, Minima(d.axes, |d.axes|)[c])
  {
    MinimaSpec(d.axes, |d.axes|);
    var i :| 0 <= i < |d.axes| && d.axes[i].code == c && c < SLOT;
    FindUnique(d, d.axes[i]);
  }

  lemma NewInShape(d: Descriptor)
    requires d.Valid()
    ensures InShape(d, New(d))
  {
    MinimaKeys(d);
    forall i | 0 <= i < |d.axes| ensures d.axes[i].minimum <= d.axes[i].maximum {
      assert Descriptor.SoundAxis(d.axes[i]);
    }
    forall c | c in New(d).axes ensures InRange(d, c, New(d).axes[c]) {
      MinimaInRange(d, c);
    }
  }

  lemma GlobalInShape(d: Descriptor, t: Touch, e: TouchEvent)
    requires d.Valid() && InShape(d, t) && d.Allows(e) && e.kind == Absolute && e.code < SLOT
    ensures InShape(d, ApplyOne(t, e))
  {
    hide Descriptor.Valid, ContactInShape;
    var r := ApplyOne(t, e);
    var a := Find(d.axes, e.code).value;
    assert a.code in d.GlobalCodes();
    assert r.axes.Keys == d.GlobalCodes();
  }

  lemma CoordinateInShape(d: Descriptor, t: Touch, e: TouchEvent)
    requires d.Valid() && InShape(d, t) && d.Allows(e) && e.kind == Absolute && e.code > SLOT
    ensures InShape(d, ApplyOne(t, e))
  {
    hide Descriptor.Valid;
    assert ContactInShape(d, t.contacts[t.slot]);
    assert ContactInShape(d, t.contacts[t.slot][e.code := e.value]);
  }

  lemma ApplyOneInShape(d: Descriptor, t: Touch, e: TouchEvent)
    requires d.Valid() && InShape(d, t) && d.Allows(e)
    ensures SlotFits(e, |t.contacts|) && InShape(d, ApplyOne(t, e))
  {
    AllowedSlot(d, e);
    hide Descriptor.Valid;
    if e.kind == Absolute {
      hide ContactInShape, InRange;
      if e.code > SLOT {
        CoordinateInShape(d, t, e);
      } else if e.code < SLOT {
        GlobalInShape(d, t, e);
      }
    }
  }

  /** No announced frame ever indexes outside the contacts or leaves the announced ranges. */
  lemma {:induction false} ApplyInShape(d: Descriptor, t: Touch, events: seq<TouchEvent>)
    requires d.Valid() && InShape(d, t) && forall i :: 0 <= i < |events| ==> d.Allows(events[i])
    ensures SlotsFit(events, |t.contacts|) && InShape(d, Replay(t, events))
    decreases |events|
  {
    forall i | 0 <= i < |events| ensures SlotFits(events[i], |t.contacts|) {
      AllowedSlot(d, events[i]);
    }
    if events != [] {
      ApplyOneInShape(d, t, events[0]);
      ApplyInShape(d, ApplyOne(t, events[0]), events[1..]);
    }
  }

  lemma AxisCodeIsTouchAxis(d: Descriptor, e: TouchEvent)
    requires d.Valid() && d.Allows(e) && e.kind == Absolute
    ensures TouchAxis(e.code) && -MAX_VALUE <= e.value <= MAX_VALUE
  {
    var a := Find(d.axes, e.code).value;
    var i :| 0 <= i < |d.axes| && d.axes[i] == a;
    assert Descriptor.SoundAxis(d.axes[i]);
  }

  predicate AllAllowed(d: Descriptor, events: seq<TouchEvent>) {
    forall i :: 0 <= i < |events| ==> d.Allows(events[i])
  }

  /** Announced events are also events the protocol accepts. */
  lemma AllowedIsValid(d: Descriptor, e: TouchEvent)
    requires d.Valid() && d.Allows(e) && (e.kind == Key ==> 0 <= e.value <= 1)
    ensures ValidTouchEvent(e)
  {
    if e.kind == Absolute {
      AxisCodeIsTouchAxis(d, e);
    } else {
      var i :| 0 <= i < |d.keys| && d.keys[i] == e.code;
      assert TouchKey(d.keys[i]);
    }
  }

  lemma CountCoordinates(s: set<int>)
    requires forall c :: c in s ==> 48 <= c <= 61 && c != TRACKING
    ensures |s| <= 13
  {
    var all := {48, 49, 50, 51, 52, 53, 54, 55, 56, 58, 59, 60, 61};
    assert forall c :: c in s ==> c in all;
    SubsetCard(s, all);
  }

  lemma CountOtherKeys(s: set<int>)
    requires forall c :: c in s ==> TouchKey(c) && c != TOUCH
    ensures |s| <= 8
  {
    var all := {272, 273, 274, 325, 328, 333, 334, 335};
    assert forall c :: c in s ==> c in all;
    SubsetCard(s, all);
  }

  lemma CountGlobals(s: set<int>)
    requires forall c :: c in s ==> TouchAxis(c) && c < SLOT
    ensures |s| <= 4
  {
    var all := {0, 1, 24, 28};
    assert forall c :: c in s ==> c in all;
    SubsetCard(s, all);
  }

  lemma ContactOrder(d: Descriptor, c: Contact)
    requires d.Valid() && ContactInShape(d, c)
    ensures |Codes(c.Keys - {TRACKING})| <= 13
  {
    var s := c.Keys - {TRACKING};
    forall x | x in s ensures 48 <= x <= 61 && x != TRACKING {
      AxisCodeIsTouchAxis(d, TouchEvent(Absolute, x, c[x]));
    }
    CountCoordinates(s);
    CodesSpec(s);
    DistinctLength(Codes(s), s);
  }

  lemma OtherKeysOrder(d: Descriptor, t: Touch)
    requires d.Valid() && InShape(d, t)
    ensures |OtherKeys(t)| <= 8
    ensures forall c :: c in t.keys ==> TouchKey(c)
  {
    forall c | c in t.keys ensures TouchKey(c) {
      var i :| 0 <= i < |d.keys| && d.keys[i] == c;
    }
    var s := t.keys - {TOUCH};
    CountOtherKeys(s);
    CodesSpec(s);
    DistinctLength(OtherKeys(t), s);
  }

  lemma GlobalOrder(d: Descriptor, t: Touch)
    requires d.Valid() && InShape(d, t)
    ensures |Codes(t.axes.Keys)| <= 4
  {
    forall x | x in t.axes.Keys ensures TouchAxis(x) && x < SLOT {
      assert InRange(d, x, t.axes[x]);
      AxisCodeIsTouchAxis(d, TouchEvent(Absolute, x, t.axes[x]));
    }
    CountGlobals(t.axes.Keys);
    CodesSpec(t.axes.Keys);
    DistinctLength(Codes(t.axes.Keys), t.axes.Keys);
  }

  /** Events the device announced and the protocol accepts. */
  predicate Sound(d: Descriptor, events: seq<TouchEvent>) {
    forall i :: 0 <= i < |events| ==> d.Allows(events[i]) && ValidTouchEvent(events[i])
  }

  lemma SoundConcat(d: Descriptor, a: seq<TouchEvent>, b: seq<TouchEvent>)
    requires Sound(d, a) && Sound(d, b)
    ensures Sound(d, a + b)
  {
  }

  lemma SoundOne(d: Descriptor, e: TouchEvent)
    requires d.Valid() && d.Allows(e) && (e.kind == Key ==> 0 <= e.value <= 1)
    ensures Sound(d, [e])
  {
    AllowedIsValid(d, e);
  }

  lemma SoundSlot(d: Descriptor, slot: int)
    requires d.Valid() && 0 <= slot < d.Slots()
    ensures Sound(d, [SlotEvent(slot)])
  {
    SoundOne(d, SlotEvent(slot));
  }

  lemma {:induction false} SoundValues(d: Descriptor, m: map<int, int>, order: seq<int>)
    requires d.Valid()
    requires forall i :: 0 <= i < |order| ==> order[i] in m && InRange(d, order[i], m[order[i]])
    ensures Sound(d, AbsEvents(m, order)) && |AbsEvents(m, order)| == |order|
    decreases |order|
  {
    if order != [] {
      SoundOne(d, TouchEvent(Absolute, order[0], m[order[0]]));
      SoundValues(d, m, order[1..]);
      SoundConcat(d, [TouchEvent(Absolute, order[0], m[order[0]])], AbsEvents(m, order[1..]));
    }
  }

  lemma {:induction false} SoundKeys(d: Descriptor, order: seq<int>, value: int)
    requires d.Valid() && 0 <= value <= 1
    requires forall i :: 0 <= i < |order| ==> order[i] in d.keys
    ensures Sound(d, KeyEvents(order, value)) && |KeyEvents(order, value)| == |order|
    decreases |order|
  {
    if order != [] {
      SoundOne(d, TouchEvent(Key, order[0], value));
      SoundKeys(d, order[1..], value);
      SoundConcat(d, [TouchEvent(Key, order[0], value)], KeyEvents(order[1..], value));
    }
  }

  lemma SoundContact(d: Descriptor, c: Contact, slot: int)
    requires d.Valid() && ContactInShape(d, c) && 0 <= slot < d.Slots()
    ensures Sound(d, ContactFrame(c, slot)) && |ContactFrame(c, slot)| <= 15
  {
    if Active(c) {
      ContactOrder(d, c);
      SoundSlot(d, slot);
      SoundOne(d, TrackingEvent(TrackingOf(c)));
      SoundConcat(d, [SlotEvent(slot)], [TrackingEvent(TrackingOf(c))]);
      CodesWithin(c.Keys - {TRACKING});
      SoundValues(d, c, Codes(c.Keys - {TRACKING}));
      SoundConcat(d, [SlotEvent(slot), TrackingEvent(TrackingOf(c))], AbsEvents(c, Codes(c.Keys - {TRACKING})));
    }
  }

  lemma {:induction false} SoundContacts(d: Descriptor, contacts: seq<Contact>, upTo: nat)
    requires d.Valid() && upTo <= |contacts| && upTo <= d.Slots()
    requires forall i :: 0 <= i < upTo ==> ContactInShape(d, contacts[i])
    ensures Sound(d, ContactFrames(contacts, upTo)) && |ContactFrames(contacts, upTo)| <= 15 * upTo
  {
    hide Descriptor.Valid, ContactInShape, ContactFrame;
    if upTo > 0 {
      var last := contacts[upTo - 1];
      var frames := ContactFrames(contacts, upTo - 1);
      SoundContacts(d, contacts, upTo - 1);
      SoundContact(d, last, upTo - 1);
      SoundConcat(d, frames, ContactFrame(last, upTo - 1));
      assert ContactFrames(contacts, upTo) == frames + ContactFrame(last, upTo - 1);
    }
  }

  lemma {:induction false} SoundEndings(d: Descriptor, n: nat)
    requires d.Valid() && n <= d.Slots()
    ensures Sound(d, Endings(n)) && |Endings(n)| == 2 * n
  {
    if n > 0 {
      SoundEndings(d, n - 1);
      SoundSlot(d, n - 1);
      SoundOne(d, TrackingEvent(-1));
      SoundConcat(d, [SlotEvent(n - 1)], [TrackingEvent(-1)]);
      SoundConcat(d, Endings(n - 1), [SlotEvent(n - 1), TrackingEvent(-1)]);
    }
  }

  lemma SoundGlobals(d: Descriptor, t: Touch)
    requires d.Valid() && InShape(d, t)
    ensures Sound(d, AbsEvents(t.axes, Codes(t.axes.Keys)))
    ensures |AbsEvents(t.axes, Codes(t.axes.Keys))| <= 4
  {
    CodesWithin(t.axes.Keys);
    SoundValues(d, t.axes, Codes(t.axes.Keys));
    GlobalOrder(d, t);
  }

  lemma SoundOtherKeys(d: Descriptor, t: Touch, value: int)
    requires d.Valid() && InShape(d, t) && 0 <= value <= 1
    ensures Sound(d, KeyEvents(OtherKeys(t), value)) && |KeyEvents(OtherKeys(t), value)| <= 8
  {
    CodesWithin(t.keys - {TOUCH});
    SoundKeys(d, OtherKeys(t), value);
    OtherKeysOrder(d, t);
  }

  /** Every reachable state has a snapshot the same device accepts, well inside the frame limit. */
  lemma SnapshotAllowed(d: Descriptor, t: Touch)
    requires d.Valid() && InShape(d, t)
    ensures d.AllowsFrame(SnapshotOf(t)) && |SnapshotOf(t)| <= 494
  {
    var touch := TouchEvent(Key, TOUCH, if TOUCH in t.keys then 1 else 0);
    var frames := ContactFrames(t.contacts, |t.contacts|);
    var keys := KeyEvents(OtherKeys(t), 1);
    SoundOne(d, touch);
    SoundContacts(d, t.contacts, |t.contacts|);
    SoundGlobals(d, t);
    SoundOtherKeys(d, t, 1);
    SoundSlot(d, t.slot);
    SoundConcat(d, keys, [SlotEvent(t.slot)]);
    SoundConcat(d, AbsEvents(t.axes, Codes(t.axes.Keys)), keys + [SlotEvent(t.slot)]);
    SoundConcat(d, frames, SnapshotTail(t));
    SoundConcat(d, [touch], frames + SnapshotTail(t));
  }

  // ---- States read from the kernel ----

  /** What reading a device yields: its own slots, keys and axes, with whatever values the kernel holds. */
  ghost predicate Readable(d: Descriptor, t: Touch)
    requires d.Valid()
  {
    && |t.contacts| == d.Slots() && t.Fits()
    && (forall c :: c in t.keys ==> c in d.keys)
    && t.axes.Keys == d.GlobalCodes()
    && (forall i :: 0 <= i < |t.contacts| ==> t.contacts[i].Keys <= d.ContactCodes())
  }

  /** The values that a snapshot shows, those of shared axes and of fingers on the pad, are within their ranges. */
  ghost predicate Presentable(d: Descriptor, t: Touch) {
    && (forall c :: c in t.axes ==> InRange(d, c, t.axes[c]))
    && (forall i :: 0 <= i < |t.contacts| && Active(t.contacts[i]) ==> ContactInRange(d, t.contacts[i]))
  }

  ghost predicate ContactInRange(d: Descriptor, c: Contact) {
    forall x :: x in c ==> InRange(d, x, c[x])
  }

  lemma ApplyOneReadable(d: Descriptor, t: Touch, e: TouchEvent)
    requires d.Valid() && Readable(d, t) && d.Allows(e)
    ensures SlotFits(e, |t.contacts|) && Readable(d, ApplyOne(t, e))
  {
    AllowedSlot(d, e);
    hide Descriptor.Valid;
    if e.kind == Absolute {
      var a := Find(d.axes, e.code).value;
      assert a in d.axes && a.code == e.code;
      if e.code < SLOT {
        assert e.code in d.GlobalCodes();
        assert ApplyOne(t, e).axes.Keys == d.GlobalCodes();
      } else if e.code > SLOT {
        assert e.code in d.ContactCodes();
      }
    }
  }

  /** Announced frames never index outside the contacts of a state that was read, and keep it one. */
  lemma {:induction false} ApplyReadable(d: Descriptor, t: Touch, events: seq<TouchEvent>)
    requires d.Valid() && Readable(d, t) && AllAllowed(d, events)
    ensures SlotsFit(events, |t.contacts|) && Readable(d, Replay(t, events))
    decreases |events|
  {
    forall i | 0 <= i < |events| ensures SlotFits(events[i], |t.contacts|) {
      AllowedSlot(d, events[i]);
    }
    if events != [] {
      ApplyOneReadable(d, t, events[0]);
      ApplyReadable(d, ApplyOne(t, events[0]), events[1..]);
    }
  }

  /** The same state with nothing said of slots without a finger. */
  function Blanked(t: Touch): (r: Touch)
    ensures |r.contacts| == |t.contacts|
  {
    t.(contacts := seq(|t.contacts|, i requires 0 <= i < |t.contacts| =>
      if Active(t.contacts[i]) then t.contacts[i] else map[TRACKING := -1]))
  }

  lemma BlankedFrame(t: Touch, i: nat)
    requires i < |t.contacts|
    ensures ContactFrame(Blanked(t).contacts[i], i) == ContactFrame(t.contacts[i], i)
  {
  }

  lemma {:induction false} BlankedFrames(t: Touch, upTo: nat)
    requires upTo <= |t.contacts|
    ensures ContactFrames(Blanked(t).contacts, upTo) == ContactFrames(t.contacts, upTo)
  {
    hide ContactFrame, Blanked;
    if upTo > 0 {
      BlankedFrames(t, upTo - 1);
      BlankedFrame(t, upTo - 1);
    }
  }

  lemma BlankedContact(d: Descriptor, c: Contact)
    requires d.Valid() && c.Keys <= d.ContactCodes() && (Active(c) ==> ContactInRange(d, c))
    ensures ContactInShape(d, if Active(c) then c else map[TRACKING := -1])
  {
    assert InRange(d, TRACKING, -1);
    hide Descriptor.Valid, InRange;
    assert forall x :: x in c ==> x in d.ContactCodes();
  }

  lemma BlankedInShape(d: Descriptor, t: Touch)
    requires d.Valid() && Readable(d, t) && Presentable(d, t)
    ensures InShape(d, Blanked(t))
  {
    forall i | 0 <= i < |t.contacts| {
      BlankedContact(d, t.contacts[i]);
    }
    hide Descriptor.Valid, InRange, ContactInShape, ContactInRange, Active;
  }

  lemma BlankedSnapshot(t: Touch)
    ensures SnapshotOf(Blanked(t)) == SnapshotOf(t)
  {
    BlankedFrames(t, |t.contacts|);
  }

  lemma {:induction false} ValuesAllowed(d: Descriptor, m: map<int, int>, order: seq<int>)
    requires AllAllowed(d, AbsEvents(m, order)) && forall i :: 0 <= i < |order| ==> order[i] in m
    ensures forall c :: c in order ==> InRange(d, c, m[c])
    decreases |order|
  {
    if order != [] {
      assert AbsEvents(m, order)[0] == TouchEvent(Absolute, order[0], m[order[0]]);
      assert AbsEvents(m, order)[1..] == AbsEvents(m, order[1..]);
      ValuesAllowed(d, m, order[1..]);
      assert order == [order[0]] + order[1..];
    }
  }

  lemma AllowedParts(d: Descriptor, a: seq<TouchEvent>, b: seq<TouchEvent>)
    requires AllAllowed(d, a + b)
    ensures AllAllowed(d, a) && AllAllowed(d, b)
  {
    forall i | 0 <= i < |a| ensures d.Allows(a[i]) {
      assert (a + b)[i] == a[i];
    }
    forall i | 0 <= i < |b| ensures d.Allows(b[i]) {
      assert (a + b)[|a| + i] == b[i];
    }
  }

  lemma ContactAllowed(d: Descriptor, c: Contact, slot: int)
    requires d.Valid() && AllAllowed(d, ContactFrame(c, slot)) && Active(c) && c.Keys <= d.ContactCodes()
    ensures ContactInRange(d, c)
  {
    var s := c.Keys - {TRACKING};
    AllowedParts(d, [SlotEvent(slot), TrackingEvent(TrackingOf(c))], AbsEvents(c, Codes(s)));
    assert d.Allows([SlotEvent(slot), TrackingEvent(TrackingOf(c))][1]);
    CodesWithin(s);
    ValuesAllowed(d, c, Codes(s));
    CodesSpec(s);
    forall x | x in s ensures 0 <= x < CODE_LIMIT {
      CodeIsTouchAxis(d, x);
    }
  }

  lemma CodeIsTouchAxis(d: Descriptor, x: int)
    requires d.Valid() && (x in d.ContactCodes() || x in d.GlobalCodes())
    ensures TouchAxis(x)
  {
    var a :| a in d.axes && a.code == x;
    var i :| 0 <= i < |d.axes| && d.axes[i] == a;
    assert Descriptor.SoundAxis(d.axes[i]);
  }

  lemma {:induction false} ContactsAllowed(d: Descriptor, contacts: seq<Contact>, upTo: nat)
    requires d.Valid() && upTo <= |contacts| && AllAllowed(d, ContactFrames(contacts, upTo))
    requires forall i :: 0 <= i < |contacts| ==> contacts[i].Keys <= d.ContactCodes()
    ensures forall i :: 0 <= i < upTo && Active(contacts[i]) ==> ContactInRange(d, contacts[i])
  {
    hide Descriptor.Valid, ContactFrame, ContactInRange;
    if upTo > 0 {
      AllowedParts(d, ContactFrames(contacts, upTo - 1), ContactFrame(contacts[upTo - 1], upTo - 1));
      ContactsAllowed(d, contacts, upTo - 1);
      if Active(contacts[upTo - 1]) {
        ContactAllowed(d, contacts[upTo - 1], upTo - 1);
      }
    }
  }

  lemma AllowedIsPresentable(d: Descriptor, t: Touch)
    requires d.Valid() && Readable(d, t) && d.AllowsFrame(SnapshotOf(t))
    ensures Presentable(d, t)
  {
    var touch := [TouchEvent(Key, TOUCH, if TOUCH in t.keys then 1 else 0)];
    var frames, axes := ContactFrames(t.contacts, |t.contacts|), AbsEvents(t.axes, Codes(t.axes.Keys));
    var rest := KeyEvents(OtherKeys(t), 1) + [SlotEvent(t.slot)];
    assert AllAllowed(d, touch + (frames + (axes + rest)));
    AllowedParts(d, touch, frames + (axes + rest));
    AllowedParts(d, frames, axes + rest);
    AllowedParts(d, axes, rest);
    ContactsAllowed(d, t.contacts, |t.contacts|);
    CodesWithin(t.axes.Keys);
    ValuesAllowed(d, t.axes, Codes(t.axes.Keys));
    CodesSpec(t.axes.Keys);
    forall c | c in t.axes.Keys ensures 0 <= c < CODE_LIMIT {
      CodeIsTouchAxis(d, c);
    }
  }

  /** The snapshot of a state read from the kernel, which may hold any values, is one that the same device accepts
      exactly when the values it shows are within the announced ranges. */
  lemma SnapshotAllowedWhen(d: Descriptor, t: Touch)
    requires d.Valid() && Readable(d, t)
    ensures d.AllowsFrame(SnapshotOf(t)) <==> Presentable(d, t)
  {
    hide Descriptor.Valid, Descriptor.AllowsFrame, Presentable, Readable;
    if Presentable(d, t) {
      BlankedInShape(d, t);
      BlankedSnapshot(t);
      SnapshotAllowed(d, Blanked(t));
    }
    if d.AllowsFrame(SnapshotOf(t)) {
      AllowedIsPresentable(d, t);
    }
  }

  /** A device as the kernel presents it before anything was touched: every value is 0. */
  ghost function Unused(d: Descriptor): (t: Touch)
    requires d.Valid()
    ensures Idle(t)
  {
    Touch(0, {}, map c | c in d.GlobalCodes() :: 0,
          seq(d.Slots(), _ => (map c | c in d.ContactCodes() :: 0)[TRACKING := -1]))
  }

  /** A device of which some shared axis starts above 0 is taken over then, but the snapshot of its state is refused. */
  lemma UnusedIsRefused(d: Descriptor, a: AxisInfo)
    requires d.Valid() && a in d.axes && a.code < SLOT && a.minimum > 0
    ensures Readable(d, Unused(d)) && Idle(Unused(d)) && !d.AllowsFrame(SnapshotOf(Unused(d)))
  {
    FindUnique(d, a);
    assert Find(d.axes, TRACKING).value in d.axes && TRACKING in d.ContactCodes();
    hide Descriptor.Valid, Descriptor.AllowsFrame;
    var t := Unused(d);
    assert t.axes.Keys == d.GlobalCodes() && a.code in t.axes;
    SnapshotAllowedWhen(d, t);
    assert !InRange(d, a.code, t.axes[a.code]);
  }

  /** There are such devices. */
  const OFFSET := Descriptor([TOUCH, 325], [0],
    [AxisInfo(0, 1, 10, 0, 0, 0), AxisInfo(1, 0, 10, 0, 0, 0), AxisInfo(SLOT, 0, 0, 0, 0, 0),
     AxisInfo(53, 1, 10, 0, 0, 0), AxisInfo(54, 0, 10, 0, 0, 0), AxisInfo(TRACKING, 0, 10, 0, 0, 0)])

  lemma OffsetIsValid()
    ensures OFFSET.Valid() && OFFSET.axes[0] in OFFSET.axes
  {
    OffsetIsComplete();
    hide Descriptor.Complete, Find;
    assert forall i :: 0 <= i < |OFFSET.axes| ==> Descriptor.SoundAxis(OFFSET.axes[i]);
    assert OFFSET.keys[0] == TOUCH && OFFSET.keys[1] == 325 && OFFSET.properties[0] == 0;
    assert OFFSET.SoundLists();
  }

  lemma OffsetIsComplete()
    ensures OFFSET.Distinct() && OFFSET.Complete()
  {
    hide Find;
    var axes := OFFSET.axes;
    assert OFFSET.Distinct();
    assert axes[0] in axes && axes[1] in axes && axes[2] in axes && axes[3] in axes && axes[4] in axes
      && axes[5] in axes;
    FindUnique(OFFSET, axes[0]);
    FindUnique(OFFSET, axes[1]);
    FindUnique(OFFSET, axes[2]);
    FindUnique(OFFSET, axes[3]);
    FindUnique(OFFSET, axes[4]);
    FindUnique(OFFSET, axes[5]);
  }

  /** Every reachable state has a release frame the same device accepts. */
  lemma ReleasesAllowed(d: Descriptor, t: Touch)
    requires d.Valid() && InShape(d, t)
    ensures d.AllowsFrame(ReleasesOf(t)) && |ReleasesOf(t)| <= 73
  {
    var touch := TouchEvent(Key, TOUCH, 0);
    SoundOne(d, touch);
    SoundEndings(d, |t.contacts|);
    SoundOtherKeys(d, t, 0);
    SoundConcat(d, Endings(|t.contacts|), KeyEvents(OtherKeys(t), 0));
    SoundConcat(d, [touch], Endings(|t.contacts|) + KeyEvents(OtherKeys(t), 0));
  }

  // ---- What the frames do ----

  /** Every code is one a 16-bit event can name, and on the right side of the slot code. */
  ghost predicate Encodable(t: Touch) {
    && t.Fits()
    && (forall c :: c in t.keys ==> 0 <= c < CODE_LIMIT)
    && (forall c :: c in t.axes ==> 0 <= c < SLOT)
    && (forall i :: 0 <= i < |t.contacts| ==> EncodableContact(t.contacts[i]))
  }

  ghost predicate EncodableContact(contact: Contact) {
    forall c :: c in contact ==> SLOT < c < CODE_LIMIT
  }

  lemma ShapeIsEncodable(d: Descriptor, t: Touch)
    requires d.Valid() && InShape(d, t)
    ensures Encodable(t)
  {
    OtherKeysOrder(d, t);
    forall c | c in t.axes ensures 0 <= c < SLOT {
      assert InRange(d, c, t.axes[c]);
      AxisCodeIsTouchAxis(d, TouchEvent(Absolute, c, t.axes[c]));
    }
    forall i, c | 0 <= i < |t.contacts| && c in t.contacts[i] ensures SLOT < c < CODE_LIMIT {
      assert ContactInShape(d, t.contacts[i]);
      AxisCodeIsTouchAxis(d, TouchEvent(Absolute, c, t.contacts[i][c]));
    }
  }

  /** `base` after the values of `m` are stored one by one in the given order. */
  function Put(base: map<int, int>, m: map<int, int>, order: seq<int>): map<int, int>
    decreases |order|
  {
    if order == [] then base else Put(base[order[0] := Value(m, order[0])], m, order[1..])
  }

  lemma {:induction false} PutAt(base: map<int, int>, m: map<int, int>, order: seq<int>, c: int)
    requires forall i :: 0 <= i < |order| ==> order[i] in m
    ensures var r := Put(base, m, order);
            if c in order then c in r && r[c] == m[c]
            else (c in r <==> c in base) && (c in base ==> r[c] == base[c])
    decreases |order|
  {
    if order != [] {
      PutAt(base[order[0] := m[order[0]]], m, order[1..], c);
    }
  }

  /** Storing every code of `m` that `base` does not already agree on gives their union. */
  lemma PutAll(base: map<int, int>, m: map<int, int>, order: seq<int>)
    requires forall i :: 0 <= i < |order| ==> order[i] in m
    requires forall c :: c in m ==> c in order || (c in base && base[c] == m[c])
    ensures Put(base, m, order) == base + m
  {
    forall c
      ensures c in Put(base, m, order) <==> c in base + m
      ensures c in base + m ==> Put(base, m, order)[c] == (base + m)[c]
    {
      PutAt(base, m, order, c);
    }
  }

  lemma {:induction false} ApplyContactValues(t: Touch, m: map<int, int>, order: seq<int>)
    requires t.Fits()
    requires forall i :: 0 <= i < |order| ==> order[i] in m && order[i] > SLOT
    ensures SlotsFit(AbsEvents(m, order), |t.contacts|)
    ensures Replay(t, AbsEvents(m, order))
         == t.(contacts := t.contacts[t.slot := Put(t.contacts[t.slot], m, order)])
    decreases |order|
  {
    if order != [] {
      var e := TouchEvent(Absolute, order[0], m[order[0]]);
      ApplyContactValues(ApplyOne(t, e), m, order[1..]);
      assert AbsEvents(m, order)[1..] == AbsEvents(m, order[1..]);
    }
  }

  lemma {:induction false} ApplyGlobalValues(t: Touch, m: map<int, int>, order: seq<int>)
    requires t.Fits()
    requires forall i :: 0 <= i < |order| ==> order[i] in m && order[i] < SLOT
    ensures SlotsFit(AbsEvents(m, order), |t.contacts|)
    ensures Replay(t, AbsEvents(m, order)) == t.(axes := Put(t.axes, m, order))
    decreases |order|
  {
    if order != [] {
      var e := TouchEvent(Absolute, order[0], m[order[0]]);
      ApplyGlobalValues(ApplyOne(t, e), m, order[1..]);
      assert AbsEvents(m, order)[1..] == AbsEvents(m, order[1..]);
    }
  }

  function Named(order: seq<int>): set<int> {
    set c | c in order
  }

  lemma NamedOtherKeys(t: Touch)
    requires forall c :: c in t.keys ==> 0 <= c < CODE_LIMIT
    ensures Named(OtherKeys(t)) == t.keys - {TOUCH}
  {
    CodesSpec(t.keys - {TOUCH});
    assert forall c :: c in OtherKeys(t) <==> c in t.keys - {TOUCH};
  }

  lemma {:induction false} ApplyKeys(t: Touch, order: seq<int>, value: int)
    requires t.Fits()
    ensures SlotsFit(KeyEvents(order, value), |t.contacts|)
    ensures Replay(t, KeyEvents(order, value))
         == t.(keys := if value == 0 then t.keys - Named(order) else t.keys + Named(order))
    decreases |order|
  {
    if order != [] {
      var events := KeyEvents(order, value);
      ApplyKeys(ApplyOne(t, events[0]), order[1..], value);
      assert events[1..] == KeyEvents(order[1..], value);
      assert Named(order) == {order[0]} + Named(order[1..]);
    }
  }

  /** Contacts below `upTo` are taken over when a finger is on them and otherwise left as they were. */
  function TakenOver(held: seq<Contact>, contacts: seq<Contact>, upTo: nat): (r: seq<Contact>)
    requires |held| == |contacts|
    ensures |r| == |held|
  {
    seq(|held|, i requires 0 <= i < |held| =>
      if i < upTo && Active(contacts[i]) then held[i] + contacts[i] else held[i])
  }

  lemma PutContact(base: Contact, c: Contact)
    requires EncodableContact(c) && TRACKING in c
    ensures Put(base[TRACKING := c[TRACKING]], c, Codes(c.Keys - {TRACKING})) == base + c
  {
    var order := Codes(c.Keys - {TRACKING});
    CodesSpec(c.Keys - {TRACKING});
    CodesWithin(c.Keys - {TRACKING});
    forall x | x in c ensures x in order || x == TRACKING {}
    PutAll(base[TRACKING := c[TRACKING]], c, order);
    assert base[TRACKING := c[TRACKING]] + c == base + c;
  }

  lemma ContactOrderCodes(c: Contact)
    requires EncodableContact(c)
    ensures var order := Codes(c.Keys - {TRACKING});
            forall i :: 0 <= i < |order| ==> order[i] in c && order[i] > SLOT
  {
    CodesWithin(c.Keys - {TRACKING});
  }

  /** One active contact is reproduced in its slot, together with everything known about it. */
  lemma ApplyContactFrame(t: Touch, c: Contact, slot: int)
    requires EncodableContact(c) && Active(c) && t.Fits() && 0 <= slot < |t.contacts|
    ensures SlotsFit(ContactFrame(c, slot), |t.contacts|)
    ensures Replay(t, ContactFrame(c, slot))
         == t.(slot := slot, contacts := t.contacts[slot := t.contacts[slot] + c])
  {
    var order := Codes(c.Keys - {TRACKING});
    var t1 := ApplyOne(t, SlotEvent(slot));
    var t2 := ApplyOne(t1, TrackingEvent(TrackingOf(c)));
    ContactOrderCodes(c);
    ApplyContactValues(t2, c, order);
    PutContact(t.contacts[slot], c);
    ApplyTwo(t, SlotEvent(slot), TrackingEvent(TrackingOf(c)), AbsEvents(c, order));
  }

  lemma ApplyTwo(t: Touch, a: TouchEvent, b: TouchEvent, rest: seq<TouchEvent>)
    requires t.Fits() && SlotFits(a, |t.contacts|) && SlotFits(b, |t.contacts|) && SlotsFit(rest, |t.contacts|)
    ensures SlotsFit([a, b] + rest, |t.contacts|)
    ensures Replay(t, [a, b] + rest) == Replay(ApplyOne(ApplyOne(t, a), b), rest)
  {
    assert ([a, b] + rest)[1..] == [b] + rest;
    assert ([b] + rest)[1..] == rest;
    assert Replay(ApplyOne(t, a), [b] + rest) == Replay(ApplyOne(ApplyOne(t, a), b), rest);
  }

  lemma NothingApplied(t: Touch)
    requires t.Fits()
    ensures SlotsFit([], |t.contacts|) && Replay(t, []) == t
  {
  }

  lemma TakenOverNext(held: seq<Contact>, contacts: seq<Contact>, upTo: nat)
    requires |held| == |contacts| && 0 < upTo <= |contacts|
    ensures var i := upTo - 1;
            var before := TakenOver(held, contacts, i);
            TakenOver(held, contacts, upTo)
            == if Active(contacts[i]) then before[i := before[i] + contacts[i]] else before
  {
  }

  lemma {:induction false} ApplyContactFrames(t: Touch, source: Touch, upTo: nat)
    requires Encodable(source) && upTo <= |source.contacts|
    requires t.Fits() && |t.contacts| == |source.contacts|
    ensures SlotsFit(ContactFrames(source.contacts, upTo), |t.contacts|)
    ensures var r := Replay(t, ContactFrames(source.contacts, upTo));
            r == t.(slot := r.slot, contacts := TakenOver(t.contacts, source.contacts, upTo))
  {
    if upTo == 0 {
      assert TakenOver(t.contacts, source.contacts, 0) == t.contacts;
    } else {
      hide ApplyOne, Replay, EncodableContact, Active;
      var i := upTo - 1;
      var c := source.contacts[i];
      ApplyContactFrames(t, source, i);
      var before := Replay(t, ContactFrames(source.contacts, i));
      TakenOverNext(t.contacts, source.contacts, upTo);
      if Active(c) {
        ApplyContactFrame(before, c, i);
      } else {
        NothingApplied(before);
      }
      ApplyConcat(t, ContactFrames(source.contacts, i), ContactFrame(c, i));
    }
  }

  lemma ApplyTouch(t: Touch, value: int, rest: seq<TouchEvent>)
    requires t.Fits() && SlotsFit(rest, |t.contacts|)
    ensures var e := TouchEvent(Key, TOUCH, value);
            SlotsFit([e] + rest, |t.contacts|) && Replay(t, [e] + rest) == Replay(ApplyOne(t, e), rest)
  {
    assert ([TouchEvent(Key, TOUCH, value)] + rest)[1..] == rest;
  }

  lemma ApplyGlobals(t: Touch, source: Touch)
    requires Encodable(source) && t.Fits() && t.axes.Keys <= source.axes.Keys
    ensures SlotsFit(AbsEvents(source.axes, Codes(source.axes.Keys)), |t.contacts|)
    ensures Replay(t, AbsEvents(source.axes, Codes(source.axes.Keys))) == t.(axes := source.axes)
  {
    CodesSpec(source.axes.Keys);
    CodesWithin(source.axes.Keys);
    ApplyGlobalValues(t, source.axes, Codes(source.axes.Keys));
    PutAll(t.axes, source.axes, Codes(source.axes.Keys));
    assert t.axes + source.axes == source.axes;
  }

  /** The last part of a snapshot: shared axes, remaining keys and the current slot. */
  lemma ApplySnapshotTail(t: Touch, source: Touch)
    requires Encodable(source) && t.Fits() && |t.contacts| == |source.contacts|
    requires t.axes.Keys <= source.axes.Keys
    requires t.keys == if TOUCH in source.keys then {TOUCH} else {}
    ensures SlotsFit(SnapshotTail(source), |t.contacts|)
    ensures Replay(t, SnapshotTail(source)) == source.(contacts := t.contacts)
  {
    var keys := KeyEvents(OtherKeys(source), 1);
    ApplyGlobals(t, source);
    var t3 := t.(axes := source.axes);
    ApplyKeys(t3, OtherKeys(source), 1);
    NamedOtherKeys(source);
    assert t3.keys + (source.keys - {TOUCH}) == source.keys;
    ApplySnoc(t3, keys, SlotEvent(source.slot));
    ApplyConcat(t, AbsEvents(source.axes, Codes(source.axes.Keys)), keys + [SlotEvent(source.slot)]);
  }

  lemma SnapshotRebuildsIn(blank: Touch, t: Touch)
    requires Encodable(t) && |blank.contacts| == |t.contacts|
    requires blank.slot == 0 && blank.keys == {} && blank.axes.Keys <= t.axes.Keys
    requires forall i :: 0 <= i < |blank.contacts| ==> blank.contacts[i] == map[TRACKING := -1]
    ensures SlotsFit(SnapshotOf(t), |t.contacts|)
    ensures Replay(blank, SnapshotOf(t)) == Rebuilt(t)
  {
    var frames := ContactFrames(t.contacts, |t.contacts|);
    var value := if TOUCH in t.keys then 1 else 0;
    var t1 := ApplyOne(blank, TouchEvent(Key, TOUCH, value));
    ApplyContactFrames(t1, t, |t.contacts|);
    var t2 := Replay(t1, frames);
    assert t2.contacts == Rebuilt(t).contacts;
    ApplySnapshotTail(t2, t);
    ApplyConcat(t1, frames, SnapshotTail(t));
    ApplyTouch(blank, value, frames + SnapshotTail(t));
  }

  /** Replaying a snapshot into a new destination rebuilds slot, keys, axes and every active contact. */
  lemma SnapshotRebuilds(d: Descriptor, t: Touch)
    requires d.Valid() && InShape(d, t)
    ensures SlotsFit(SnapshotOf(t), d.Slots())
    ensures Replay(New(d), SnapshotOf(t)) == Rebuilt(t)
  {
    ShapeIsEncodable(d, t);
    MinimaKeys(d);
    SnapshotRebuildsIn(New(d), t);
  }

  /** The same stroke with only what belongs to fingers on the pad. */
  function Rebuilt(t: Touch): (r: Touch) {
    t.(contacts := seq(|t.contacts|, i requires 0 <= i < |t.contacts| =>
      if Active(t.contacts[i]) then map[TRACKING := -1] + t.contacts[i] else map[TRACKING := -1]))
  }

  lemma {:induction false} ApplyEndings(t: Touch, n: nat)
    requires t.Fits() && n <= |t.contacts|
    ensures SlotsFit(Endings(n), |t.contacts|)
    ensures var r := Replay(t, Endings(n));
            && r.keys == t.keys && r.axes == t.axes
            && (forall i :: 0 <= i < n ==> r.contacts[i] == t.contacts[i][TRACKING := -1])
            && (forall i :: n <= i < |t.contacts| ==> r.contacts[i] == t.contacts[i])
  {
    if n > 0 {
      ApplyEndings(t, n - 1);
      ApplySnoc(t, Endings(n - 1), SlotEvent(n - 1));
      ApplySnoc(t, Endings(n - 1) + [SlotEvent(n - 1)], TrackingEvent(-1));
      assert Endings(n) == Endings(n - 1) + [SlotEvent(n - 1)] + [TrackingEvent(-1)];
    }
  }

  /** Replaying the release frame of a state into that state lifts every finger and every key. */
  lemma ReleasesLift(d: Descriptor, t: Touch)
    requires d.Valid() && InShape(d, t)
    ensures SlotsFit(ReleasesOf(t), |t.contacts|) && Idle(Replay(t, ReleasesOf(t)))
  {
    ShapeIsEncodable(d, t);
    var endings := Endings(|t.contacts|);
    var keys := KeyEvents(OtherKeys(t), 0);
    var t1 := ApplyOne(t, TouchEvent(Key, TOUCH, 0));
    ApplyEndings(t1, |t.contacts|);
    var t2 := Replay(t1, endings);
    ApplyKeys(t2, OtherKeys(t), 0);
    ApplyConcat(t1, endings, keys);
    ApplyTouch(t, 0, endings + keys);
    NamedOtherKeys(t);
    assert t1.keys - (t.keys - {TOUCH}) == {};
  }

  // ---- The interpreter itself ----

  class TouchState {
    var slot: int
    var keys: set<int>
    var axes: map<int, int>
    var contacts: seq<Contact>

    function View(): Touch
      reads this
    {
      Touch(slot, keys, axes, contacts)
    }

    constructor (d: Descriptor)
      requires d.Valid()
      ensures View() == New(d)
    {
      slot := 0;
      keys := {};
      contacts := seq(Find(d.axes, SLOT).value.maximum + 1, _ => map[TRACKING := -1]);
      axes := map[];
      new;
      for i := 0 to |d.axes|
        modifies this`axes
        invariant axes == Minima(d.axes, i)
      {
        if d.axes[i].code < SLOT {
          axes := axes[d.axes[i].code := d.axes[i].minimum];
        }
      }
    }

    method Apply(events: seq<TouchEvent>)
      requires View().Fits() && SlotsFit(events, |contacts|)
      modifies this
      ensures View() == Replay(old(View()), events)
    {
      for i := 0 to |events|
        invariant View().Fits() && |contacts| == old(|contacts|)
        invariant View() == Replay(old(View()), events[..i])
      {
        var event := events[i];
        if event.kind == Key {
          if event.value == 0 {
            keys := keys - {event.code};
          } else {
            keys := keys + {event.code};
          }
        } else if event.code == SLOT {
          slot := event.value;
        } else if event.code > SLOT {
          contacts := contacts[slot := contacts[slot][event.code := event.value]];
        } else {
          axes := axes[event.code := event.value];
        }
        ApplySnoc(old(View()), events[..i], event);
        assert events[..i + 1] == events[..i] + [event];
      }
      assert events[..|events|] == events;
    }

    method Snapshot() returns (events: seq<TouchEvent>)
      ensures events == SnapshotOf(View())
    {
      var touching: seq<TouchEvent> := [];
      for i := 0 to |contacts|
        invariant touching == ContactFrames(contacts, i)
      {
        var frame: seq<TouchEvent> := [];
        if TrackingOf(contacts[i]) >= 0 {
          frame := [SlotEvent(i), TrackingEvent(TrackingOf(contacts[i]))];
          frame := frame + AbsEvents(contacts[i], Codes(contacts[i].Keys - {TRACKING}));
        }
        touching := touching + frame;
      }
      var tail := AbsEvents(axes, Codes(axes.Keys)) + (KeyEvents(Codes(keys - {TOUCH}), 1) + [SlotEvent(slot)]);
      events := [TouchEvent(Key, TOUCH, if TOUCH in keys then 1 else 0)] + (touching + tail);
    }

    method Releases() returns (events: seq<TouchEvent>)
      ensures events == ReleasesOf(View())
    {
      var head := [TouchEvent(Key, TOUCH, 0)];
      events := head;
      for i := 0 to |contacts|
        invariant events == head + Endings(i)
      {
        events := events + [SlotEvent(i)];
        events := events + [TrackingEvent(-1)];
        assert events == head + (Endings(i) + [SlotEvent(i), TrackingEvent(-1)]);
      }
      events := events + KeyEvents(Codes(keys - {TOUCH}), 0);
    }

    method IsIdle() returns (idle: bool)
      ensures idle <==> Idle(View())
    {
      idle := keys == {} && forall i :: 0 <= i < |contacts| ==> !Active(contacts[i]);
    }
  }
}
