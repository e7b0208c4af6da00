// Keys held on the selected physical keyboards (PhysicalKeys in src/input.rs, fed by src/activity.rs).
module Keyboard {
  import opened Ordered
  import opened Protocol

  const QUEUE_LIMIT := 512

  /** What sampling one device can find. */
  datatype Change = Moved(device: nat, code: int, pressed: bool) | Gone(device: nat)

  /** The keys held on each device, and the changes of their union not yet taken. `seen` remembers what the devices have
      reported since they were opened. */
  datatype Keys = Keys(devices: map<nat, set<int>>, pending: seq<InputEvent>, seen: seq<Change>)

  /** Devices that have just been opened. */
  const NO_KEYS := Keys(map[], [], [])

  /** The union of the keys held on all devices. */
  function Held(devices: map<nat, set<int>>): set<int> {
    set d, c | d in devices && c in devices[d] :: c
  }

  function DeviceKeys(devices: map<nat, set<int>>, device: nat): set<int> {
    if device in devices then devices[device] else {}
  }

  function Updated(k: Keys, device: nat, code: int, pressed: bool): Outcome<Keys> {
    if !(1 <= code <= 255) then Ok(k)
    else
      var keys := DeviceKeys(k.devices, device);
      var devices := k.devices[device := if pressed then keys + {code} else keys - {code}];
      var before, after := code in Held(k.devices), code in Held(devices);
      if before == after then Ok(k.(devices := devices))
      else if |k.pending| >= QUEUE_LIMIT then Failed
      else Ok(k.(devices := devices, pending := k.pending + [KeyInput(code, after)]))
  }

  function ReleaseEach(k: Keys, device: nat, codes: seq<int>): Outcome<Keys> {
    if codes == [] then Ok(k)
    else
      var rest :- ReleaseEach(k, device, codes[..|codes| - 1]);
      Updated(rest, device, codes[|codes| - 1], false)
  }

  function Disconnected(k: Keys, device: nat): Outcome<Keys> {
    var released :- ReleaseEach(k, device, Codes(DeviceKeys(k.devices, device)));
    Ok(released.(devices := released.devices - {device}))
  }

  /** Ctrl, Alt and Shift, each from either side. */
  predicate Emergency(keys: set<int>) {
    (29 in keys || 97 in keys) && (56 in keys || 100 in keys) && (42 in keys || 54 in keys)
  }

  const ESCAPE := 1

  function Handled(k: Keys, c: Change): Outcome<Keys> {
    match c
    case Moved(device, code, pressed) => Updated(k, device, code, pressed)
    case Gone(device) => Disconnected(k, device)
  }

  /** The environment makes a change, and the program handles it. */
  function Absorb(k: Keys, c: Change): Outcome<Keys> {
    var after :- Handled(k, c);
    Ok(after.(seen := k.seen + [c]))
  }

  function AbsorbAll(k: Keys, changes: seq<Change>): Outcome<Keys> {
    if changes == [] then Ok(k)
    else
      var rest :- AbsorbAll(k, changes[..|changes| - 1]);
      Absorb(rest, changes[|changes| - 1])
  }

  // ---- What the devices themselves say is held ----

  /** The change lifts this key of this device: a release of it, or the loss of the whole device. */
  predicate Lifts(c: Change, device: nat, code: int) {
    c == Moved(device, code, false) || c == Gone(device)
  }

  /** The change at `i` presses this key of this device, and none since has lifted it. */
  ghost predicate PressedAt(changes: seq<Change>, i: nat, device: nat, code: int) {
    && i < |changes| && changes[i] == Moved(device, code, true)
    && forall j :: i < j < |changes| ==> !Lifts(changes[j], device, code)
  }

  /** By the changes alone, the key is down on the device. Only the codes of keyboards count. */
  ghost predicate HeldOn(changes: seq<Change>, device: nat, code: int) {
    1 <= code <= 255 && exists i: nat :: PressedAt(changes, i, device, code)
  }

  ghost predicate HeldSomewhere(changes: seq<Change>, code: int) {
    exists d: nat :: HeldOn(changes, d, code)
  }

  /** By the changes alone, these keys are down on some device. */
  ghost function PhysicallyHeld(changes: seq<Change>): set<int> {
    set c | 1 <= c <= 255 && HeldSomewhere(changes, c)
  }

  /** The map says of this key of this device what the changes say. */
  ghost predicate Agrees(k: Keys, changes: seq<Change>, device: nat, code: int) {
    code in DeviceKeys(k.devices, device) <==> HeldOn(changes, device, code)
  }

  /** The program's map says of every device exactly what the devices have reported. */
  ghost predicate Observes(k: Keys) {
    forall d: nat, c: int :: Agrees(k, k.seen, d, c)
  }

  lemma NothingSeen()
    ensures Observes(NO_KEYS) && Mirrors([], NO_KEYS)
  {
  }

  /** One more change: the key is down if it is pressed now, or was down and is not lifted. */
  lemma HeldNext(changes: seq<Change>, c: Change, device: nat, code: int)
    ensures HeldOn(changes + [c], device, code)
       <==> 1 <= code <= 255
            && (c == Moved(device, code, true) || (HeldOn(changes, device, code) && !Lifts(c, device, code)))
  {
    var all := changes + [c];
    assert all[|changes|] == c;
    if c == Moved(device, code, true) {
      assert PressedAt(all, |changes|, device, code);
    }
    if HeldOn(changes, device, code) && !Lifts(c, device, code) {
      var i: nat :| PressedAt(changes, i, device, code);
      assert PressedAt(all, i, device, code);
    }
    if HeldOn(all, device, code) && c != Moved(device, code, true) {
      var i: nat :| PressedAt(all, i, device, code);
      assert all[i] == changes[i];
      forall j | i < j < |changes| ensures !Lifts(changes[j], device, code) {
        assert all[j] == changes[j];
      }
      assert PressedAt(changes, i, device, code);
    }
  }

  lemma ObservedHeld(k: Keys)
    requires Observes(k)
    ensures Held(k.devices) == PhysicallyHeld(k.seen)
  {
    forall c ensures c in Held(k.devices) <==> c in PhysicallyHeld(k.seen) {
      if c in Held(k.devices) {
        var d :| d in k.devices && c in k.devices[d];
        assert Agrees(k, k.seen, d, c);
      }
      if c in PhysicallyHeld(k.seen) {
        var d: nat :| HeldOn(k.seen, d, c);
        assert Agrees(k, k.seen, d, c);
      }
    }
  }

  lemma UpdateObserves(k: Keys, device: nat, code: int, pressed: bool)
    requires Observes(k) && Updated(k, device, code, pressed).Ok?
    ensures forall d: nat, c: int ::
              Agrees(Updated(k, device, code, pressed).value, k.seen + [Moved(device, code, pressed)], d, c)
  {
    forall d: nat, c: int
      ensures Agrees(Updated(k, device, code, pressed).value, k.seen + [Moved(device, code, pressed)], d, c)
    {
      HeldNext(k.seen, Moved(device, code, pressed), d, c);
      assert Agrees(k, k.seen, d, c);
    }
  }

  /** Releasing the keys of one device leaves the others alone. */
  lemma {:induction false} ReleaseEachSpares(k: Keys, device: nat, codes: seq<int>)
    ensures var r := ReleaseEach(k, device, codes);
            r.Ok? ==> forall d: nat :: d != device ==> DeviceKeys(r.value.devices, d) == DeviceKeys(k.devices, d)
    decreases |codes|
  {
    if codes != [] {
      ReleaseEachSpares(k, device, codes[..|codes| - 1]);
    }
  }

  lemma DisconnectObserves(k: Keys, device: nat)
    requires Observes(k) && Disconnected(k, device).Ok?
    ensures forall d: nat, c: int :: Agrees(Disconnected(k, device).value, k.seen + [Gone(device)], d, c)
  {
    ReleaseEachSpares(k, device, Codes(DeviceKeys(k.devices, device)));
    forall d: nat, c: int ensures Agrees(Disconnected(k, device).value, k.seen + [Gone(device)], d, c) {
      HeldNext(k.seen, Gone(device), d, c);
      assert Agrees(k, k.seen, d, c);
    }
  }

  lemma AbsorbObserves(k: Keys, c: Change)
    requires Observes(k)
    ensures Absorb(k, c).Ok? ==> Observes(Absorb(k, c).value)
  {
    hide Agrees, Updated, Disconnected, Observes;
    if Absorb(k, c).Ok? {
      match c {
        case Moved(device, code, pressed) => UpdateObserves(k, device, code, pressed);
        case Gone(device) => DisconnectObserves(k, device);
      }
      SameMap(Handled(k, c).value, Absorb(k, c).value);
    }
  }

  lemma SameMap(k: Keys, r: Keys)
    requires r.devices == k.devices && forall d: nat, c: int :: Agrees(k, r.seen, d, c)
    ensures Observes(r)
  {
    forall d: nat, c: int ensures Agrees(r, r.seen, d, c) {
      assert Agrees(k, r.seen, d, c);
    }
  }

  /** Over every run of changes that does not overflow the queue, a key is in the map exactly if its device says it is
      held: pressed, and neither released nor lost with the device since. */
  lemma {:induction false} AbsorbAllObserves(k: Keys, changes: seq<Change>)
    requires Observes(k)
    ensures var r := AbsorbAll(k, changes); r.Ok? ==> r.value.seen == k.seen + changes && Observes(r.value)
    decreases |changes|
  {
    hide Observes, Handled;
    if changes != [] {
      var shorter, last := changes[..|changes| - 1], changes[|changes| - 1];
      AbsorbAllObserves(k, shorter);
      assert k.seen + changes == (k.seen + shorter) + [last];
      if AbsorbAll(k, shorter).Ok? {
        AbsorbObserves(AbsorbAll(k, shorter).value, last);
      }
    }
  }

  // ---- Whole runs ----

  /** Every event really changes what is pressed: a press only of a key that is up, a release only of one
      that is down. */
  ghost predicate Alternates(events: seq<InputEvent>) {
    forall i :: 0 <= i < |events| ==>
      events[i].KeyInput? && 1 <= events[i].code <= 255
      && (events[i].pressed <==> events[i].code !in Pressed(events[..i]))
  }

  /** The events so far say exactly what is held. */
  ghost predicate Mirrors(events: seq<InputEvent>, k: Keys) {
    && Alternates(events) && Pressed(events) == Held(k.devices)
    && forall c :: c in Held(k.devices) ==> 1 <= c <= 255
  }

  lemma AppendAlternates(events: seq<InputEvent>, code: int, pressed: bool)
    requires Alternates(events) && 1 <= code <= 255 && (pressed <==> code !in Pressed(events))
    ensures Alternates(events + [KeyInput(code, pressed)])
  {
    var all := events + [KeyInput(code, pressed)];
    forall i | 0 <= i < |all|
      ensures all[i].KeyInput? && 1 <= all[i].code <= 255 && (all[i].pressed <==> all[i].code !in Pressed(all[..i])) {
      assert all[..i] == events[..i];
      assert events[..|events|] == events;
    }
  }

  /** Changing one key of one device changes nothing else in the union. */
  lemma HeldAfter(devices: map<nat, set<int>>, device: nat, code: int, pressed: bool)
    ensures var keys := DeviceKeys(devices, device);
            var after := devices[device := if pressed then keys + {code} else keys - {code}];
            Held(after) == if code in Held(after) then Held(devices) + {code} else Held(devices) - {code}
  {
    var keys := DeviceKeys(devices, device);
    var after := devices[device := if pressed then keys + {code} else keys - {code}];
    forall c | c != code ensures c in Held(after) <==> c in Held(devices) {
      if c in Held(devices) {
        var d :| d in devices && c in devices[d];
        assert d in after && c in after[d];
      }
      if c in Held(after) {
        var d :| d in after && c in after[d];
        assert d in devices && c in devices[d];
      }
    }
  }

  lemma UpdateMirrors(taken: seq<InputEvent>, k: Keys, device: nat, code: int, pressed: bool)
    requires Mirrors(taken + k.pending, k)
    ensures var r := Updated(k, device, code, pressed); r.Ok? ==> Mirrors(taken + r.value.pending, r.value)
  {
    var r := Updated(k, device, code, pressed);
    if r.Ok? && 1 <= code <= 255 {
      HeldAfter(k.devices, device, code, pressed);
      var events := taken + k.pending;
      var before, after := code in Held(k.devices), code in Held(r.value.devices);
      if before != after {
        assert taken + r.value.pending == events + [KeyInput(code, after)];
        AppendAlternates(events, code, after);
        PressedAppend(events, KeyInput(code, after));
      }
    }
  }

  lemma DeviceKeysHeld(devices: map<nat, set<int>>, device: nat)
    ensures DeviceKeys(devices, device) <= Held(devices)
  {
    forall c | c in DeviceKeys(devices, device) ensures c in Held(devices) {
      assert device in devices && c in devices[device];
    }
  }

  lemma ReleasedKey(k: Keys, device: nat, code: int)
    ensures var r := Updated(k, device, code, false);
            r.Ok? ==> forall c :: c in DeviceKeys(r.value.devices, device) ==>
                        c in DeviceKeys(k.devices, device) && (1 <= c <= 255 ==> c != code)
  {
  }

  lemma {:induction false} ReleaseEachMirrors(taken: seq<InputEvent>, k: Keys, device: nat, codes: seq<int>)
    requires Mirrors(taken + k.pending, k)
    ensures var r := ReleaseEach(k, device, codes);
            r.Ok? ==> && Mirrors(taken + r.value.pending, r.value)
                      && (forall c :: c in DeviceKeys(r.value.devices, device) ==>
                            c in DeviceKeys(k.devices, device) && (1 <= c <= 255 ==> c !in codes))
    decreases |codes|
  {
    if codes != [] {
      hide Mirrors, Updated, DeviceKeys;
      var before := codes[..|codes| - 1];
      ReleaseEachMirrors(taken, k, device, before);
      var rest := ReleaseEach(k, device, before);
      if rest.Ok? {
        UpdateMirrors(taken, rest.value, device, codes[|codes| - 1], false);
        ReleasedKey(rest.value, device, codes[|codes| - 1]);
        assert forall c :: c in codes <==> c in before || c == codes[|codes| - 1];
      }
    }
  }

  lemma DisconnectMirrors(taken: seq<InputEvent>, k: Keys, device: nat)
    requires Mirrors(taken + k.pending, k)
    ensures var r := Disconnected(k, device); r.Ok? ==> Mirrors(taken + r.value.pending, r.value)
  {
    var keys := DeviceKeys(k.devices, device);
    ReleaseEachMirrors(taken, k, device, Codes(keys));
    var released := ReleaseEach(k, device, Codes(keys));
    if released.Ok? {
      CodesSpec(keys);
      DeviceKeysHeld(k.devices, device);
      assert forall c :: c in keys ==> 1 <= c <= 255 && c in Codes(keys);
      var left := DeviceKeys(released.value.devices, device);
      assert forall c :: c in left ==> c in keys && c !in Codes(keys);
      assert forall c :: c !in left;
      assert left == {};
      var after := released.value.devices - {device};
      forall c ensures c in Held(after) <==> c in Held(released.value.devices) {
        if c in Held(released.value.devices) {
          var d :| d in released.value.devices && c in released.value.devices[d];
          assert d != device;
          assert d in after && c in after[d];
        }
      }
    }
  }

  lemma HandledMirrors(taken: seq<InputEvent>, k: Keys, c: Change)
    requires Mirrors(taken + k.pending, k)
    ensures Absorb(k, c).Ok? ==> Mirrors(taken + Absorb(k, c).value.pending, Absorb(k, c).value)
  {
    match c
    case Moved(device, code, pressed) => UpdateMirrors(taken, k, device, code, pressed);
    case Gone(device) => DisconnectMirrors(taken, k, device);
  }

  /** Whatever sampling finds, everything taken plus everything pending still says exactly what is held. */
  lemma {:induction false} AbsorbAllMirrors(taken: seq<InputEvent>, k: Keys, changes: seq<Change>)
    requires Mirrors(taken + k.pending, k)
    ensures var r := AbsorbAll(k, changes); r.Ok? ==> Mirrors(taken + r.value.pending, r.value)
    decreases |changes|
  {
    if changes != [] {
      AbsorbAllMirrors(taken, k, changes[..|changes| - 1]);
      var rest := AbsorbAll(k, changes[..|changes| - 1]);
      if rest.Ok? {
        HandledMirrors(taken, rest.value, changes[|changes| - 1]);
      }
    }
  }

  // ---- The values the union goes through ----

  /** The union of the keys held had this value while the keys of one device were released one by one. */
  ghost predicate TookReleasing(k: Keys, device: nat, codes: seq<int>, v: set<int>) {
    exists j :: 0 <= j <= |codes| && HeldAfterReleasing(k, device, codes[..j]) == Ok(v)
  }

  function HeldAfterReleasing(k: Keys, device: nat, codes: seq<int>): Outcome<set<int>> {
    match ReleaseEach(k, device, codes)
    case Ok(after) => Ok(Held(after.devices))
    case Failed => Failed
  }

  ghost predicate TookBy(k: Keys, c: Change, v: set<int>) {
    match c
    case Moved(device, code, pressed) =>
      Updated(k, device, code, pressed).Ok? && v == Held(Updated(k, device, code, pressed).value.devices)
    case Gone(device) => TookReleasing(k, device, Codes(DeviceKeys(k.devices, device)), v)
  }

  /** Before one of these further changes, after all of them, or while one of them took a device away key by key, these
      were the keys physically held. */
  ghost predicate Took(seen: seq<Change>, changes: seq<Change>, v: set<int>) {
    exists i: nat :: i <= |changes| && TookAt(seen, changes, i, v)
  }

  ghost predicate TookAt(seen: seq<Change>, changes: seq<Change>, i: nat, v: set<int>)
    requires i <= |changes|
  {
    || v == PhysicallyHeld(seen + changes[..i])
    || (i < |changes| && changes[i].Gone?
        && PhysicallyHeld(seen + changes[..i + 1]) <= v <= PhysicallyHeld(seen + changes[..i]))
  }

  lemma UpdatedAppends(k: Keys, device: nat, code: int, pressed: bool)
    ensures var r := Updated(k, device, code, pressed);
            r.Ok? ==> k.pending <= r.value.pending && |r.value.pending| <= |k.pending| + 1
  {
  }

  lemma {:induction false} ReleaseEachAppends(k: Keys, device: nat, codes: seq<int>)
    ensures var r := ReleaseEach(k, device, codes); r.Ok? ==> k.pending <= r.value.pending
    decreases |codes|
  {
    if codes != [] {
      ReleaseEachAppends(k, device, codes[..|codes| - 1]);
      var rest := ReleaseEach(k, device, codes[..|codes| - 1]);
      if rest.Ok? {
        UpdatedAppends(rest.value, device, codes[|codes| - 1], false);
      }
    }
  }

  lemma AbsorbAppends(k: Keys, c: Change)
    ensures var r := Absorb(k, c); r.Ok? ==> k.pending <= r.value.pending
  {
    match c
    case Moved(device, code, pressed) => UpdatedAppends(k, device, code, pressed);
    case Gone(device) => ReleaseEachAppends(k, device, Codes(DeviceKeys(k.devices, device)));
  }

  lemma {:induction false} ReleasingTakes(taken: seq<InputEvent>, k: Keys, device: nat, codes: seq<int>, j: nat)
    requires Mirrors(taken + k.pending, k) && ReleaseEach(k, device, codes).Ok?
    requires |k.pending| <= j <= |ReleaseEach(k, device, codes).value.pending|
    ensures TookReleasing(k, device, codes, Pressed(taken + ReleaseEach(k, device, codes).value.pending[..j]))
    decreases |codes|
  {
    hide Updated, Held, Pressed, Alternates;
    var r := ReleaseEach(k, device, codes).value;
    if codes == [] || j == |r.pending| {
      ReleaseEachMirrors(taken, k, device, codes);
      assert r.pending[..j] == r.pending && codes[..|codes|] == codes;
    } else {
      var before := codes[..|codes| - 1];
      var rest := ReleaseEach(k, device, before).value;
      ReleaseEachAppends(k, device, before);
      UpdatedAppends(rest, device, codes[|codes| - 1], false);
      assert r.pending[..j] == rest.pending[..j];
      ReleasingTakes(taken, k, device, before, j);
      var m :| 0 <= m <= |before|
               && HeldAfterReleasing(k, device, before[..m]) == Ok(Pressed(taken + rest.pending[..j]));
      assert before[..m] == codes[..m];
    }
  }

  lemma TookEarlier(seen: seq<Change>, changes: seq<Change>, v: set<int>)
    requires changes != [] && Took(seen, changes[..|changes| - 1], v)
    ensures Took(seen, changes, v)
  {
    hide PhysicallyHeld;
    var before := changes[..|changes| - 1];
    var i: nat :| i <= |before| && TookAt(seen, before, i, v);
    assert before[..i] == changes[..i] && (i < |before| ==> before[..i + 1] == changes[..i + 1]);
    assert TookAt(seen, changes, i, v);
  }

  /** Releasing keys of one device can only make the union smaller, and never below what the other devices hold. */
  lemma {:induction false} ReleasingShrinks(k: Keys, device: nat, codes: seq<int>)
    ensures var r := ReleaseEach(k, device, codes);
            r.Ok? ==> Held(k.devices - {device}) <= Held(r.value.devices) <= Held(k.devices)
    decreases |codes|
  {
    if codes == [] {
      WithoutDevice(k.devices, device);
    } else {
      var shorter, code := codes[..|codes| - 1], codes[|codes| - 1];
      ReleasingShrinks(k, device, shorter);
      if ReleaseEach(k, device, shorter).Ok? {
        var rest := ReleaseEach(k, device, shorter).value;
        ReleaseEachSpares(k, device, codes);
        HeldAfter(rest.devices, device, code, false);
        if ReleaseEach(k, device, codes).Ok? {
          KeepsOthers(k.devices, ReleaseEach(k, device, codes).value.devices, device);
        }
      }
    }
  }

  lemma WithoutDevice(devices: map<nat, set<int>>, device: nat)
    ensures Held(devices - {device}) <= Held(devices)
  {
    forall c | c in Held(devices - {device}) ensures c in Held(devices) {
      var d :| d in devices - {device} && c in (devices - {device})[d];
      assert d in devices && c in devices[d];
    }
  }

  lemma KeepsOthers(devices: map<nat, set<int>>, after: map<nat, set<int>>, device: nat)
    requires forall d: nat :: d != device ==> DeviceKeys(after, d) == DeviceKeys(devices, d)
    ensures Held(devices - {device}) <= Held(after)
  {
    forall c | c in Held(devices - {device}) ensures c in Held(after) {
      var d :| d in devices - {device} && c in (devices - {device})[d];
      assert c in DeviceKeys(after, d);
    }
  }

  lemma LastTakes(taken: seq<InputEvent>, k: Keys, c: Change, j: nat)
    requires Mirrors(taken + k.pending, k) && Absorb(k, c).Ok?
    requires |k.pending| < j <= |Absorb(k, c).value.pending|
    ensures TookBy(k, c, Pressed(taken + Absorb(k, c).value.pending[..j]))
  {
    hide Updated, Held, Pressed, Alternates;
    var r := Absorb(k, c).value;
    match c
    case Moved(device, code, pressed) =>
      UpdatedAppends(k, device, code, pressed);
      UpdateMirrors(taken, k, device, code, pressed);
      assert r.pending[..j] == r.pending;
    case Gone(device) =>
      ReleasingTakes(taken, k, device, Codes(DeviceKeys(k.devices, device)), j);
  }

  lemma TakenIsPhysical(k: Keys, c: Change, v: set<int>)
    requires Observes(k) && Absorb(k, c).Ok? && TookBy(k, c, v)
    ensures c.Moved? ==> v == PhysicallyHeld(k.seen + [c])
    ensures c.Gone? ==> PhysicallyHeld(k.seen + [c]) <= v <= PhysicallyHeld(k.seen)
  {
    hide Held, PhysicallyHeld, Observes, Updated;
    var after := Absorb(k, c).value;
    AbsorbObserves(k, c);
    ObservedHeld(k);
    ObservedHeld(after);
    if c.Gone? {
      var codes := Codes(DeviceKeys(k.devices, c.device));
      var j :| 0 <= j <= |codes| && HeldAfterReleasing(k, c.device, codes[..j]) == Ok(v);
      ReleasingShrinks(k, c.device, codes[..j]);
      ReleaseEachSpares(k, c.device, codes[..j]);
      ReleaseEachSpares(k, c.device, codes);
      assert after.devices - {c.device} == after.devices;
      KeepsOthers(after.devices, ReleaseEach(k, c.device, codes[..j]).value.devices, c.device);
    }
  }

  lemma TookLast(k: Keys, changes: seq<Change>, v: set<int>)
    requires changes != [] && Observes(k) && AbsorbAll(k, changes).Ok?
    requires TookBy(AbsorbAll(k, changes[..|changes| - 1]).value, changes[|changes| - 1], v)
    ensures Took(k.seen, changes, v)
  {
    hide TookBy, PhysicallyHeld, Observes, Handled;
    var before, last := changes[..|changes| - 1], changes[|changes| - 1];
    AbsorbAllObserves(k, before);
    TakenIsPhysical(AbsorbAll(k, before).value, last, v);
    assert changes[..|changes|] == changes && k.seen + changes == (k.seen + before) + [last];
    if last.Moved? {
      assert TookAt(k.seen, changes, |changes|, v);
    } else {
      assert TookAt(k.seen, changes, |changes| - 1, v);
    }
  }

  lemma NothingTaken(taken: seq<InputEvent>, k: Keys)
    requires Mirrors(taken + k.pending, k) && Observes(k)
    ensures Took(k.seen, [], Pressed(taken + k.pending))
  {
    hide PhysicallyHeld, Observes;
    ObservedHeld(k);
    var none: seq<Change> := [];
    assert k.seen + none[..0] == k.seen;
    assert TookAt(k.seen, none, 0, Pressed(taken + k.pending));
  }

  /** Every beginning of the queued changes, together with everything taken before, presses keys that were physically
      held while the changes were taken in. */
  lemma {:induction false} EveryPrefixWasHeld(taken: seq<InputEvent>, k: Keys, changes: seq<Change>, j: nat)
    requires Mirrors(taken + k.pending, k) && Observes(k) && AbsorbAll(k, changes).Ok?
    requires |k.pending| <= j <= |AbsorbAll(k, changes).value.pending|
    ensures Took(k.seen, changes, Pressed(taken + AbsorbAll(k, changes).value.pending[..j]))
    decreases |changes|
  {
    hide Held, Pressed, Alternates, Handled, TookBy, Took, Observes;
    var r := AbsorbAll(k, changes).value;
    if changes == [] {
      assert r.pending[..j] == r.pending;
      NothingTaken(taken, k);
    } else {
      var before, last := changes[..|changes| - 1], changes[|changes| - 1];
      var rest := AbsorbAll(k, before).value;
      AbsorbAllMirrors(taken, k, before);
      AbsorbAppends(rest, last);
      if j <= |rest.pending| {
        assert r.pending[..j] == rest.pending[..j];
        EveryPrefixWasHeld(taken, k, before, j);
        TookEarlier(k.seen, changes, Pressed(taken + r.pending[..j]));
      } else {
        LastTakes(taken, rest, last, j);
        TookLast(k, changes, Pressed(taken + r.pending[..j]));
      }
    }
  }

  /** A run alternates sampling and draining; `Run` gives what was taken in all and what is left. */
  datatype Session = Session(taken: seq<InputEvent>, keys: Keys)

  function Run(rounds: seq<seq<Change>>): Outcome<Session> {
    if rounds == [] then Ok(Session([], NO_KEYS))
    else
      var s :- Run(rounds[..|rounds| - 1]);
      var keys :- AbsorbAll(s.keys, rounds[|rounds| - 1]);
      Ok(Session(s.taken + keys.pending, keys.(pending := [])))
  }

  /** All that the devices reported in these rounds. */
  function Reported(rounds: seq<seq<Change>>): seq<Change> {
    if rounds == [] then [] else Reported(rounds[..|rounds| - 1]) + rounds[|rounds| - 1]
  }

  /** Over any run that does not overflow the queue, the events taken, replayed from nothing, press exactly the keys
      that are physically held, and each of them changed what is pressed. */
  lemma {:induction false} AggregationIsExact(rounds: seq<seq<Change>>)
    requires Run(rounds).Ok?
    ensures var s := Run(rounds).value;
            && Pressed(s.taken) == Held(s.keys.devices) == PhysicallyHeld(Reported(rounds))
            && Alternates(s.taken) && s.keys.pending == [] && s.keys.seen == Reported(rounds)
            && Observes(s.keys) && Mirrors(s.taken, s.keys)
    decreases |rounds|
  {
    hide Observes, PhysicallyHeld, Held, Alternates;
    if rounds == [] {
      NothingSeen();
    } else {
      AggregationIsExact(rounds[..|rounds| - 1]);
      var s := Run(rounds[..|rounds| - 1]).value;
      assert s.taken + s.keys.pending == s.taken;
      AbsorbAllMirrors(s.taken, s.keys, rounds[|rounds| - 1]);
      AbsorbAllObserves(s.keys, rounds[|rounds| - 1]);
      SameHeld(AbsorbAll(s.keys, rounds[|rounds| - 1]).value);
    }
    ObservedHeld(Run(rounds).value.keys);
  }

  /** What is pending does not matter to what is held. */
  lemma SameHeld(k: Keys)
    ensures Observes(k) ==> Observes(k.(pending := []))
  {
    hide HeldOn;
    if Observes(k) {
      forall d: nat, c: int ensures Agrees(k.(pending := []), k.seen, d, c) {
        assert Agrees(k, k.seen, d, c);
      }
    }
  }

  // ---- The aggregation itself ----

  class PhysicalKeys {
    var devices: map<nat, set<int>>
    var pending: seq<InputEvent>
    ghost var seen: seq<Change>

    ghost function View(): Keys
      reads this
    {
      Keys(devices, pending, seen)
    }

    constructor ()
      ensures View() == NO_KEYS
    {
      devices := map[];
      pending := [];
      seen := [];
    }

    method Update(device: nat, code: int, pressed: bool) returns (ok: bool)
      modifies this`devices, this`pending
      ensures ok ==> Updated(old(View()), device, code, pressed) == Ok(View())
      ensures !ok ==> Updated(old(View()), device, code, pressed).Failed?
    {
      if !(1 <= code <= 255) {
        return true;
      }
      var before := code in Held(devices);
      var keys := if device in devices then devices[device] else {};
      if pressed {
        keys := keys + {code};
      } else {
        keys := keys - {code};
      }
      devices := devices[device := keys];
      var after := code in Held(devices);
      if before != after {
        if |pending| >= QUEUE_LIMIT {
          return false;
        }
        pending := pending + [KeyInput(code, after)];
      }
      return true;
    }

    method Disconnect(device: nat) returns (ok: bool)
      modifies this`devices, this`pending
      ensures ok ==> Disconnected(old(View()), device) == Ok(View())
      ensures !ok ==> Disconnected(old(View()), device).Failed?
    {
      var held := Codes(if device in devices then devices[device] else {});
      ghost var start := View();
      for i := 0 to |held|
        invariant ReleaseEach(start, device, held[..i]) == Ok(View())
      {
        assert held[..i + 1][..i] == held[..i];
        var released := Update(device, held[i], false);
        if !released {
          ReleaseFails(start, device, held, i + 1);
          return false;
        }
      }
      assert held[..|held|] == held;
      devices := devices - {device};
      return true;
    }

    method Drain() returns (events: seq<InputEvent>)
      modifies this`pending
      ensures events == old(pending) && pending == []
    {
      events := pending;
      pending := [];
    }
  }

  lemma {:induction false} ReleaseFails(k: Keys, device: nat, codes: seq<int>, upTo: nat)
    requires upTo <= |codes| && ReleaseEach(k, device, codes[..upTo]).Failed?
    ensures ReleaseEach(k, device, codes).Failed?
    decreases |codes| - upTo
  {
    if upTo == |codes| {
      assert codes[..upTo] == codes;
    } else {
      assert codes[..upTo + 1][..upTo] == codes[..upTo];
      ReleaseFails(k, device, codes, upTo + 1);
    }
  }
}
