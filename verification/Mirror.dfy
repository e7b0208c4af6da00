// The remote keyboard is the local one, a little earlier: every value it has is one that the keys physically held on
// the sender's devices had (src/bridge.rs, src/input.rs).
module Mirroring {
  import opened ControlSafety
  import opened Coordination
  import opened Injection
  import opened Link
  import opened Ordered
  import opened Protocol
  import opened Speech
  import Keyboard

  /** What has been said in every session so far. */
  function Inputs(n: Node): map<nat, seq<InputEvent>> {
    HearAll(n.physical, n.sent).inputs
  }

  predicate SendingIn(n: Node, s: nat) {
    n.role.Sending? && n.role.session == s
  }

  /** The log of session `s` grew, by at most a beginning of these events. */
  ghost predicate Grown(s: nat, n: Node, after: Node, events: seq<InputEvent>)
    requires s in Inputs(n)
  {
    && after.physical == n.physical && s in Inputs(after)
    && Inputs(n)[s] <= Inputs(after)[s] <= Inputs(n)[s] + events
  }

  /** A computer that was not sending in it, and still is not, said nothing in it. */
  ghost predicate Stays(s: nat, n: Node, f: Flow)
    requires s in Inputs(n)
  {
    !SendingIn(n, s) ==>
      && f.n.physical == n.physical && s in Inputs(f.n) && Inputs(f.n)[s] == Inputs(n)[s]
      && (f.More? ==> !SendingIn(f.n, s))
  }

  /** And one that is sending in it all along said all of them. */
  ghost predicate Extends(s: nat, n: Node, f: Flow, events: seq<InputEvent>)
    requires s in Inputs(n)
  {
    && Grown(s, n, f.n, events) && Stays(s, n, f)
    && (f.More? && SendingIn(n, s) && SendingIn(f.n, s) ==> Inputs(f.n)[s] == Inputs(n)[s] + events)
  }

  /** Steps that leave the sessions alone. */
  lemma SilentExtends(s: nat, n: Node, f: Flow)
    requires s in Inputs(n) && HearAll(n.physical, f.n.sent) == HearAll(n.physical, n.sent)
    requires f.n.physical == n.physical && (f.More? && SendingIn(f.n, s) ==> SendingIn(n, s))
    ensures Extends(s, n, f, [])
    ensures f.Halt? || !SendingIn(f.n, s) ==> forall events :: Extends(s, n, f, events)
  {
    hide HearAll;
    assert Inputs(n)[s] + [] == Inputs(n)[s];
  }

  /** First saying some events, then others. */
  lemma ThenExtends(s: nat, n: Node, m: Node, f: Flow, first: seq<InputEvent>, then_: seq<InputEvent>)
    requires s in Inputs(n) && Extends(s, n, More(m), first) && Extends(s, m, f, then_)
    ensures Extends(s, n, f, first + then_)
  {
    hide HearAll;
    assert (Inputs(n)[s] + first) + then_ == Inputs(n)[s] + (first + then_);
  }

  lemma QuietFirst(s: nat, n: Node, m: Node, f: Flow, events: seq<InputEvent>)
    requires s in Inputs(n) && Extends(s, n, More(m), []) && Extends(s, m, f, events)
    ensures Extends(s, n, f, events)
  {
    hide HearAll, Extends;
    ThenExtends(s, n, m, f, [], events);
    assert [] + events == events;
  }

  lemma QuietLast(s: nat, n: Node, m: Node, f: Flow, events: seq<InputEvent>)
    requires s in Inputs(n) && Extends(s, n, More(m), events) && Extends(s, m, f, [])
    ensures Extends(s, n, f, events)
  {
    hide HearAll, Extends;
    ThenExtends(s, n, m, f, events, []);
    assert events + [] == events;
  }

  /** A step that ends half-way said a beginning of what it would have said. */
  lemma HaltedExtends(s: nat, n: Node, f: Flow, events: seq<InputEvent>, more: seq<InputEvent>)
    requires s in Inputs(n) && Extends(s, n, f, events) && f.Halt?
    ensures Extends(s, n, f, events + more)
  {
    hide HearAll;
    assert Inputs(n)[s] + events <= Inputs(n)[s] + (events + more);
  }

  lemma ExtendsKnows(s: nat, n: Node, f: Flow, events: seq<InputEvent>)
    requires s in Inputs(n) && Extends(s, n, f, events)
    ensures s in Inputs(f.n)
  {
  }

  lemma SendInputExtends(s: nat, n: Node, e: InputEvent)
    requires s in Inputs(n)
    ensures Extends(s, n, SendInput(n, e), [e])
  {
    hide HearAll, LeavesPaper, Letters, InputEvent.Valid, Chord, Extends;
    if n.role.Sending? {
      SaidExtends(s, n, n.role.session, n.role.sequence, e);
      GrownBy(s, n, SendInput(n, e), e);
    } else {
      GrownBy(s, n, More(n), e);
    }
  }

  /** The log after one event was sent in session `t`. */
  lemma SaidExtends(s: nat, n: Node, t: nat, sequence: nat, e: InputEvent)
    requires s in Inputs(n)
    ensures var after := HearAll(n.physical, n.sent + [Input(t, sequence, e)]).inputs;
            && s in after && after[s] == if s == t then Inputs(n)[s] + [e] else Inputs(n)[s]
  {
    hide HearAll, InputEvent.Valid, Chord;
    HearNext(n.physical, n.sent, Input(t, sequence, e));
  }

  lemma GrownBy(s: nat, n: Node, f: Flow, e: InputEvent)
    requires s in Inputs(n) && s in Inputs(f.n) && f.n.physical == n.physical
    requires Inputs(f.n)[s] == Inputs(n)[s] || (SendingIn(n, s) && Inputs(f.n)[s] == Inputs(n)[s] + [e])
    requires f.More? && SendingIn(n, s) && SendingIn(f.n, s) ==> Inputs(f.n)[s] == Inputs(n)[s] + [e]
    requires f.More? && SendingIn(f.n, s) ==> SendingIn(n, s)
    ensures Extends(s, n, f, [e])
  {
    hide HearAll;
  }

  lemma {:induction false} SendInputsExtends(s: nat, n: Node, events: seq<InputEvent>)
    requires s in Inputs(n)
    ensures Extends(s, n, SendInputs(n, events), events)
    decreases |events|
  {
    hide HearAll, SendInput, Extends;
    if events == [] {
      SilentExtends(s, n, More(n));
    } else {
      var front, last := events[..|events| - 1], events[|events| - 1];
      assert events == front + [last];
      SendInputsExtends(s, n, front);
      var before := SendInputs(n, front);
      if before.More? {
        ExtendsKnows(s, n, before, front);
        SendInputExtends(s, before.n, last);
        ThenExtends(s, n, before.n, SendInput(before.n, last), front, [last]);
      } else {
        HaltedExtends(s, n, before, front, [last]);
      }
    }
  }

  lemma NotingKnows(s: nat, n: Node, e: InputEvent, f: Flow, events: seq<InputEvent>)
    requires s in Inputs(n) && Extends(s, WithKey(n, e), f, events)
    ensures Extends(s, n, f, events)
  {
    hide HearAll, PressedAfter;
  }

  /** One key: all of it is said unless the session ends here. */
  lemma ForwardExtends(s: nat, n: Node, env: Env, e: InputEvent)
    requires s in Inputs(n) && e.KeyInput?
    ensures Extends(s, n, Forward(n, env, e), [e])
  {
    hide HearAll, SendInput, SayEnd, StopCapture, PlaceBack, Chord, Extends, PressedAfter;
    var keyed := WithKey(n, e);
    if Completes(n, e) {
      SayEndSilent(keyed, None);
      StopCaptureSilent(SayEnd(keyed, None).n);
      PlaceBackSilent(StopCapture(SayEnd(keyed, None).n).n, env, n.role, true);
      EscapeEnds(keyed, env);
      SilentExtends(s, n, Forward(n, env, e));
    } else if n.role.Sending? {
      SendInputExtends(s, keyed, e);
      NotingKnows(s, n, e, SendInput(keyed, e), [e]);
    } else {
      SilentExtends(s, n, More(n));
    }
  }

  lemma EscapeEnds(n: Node, env: Env)
    ensures Escape(n, env).More? ==> Escape(n, env).n.role.Local?
  {
  }

  lemma {:induction false} ForwardAllExtends(s: nat, n: Node, env: Env, events: seq<InputEvent>)
    requires s in Inputs(n) && ValidKeys(events)
    ensures Extends(s, n, ForwardAll(n, env, events), events)
    decreases |events|
  {
    hide HearAll, Forward, InputEvent.Valid, LeavesPaper, Letters, Extends;
    if events == [] {
      SilentExtends(s, n, More(n));
    } else {
      var front, last := events[..|events| - 1], events[|events| - 1];
      assert events == front + [last];
      ForwardAllExtends(s, n, env, front);
      var before := ForwardAll(n, env, front);
      if before.More? {
        ExtendsKnows(s, n, before, front);
        ForwardExtends(s, before.n, env, last);
        ThenExtends(s, n, before.n, Forward(before.n, env, last), front, [last]);
      } else {
        HaltedExtends(s, n, before, front, [last]);
      }
    }
  }

  /** Pressing what is held, in a session that starts, says nothing in an earlier one. */
  lemma {:induction false} PressAllStays(s: nat, n: Node, events: seq<InputEvent>)
    requires s in Inputs(n) && !SendingIn(n, s)
    ensures Stays(s, n, PressAll(n, events))
    decreases |events|
  {
    hide HearAll, ForwardKeyboard;
    if events != [] {
      PressAllStays(s, n, events[..|events| - 1]);
      var before := PressAll(n, events[..|events| - 1]);
      if before.More? {
        PressStays(s, before.n, events[|events| - 1]);
      }
    }
  }

  lemma PressStays(s: nat, n: Node, e: InputEvent)
    requires s in Inputs(n) && !SendingIn(n, s)
    ensures Stays(s, n, ForwardKeyboard(n, e))
  {
    hide HearAll, SendInput, Completes;
    SendInputExtends(s, WithKey(n, e), e);
  }

  lemma StayingExtends(s: nat, n: Node, f: Flow)
    requires s in Inputs(n) && !SendingIn(n, s) && Stays(s, n, f)
    ensures forall events :: Extends(s, n, f, events)
  {
    hide HearAll;
  }

  lemma {:induction false} SessionsBegun(physical: bool, sent: seq<Message>)
    requires HearAll(physical, sent).ok
    ensures forall s :: s in HearAll(physical, sent).inputs ==> s <= HearAll(physical, sent).last
    decreases |sent|
  {
    hide InputEvent.Valid, Chord;
    if sent != [] {
      SessionsBegun(physical, sent[..|sent| - 1]);
    }
  }

  lemma StartSendingExtends(s: nat, n: Node, env: Env, index: nat, fraction: real)
    requires Logged(n) && KeysSound(n.keys) && s in Inputs(n) && n.role.Local? && index < |n.desktop.edges|
    ensures Extends(s, n, StartSending(n, env, index, fraction), [])
  {
    hide Sample, StopCapture, BeginSending, HearAll, Keyboard.Emergency, Keyboard.Held, KeysSound,
         Extends;
    SampleSilent(n, env);
    SilentExtends(s, n, Sample(n, env));
    var sampled := Sample(n, env);
    if sampled.More? {
      var drained := Drained(sampled.n);
      StopCaptureSilent(drained);
      SilentExtends(s, n, StopCapture(drained));
      SilentExtends(s, n, Halt(drained, SessionsUsedUp));
      SilentExtends(s, n, More(drained));
      BeginSendingExtends(s, drained, index, fraction, Keyboard.Held(sampled.n.keys.devices));
      QuietFirst(s, n, drained, BeginSending(drained, index, fraction, Keyboard.Held(sampled.n.keys.devices)), []);
    }
  }

  lemma BeginSendingExtends(s: nat, n: Node, index: nat, fraction: real, held: set<int>)
    requires Logged(n) && s in Inputs(n) && n.role.Local? && index < |n.desktop.edges|
    ensures Extends(s, n, BeginSending(n, index, fraction, held), [])
  {
    hide PressAll, Codes, Presses, HearAll, Begun, Extends;
    BegunStays(s, n, index, fraction);
    var begun := Begun(n, index, fraction);
    if begun.More? {
      PressAllStays(s, begun.n, Presses(Codes(held)));
    }
    StayingExtends(s, n, BeginSending(n, index, fraction, held));
  }

  lemma BegunStays(s: nat, n: Node, index: nat, fraction: real)
    requires Logged(n) && s in Inputs(n) && n.role.Local? && index < |n.desktop.edges|
    ensures Stays(s, n, Begun(n, index, fraction))
  {
    hide HearAll, LeavesPaper, Letters;
    SessionsBegun(n.physical, n.sent);
    HearNext(n.physical, n.sent, Begin(n.nextSession, Position(n.desktop.edges[index].id, fraction)));
  }

  lemma MutedExtends(s: nat, n: Node, f: Flow)
    requires s in Inputs(n) && MutedBy(n, f)
    ensures Extends(s, n, f, [])
  {
    hide HearAll, KeysSound, Extends;
    SilentExtends(s, n, f);
  }

  // ---- What an iteration has to say ----

  /** What the capture worker reports, unless it is a key of keyboards that are read directly. */
  function CaptureSays(n: Node, generation: nat, report: Report): seq<InputEvent> {
    if generation == n.capture.generation && n.capture.live
       && report.Captured? && !(n.physical && report.event.KeyInput?)
    then [report.event]
    else []
  }

  /** The keys that one iteration reads. */
  function ReadKeys(n: Node, env: Env): seq<InputEvent> {
    match Keyboard.AbsorbAll(n.keys, env.changes)
    case Ok(keys) => keys.pending
    case Failed => []
  }

  /** What a tick finds: the keys, then the frames of the touchpads. */
  function TickSays(n: Node, env: Env): seq<InputEvent> {
    if Refresh(n, env).More? then (if n.BothReady() then ReadKeys(n, env) else []) + env.touch else []
  }

  function BranchSays(n: Node, env: Env, ev: Event): seq<InputEvent> {
    match ev
    case Tick => TickSays(n, env)
    case CaptureEvent(generation, report) => CaptureSays(n, generation, report)
    case _ => []
  }

  /** What an iteration has to say in a session: frames routed there, and then what its event brings. */
  function StepSays(n: Node, env: Env, ev: Event): seq<InputEvent> {
    env.routed + if Preamble(n, env).More? then BranchSays(Preamble(n, env).n, env, ev) else []
  }

  lemma CapturedExtends(s: nat, n: Node, env: Env, e: InputEvent)
    requires s in Inputs(n)
    ensures Extends(s, n, OnCaptured(n, env, e), if n.physical && e.KeyInput? then [] else [e])
  {
    hide SendInput, HearAll, Extends;
    SilentExtends(s, n, More(n));
    SilentExtends(s, n, Halt(n, Delayed));
    SendInputExtends(s, n, e);
  }

  lemma StartedExtends(s: nat, n: Node, env: Env, edge: nat, fraction: real)
    requires Settled(n) && s in Inputs(n)
    ensures Extends(s, n, OnStarted(n, env, edge, fraction), [])
  {
    hide StartSending, Return, StopCapture, HearAll, KeysSound, Keyboard.Mirrors, ActiveEdges,
         Extends;
    SilentExtends(s, n, Halt(n, UnknownEdge));
    SilentExtends(s, n, Halt(n, EdgeUnavailable));
    SilentExtends(s, n, Halt(n, Panic));
    if edge < |n.capture.edges| && n.capture.edges[edge] < |n.desktop.edges| {
      var index := n.capture.edges[edge];
      var seen := n.(capture := n.capture.(started := true));
      StopCaptureSilent(seen);
      SilentExtends(s, n, StopCapture(seen));
      SilentExtends(s, n, More(seen));
      if n.role.Local? {
        StartSendingExtends(s, seen, env, index, fraction);
        QuietFirst(s, n, seen, StartSending(seen, env, index, fraction), []);
      } else if n.role.Receiving? {
        ReturnMuted(seen, env, index, fraction);
        MutedExtends(s, seen, Return(seen, env, index, fraction));
        QuietFirst(s, n, seen, Return(seen, env, index, fraction), []);
      }
    }
  }

  lemma CaptureExtends(s: nat, n: Node, env: Env, generation: nat, report: Report)
    requires Settled(n) && s in Inputs(n)
    ensures Extends(s, n, OnCapture(n, env, generation, report), CaptureSays(n, generation, report))
  {
    hide OnStarted, OnCaptured, OnFinished, HearAll, KeysSound, Keyboard.Mirrors, Extends;
    SilentExtends(s, n, More(n));
    match report
    case Started(edge, fraction) => StartedExtends(s, n, env, edge, fraction);
    case Captured(e) => CapturedExtends(s, n, env, e);
    case Finished(escape) =>
      FinishedMuted(n, env, escape);
      MutedExtends(s, n, OnFinished(n, env, escape));
    case Armed => SilentExtends(s, n, More(n.(capture := n.capture.(armed := true))));
    case Ready =>
  }

  lemma ActExtends(s: nat, n: Node, env: Env, keys: seq<InputEvent>)
    requires s in Inputs(n) && KeysSound(n.keys) && ValidKeys(keys)
    ensures Extends(s, n, Act(n, env, keys), keys + env.touch)
  {
    hide HearAll, TakeOver, ForwardAll, SendInputs, Watched, Relay, KeysSound, ValidKeys, LeavesPaper, Letters, Extends;
    SilentExtends(s, n, More(n));
    TakeOverMuted(n);
    MutedExtends(s, n, TakeOver(n));
    SilentExtends(s, n, TakeOver(n));
    var kept := Yielded(n, env);
    if kept.More? {
      RelayExtends(s, kept.n, env, keys);
      QuietFirst(s, n, kept.n, Relay(kept.n, env, keys), keys + env.touch);
      var relayed := Relay(kept.n, env, keys);
      if relayed.More? {
        ExtendsKnows(s, kept.n, relayed, keys + env.touch);
        WatchedExtends(s, relayed.n, env);
        QuietLast(s, n, relayed.n, Watched(relayed.n, env), keys + env.touch);
      }
    }
  }

  lemma RelayExtends(s: nat, n: Node, env: Env, keys: seq<InputEvent>)
    requires s in Inputs(n) && ValidKeys(keys)
    ensures Extends(s, n, Relay(n, env, keys), keys + env.touch)
  {
    hide HearAll, ForwardAll, SendInputs, ValidKeys, Extends;
    ForwardAllExtends(s, n, env, keys);
    var typed := ForwardAll(n, env, keys);
    if typed.More? {
      ExtendsKnows(s, n, typed, keys);
      SendInputsExtends(s, typed.n, env.touch);
      ThenExtends(s, n, typed.n, SendInputs(typed.n, env.touch), keys, env.touch);
    } else {
      HaltedExtends(s, n, typed, keys, env.touch);
    }
  }

  lemma WatchedExtends(s: nat, n: Node, env: Env)
    requires s in Inputs(n)
    ensures Extends(s, n, Watched(n, env), [])
  {
    hide HearAll, StopCapture, SayEnd, Send, Extends;
    StopCaptureSilent(n);
    SayEndSilent(StopCapture(n).n, None);
    var watched := CaptureOver(n, env);
    SendSilent(watched.n, Ping(watched.n.heartbeat));
    SilentExtends(s, n, Watched(n, env));
  }

  lemma RefreshExtends(s: nat, n: Node, env: Env)
    requires Settled(n) && s in Inputs(n)
    ensures var f := Refresh(n, env);
            && Extends(s, n, f, [])
            && (f.More? ==> KeysSound(f.n.keys) && (SendingIn(f.n, s) ==> SendingIn(n, s)))
            && (f.More? ==> f.n.keys.pending == if n.BothReady() then ReadKeys(n, env) else n.keys.pending)
  {
    hide HearAll, KeysSound, Expire, Sample, Keyboard.Mirrors, Extends;
    var polled := Try(n, PollFailed);
    if polled.More? {
      ExpireMuted(polled.n, env);
      ExpireAside(polled.n, env);
      var current := Expire(polled.n, env);
      if current.More? {
        SampleSilent(current.n, env);
        SampledRead(current.n, env);
      }
    }
    SilentExtends(s, n, Refresh(n, env));
  }

  lemma ExpireAside(n: Node, env: Env)
    ensures var f := Expire(n, env); f.n.keys == n.keys && f.n.role == n.role && f.n.BothReady() == n.BothReady()
  {
    hide Abandon;
    if n.paper.layout.Some? {
      AbandonKeeps(n, n.paper.layout.value);
    }
  }

  lemma SampledRead(n: Node, env: Env)
    ensures Sample(n, env).More? ==> Sample(n, env).n.keys.pending == ReadKeys(n, env)
  {
  }

  /** The iteration reaches its tick and reads all its devices in it. */
  predicate Reads(n: Node, env: Env, ev: Event) {
    ev.Tick? && Preamble(n, env).More? && Preamble(n, env).n.BothReady() && Refresh(Preamble(n, env).n, env).More?
  }

  lemma TickExtends(s: nat, n: Node, env: Env)
    requires Settled(n) && s in Inputs(n)
    ensures Extends(s, n, OnTick(n, env), TickSays(n, env))
  {
    hide HearAll, KeysSound, Refresh, Act, ReadKeys, Keyboard.Mirrors, ValidKeys, Extends;
    RefreshExtends(s, n, env);
    var sampled := Refresh(n, env);
    if sampled.More? {
      var pending := sampled.n.keys.pending;
      ExtendsKnows(s, n, sampled, []);
      SoundPending(sampled.n.keys);
      DrainExtends(s, n, sampled.n);
      ExtendsKnows(s, n, More(Drained(sampled.n)), []);
      ActExtends(s, Drained(sampled.n), env, pending);
      QuietFirst(s, n, Drained(sampled.n), Act(Drained(sampled.n), env, pending), pending + env.touch);
      if !SendingIn(n, s) {
        ExtendsStays(s, n, OnTick(n, env), pending + env.touch);
      }
    }
  }

  lemma SoundPending(k: Keyboard.Keys)
    requires KeysSound(k)
    ensures ValidKeys(k.pending) && KeysSound(k.(pending := []))
  {
    hide Keyboard.Observes;
    var taken: seq<InputEvent> :| Keyboard.Mirrors(taken + k.pending, k);
    PendingValid(taken, k.pending, k);
    Keyboard.SameHeld(k);
    assert (taken + k.pending) + [] == taken + k.pending;
    assert Keyboard.Mirrors((taken + k.pending) + k.(pending := []).pending, k.(pending := []));
  }

  lemma DrainExtends(s: nat, n: Node, m: Node)
    requires s in Inputs(n) && Extends(s, n, More(m), [])
    ensures Extends(s, n, More(Drained(m)), [])
  {
  }

  lemma ExtendsStays(s: nat, n: Node, f: Flow, events: seq<InputEvent>)
    requires s in Inputs(n) && !SendingIn(n, s) && Extends(s, n, f, events)
    ensures forall others :: Extends(s, n, f, others)
  {
    hide HearAll;
  }

  lemma BranchExtends(s: nat, n: Node, env: Env, ev: Event)
    requires Settled(n) && Legal(n, env, ev) && s in Inputs(n)
    ensures Extends(s, n, Branch(n, env, ev), BranchSays(n, env, ev))
  {
    hide HearAll, KeysSound, OnRelease, OnApply, OnStatus, OnTick, OnCapture, OnMessage, Decoded, Keyboard.Mirrors,
         TouchFrames, InputEvent.Valid, Send, TickSays, CaptureSays, Extends;
    var f := Branch(n, env, ev);
    match ev
    case OutputsChanged(outputs) =>
      var desktop := n.desktop.(outputs := outputs);
      SendSilent(n.(desktopEpoch := Wrapped(n.desktopEpoch), desktop := desktop), DesktopInfo(desktop));
      SilentExtends(s, n, f);
    case ReleaseCommand =>
      ReleaseMuted(n, env);
      MutedExtends(s, n, f);
    case ApplyCommand(request) =>
      ApplyMuted(n, env, request);
      MutedExtends(s, n, f);
    case StatusChanged(unlocked) =>
      StatusMuted(n, unlocked);
      MutedExtends(s, n, f);
    case Tick => TickExtends(s, n, env);
    case CaptureEvent(generation, report) => CaptureExtends(s, n, env, generation, report);
    case Received(message) =>
      MessageMuted(n, env, message);
      MutedExtends(s, n, f);
    case _ => SilentExtends(s, n, f);
  }

  lemma PreambleExtends(s: nat, n: Node, env: Env)
    requires Settled(n) && s in Inputs(n)
    ensures Extends(s, n, Preamble(n, env), env.routed)
    ensures Preamble(n, env).More? ==> Preamble(n, env).n.keys == n.keys
  {
    hide HearAll, KeysSound, Retire, SendInputs, MustRetire, Available, Keyboard.Mirrors, Extends;
    RetireMuted(n, env);
    RetireAside(n, env);
    RetireEnds(n, env);
    MutedExtends(s, n, Retire(n, env));
    SilentExtends(s, n, More(n));
    var kept := Retired(n, env);
    if kept.More? {
      ExtendsKnows(s, n, kept, []);
      var tried := Try(kept.n, RouteFailed);
      SilentExtends(s, kept.n, tried);
      if tried.More? {
        SendInputsExtends(s, tried.n, env.routed);
        SendInputsAside(tried.n, env.routed);
        QuietFirst(s, kept.n, tried.n, SendInputs(tried.n, env.routed), env.routed);
      }
      QuietFirst(s, n, kept.n, Routed(kept.n, env), env.routed);
      var routed := Routed(kept.n, env);
      if routed.More? {
        WatchingExtends(s, n, routed.n, env);
      }
    } else {
      SilentExtends(s, n, kept);
    }
  }

  lemma RetireEnds(n: Node, env: Env)
    ensures Retire(n, env).More? ==> Retire(n, env).n.role.Local?
  {
    hide Surrender;
  }

  lemma WatchingExtends(s: nat, n: Node, m: Node, env: Env)
    requires s in Inputs(n) && Extends(s, n, More(m), env.routed)
    ensures Extends(s, n, More(Watching(m, env)), env.routed)
  {
    hide MayCapture, Available;
  }

  lemma RetireAside(n: Node, env: Env)
    ensures Retire(n, env).n.keys == n.keys
  {
    hide EndSession, StopCapture, PlaceBack, HearAll;
    GiveBackSilent(n, env, None, CanComeBack(n));
  }

  lemma SendInputsAside(n: Node, events: seq<InputEvent>)
    ensures SendInputs(n, events).More? ==> SendInputs(n, events).n.keys == n.keys
  {
    SendInputsKeeps(n, events);
  }

  /** Whatever an iteration does, what it says in a session is a beginning of what it has to say: the frames routed to
      the peer, the keys and frames read in a tick, or the event that was captured, in this order and unchanged. And an
      iteration through which the session goes on says all of it. */
  lemma StepExtends(s: nat, n: Node, env: Env, ev: Event)
    requires Settled(n) && LegalStep(n, env, ev) && s in Inputs(n)
    ensures Extends(s, n, Step(n, env, ev), StepSays(n, env, ev))
  {
    hide HearAll, Preamble, Branch, Settled, Legal, Refresh, BranchSays, Extends;
    PreambleFaithful(n, env);
    PreambleExtends(s, n, env);
    var ready := Preamble(n, env);
    if ready.More? {
      ExtendsKnows(s, n, ready, env.routed);
      BranchExtends(s, ready.n, env, ev);
      ThenExtends(s, n, ready.n, Branch(ready.n, env, ev), env.routed, BranchSays(ready.n, env, ev));
    } else {
      assert env.routed + [] == env.routed;
    }
  }

  // ---- The keys among it ----

  lemma {:induction false} TypedAppend(a: seq<InputEvent>, b: seq<InputEvent>)
    ensures Typed(a + b) == Typed(a) + Typed(b)
    decreases |b|
  {
    if b == [] {
      assert a + b == a;
    } else {
      assert (a + b)[..|a + b| - 1] == a + b[..|b| - 1];
      TypedAppend(a, b[..|b| - 1]);
    }
  }

  lemma {:induction false} FramesTypeNothing(events: seq<InputEvent>)
    requires TouchFrames(events)
    ensures Typed(events) == []
    decreases |events|
  {
    hide InputEvent.Valid;
    if events != [] {
      FramesTypeNothing(events[..|events| - 1]);
    }
  }

  lemma {:induction false} KeysTypeThemselves(events: seq<InputEvent>)
    requires ValidKeys(events)
    ensures Typed(events) == events
    decreases |events|
  {
    hide InputEvent.Valid;
    if events != [] {
      KeysTypeThemselves(events[..|events| - 1]);
    }
  }

  lemma TypedPrefix(a: seq<InputEvent>, b: seq<InputEvent>)
    requires a <= b
    ensures Typed(a) <= Typed(b)
  {
    TypedAppend(a, b[|a|..]);
    assert b == a + b[|a|..];
  }

  /** From keyboards read directly, an iteration has no keys to say but those it read in its tick. */
  lemma StepTypes(n: Node, env: Env, ev: Event)
    requires Settled(n) && LegalStep(n, env, ev) && n.physical
    ensures Typed(StepSays(n, env, ev)) == if Reads(n, env, ev) then ReadKeys(n, env) else []
  {
    hide HearAll, KeysSound, Keyboard.Mirrors, Preamble, Refresh, Typed, TouchFrames, ReadKeys, ValidKeys,
         InputEvent.Valid;
    PreambleKeys(n, env);
    var ready := Preamble(n, env);
    FramesTypeNothing(env.routed);
    NothingTyped();
    if ready.More? {
      var says := BranchSays(ready.n, env, ev);
      TypedAppend(env.routed, says);
      if ev.Tick? {
        var keys := if ready.n.BothReady() then ReadKeys(ready.n, env) else [];
        ReadKeysValid(n, env);
        KeysTypeThemselves(keys);
        FramesTypeNothing(env.touch);
        TypedAppend(keys, env.touch);
      } else {
        SaysNoKeys(ready.n, env, ev);
      }
    } else {
      assert env.routed + [] == env.routed;
    }
  }

  lemma NothingTyped()
    ensures Typed([]) == [] && ValidKeys([])
  {
  }

  lemma SaysNoKeys(n: Node, env: Env, ev: Event)
    requires n.physical && !ev.Tick?
    ensures Typed(BranchSays(n, env, ev)) == []
  {
    hide TickSays;
    if ev.CaptureEvent? && ev.report.Captured? {
      TypedNext([], ev.report.event);
      assert [] + [ev.report.event] == [ev.report.event];
    }
  }

  lemma PreambleKeys(n: Node, env: Env)
    ensures Preamble(n, env).More? ==> Preamble(n, env).n.physical == n.physical
    ensures Preamble(n, env).More? ==> ReadKeys(Preamble(n, env).n, env) == ReadKeys(n, env)
  {
    hide Retire, SendInputs, MustRetire, Available, LeavesPaper, Letters;
    RetireAside(n, env);
    var kept := Retired(n, env);
    if kept.More? {
      var tried := Try(kept.n, RouteFailed);
      if tried.More? {
        SendInputsAside(tried.n, env.routed);
      }
    }
  }

  lemma ReadKeysValid(n: Node, env: Env)
    requires KeysSound(n.keys)
    ensures ValidKeys(ReadKeys(n, env))
  {
    hide Keyboard.Observes;
    var taken: seq<InputEvent> :| Keyboard.Mirrors(taken + n.keys.pending, n.keys);
    Keyboard.AbsorbAllMirrors(taken, n.keys, env.changes);
    if Keyboard.AbsorbAll(n.keys, env.changes).Ok? {
      PendingValid(taken, ReadKeys(n, env), Keyboard.AbsorbAll(n.keys, env.changes).value);
    }
  }

  /** So the keys said in a session are a beginning of the keys read, and only in a tick that read all devices. */
  lemma KeysExtend(s: nat, n: Node, env: Env, ev: Event)
    requires Settled(n) && LegalStep(n, env, ev) && s in Inputs(n) && n.physical
    ensures var f := Step(n, env, ev);
            && s in Inputs(f.n) && Inputs(n)[s] <= Inputs(f.n)[s] && f.n.physical == n.physical
            && Typed(Inputs(n)[s]) <= Typed(Inputs(f.n)[s])
               <= Typed(Inputs(n)[s]) + (if Reads(n, env, ev) then ReadKeys(n, env) else [])
            && (!SendingIn(n, s) ==> Inputs(f.n)[s] == Inputs(n)[s])
  {
    hide HearAll, Step, Settled, LegalStep, Typed, StepSays, ReadKeys, Reads;
    StepExtends(s, n, env, ev);
    StepTypes(n, env, ev);
    var f := Step(n, env, ev);
    TypedPrefix(Inputs(n)[s], Inputs(f.n)[s]);
    TypedPrefix(Inputs(f.n)[s], Inputs(n)[s] + StepSays(n, env, ev));
    TypedAppend(Inputs(n)[s], StepSays(n, env, ev));
  }

  // ---- What was held over a run ----

  /** From the state after `from` moves on, these were the keys physically held on B's devices after some move, or while
      B read its devices in one. */
  ghost predicate WasHeld(w: World, moves: seq<Move>, from: nat, v: set<int>) {
    exists k :: from <= k <= |moves| && HeldAround(w, moves, k, v)
  }

  ghost predicate HeldAround(w: World, moves: seq<Move>, k: nat, v: set<int>)
    requires k <= |moves|
  {
    var p := Played(w, moves[..k]);
    v == Keyboard.PhysicallyHeld(p.b.n.keys.seen) || (k < |moves| && HeldDuring(p, moves[k], v))
  }

  /** The move is one that B can make, B reads its devices in it, and these keys were held meanwhile. */
  ghost predicate HeldDuring(p: World, m: Move, v: set<int>) {
    && !m.byA && Allowed(p.b, p.a, p.takenByB, m.env, m.ev) && Reads(p.b.n, m.env, m.ev)
    && Keyboard.Took(p.b.n.keys.seen, m.env.changes, v)
  }

  lemma WasHeldLonger(w: World, moves: seq<Move>, from: nat, v: set<int>)
    requires moves != [] && WasHeld(w, moves[..|moves| - 1], from, v)
    ensures WasHeld(w, moves, from, v)
  {
    hide Played, HeldDuring;
    var before := moves[..|moves| - 1];
    var k :| from <= k <= |before| && HeldAround(w, before, k, v);
    assert before[..k] == moves[..k];
    assert HeldAround(w, moves, k, v);
  }

  /** Everything said in a session, from some moment of it on, presses what was physically held. */
  ghost predicate AllWereHeld(w: World, moves: seq<Move>, from: nat, said: seq<InputEvent>, least: nat) {
    forall l :: least <= l <= |said| ==> WasHeld(w, moves, from, Pressed(said[..l]))
  }

  /** One move of B: what it adds to the session was held before it, or while it read its devices in it. */
  lemma NextWasHeld(n: Node, env: Env, ev: Event, s: nat, l: nat)
    requires Settled(n) && LegalStep(n, env, ev) && n.physical && s in Inputs(n)
    requires s in Inputs(Step(n, env, ev).n) && |Inputs(n)[s]| <= l <= |Inputs(Step(n, env, ev).n)[s]|
    requires l > |Inputs(n)[s]|
    ensures var v := Pressed(Inputs(Step(n, env, ev).n)[s][..l]);
            v == Keyboard.PhysicallyHeld(n.keys.seen)
            || (Reads(n, env, ev) && Keyboard.Took(n.keys.seen, env.changes, v))
  {
    hide HearAll, Step, LegalStep, Reads, Typed, Keyboard.Mirrors, KeysSound, Keyboard.Took;
    KeysExtend(s, n, env, ev);
    var f := Step(n, env, ev);
    var said, now := Inputs(n)[s], Inputs(f.n)[s];
    assert SendingIn(n, s);
    assert said <= now[..l];
    TypedPrefix(said, now[..l]);
    TypedPrefix(now[..l], now);
    TypedPressed(now[..l]);
    SettledSpeaks(n, s);
    if Reads(n, env, ev) {
      ReadKeysWereHeld(Typed(said), n, env, Typed(now[..l]));
    } else {
      assert Typed(now[..l]) == Typed(said);
      SaidIsHeld(n, s);
      TypedPressed(said);
    }
  }

  lemma SettledSpeaks(n: Node, s: nat)
    requires Settled(n) && n.physical && SendingIn(n, s) && s in Inputs(n)
    ensures n.keys.pending == [] && Keyboard.Observes(n.keys) && Keyboard.Mirrors(Typed(Inputs(n)[s]), n.keys)
  {
    assert Typed(Inputs(n)[s]) + [] == Typed(Inputs(n)[s]);
  }

  lemma ReadKeysWereHeld(typed: seq<InputEvent>, n: Node, env: Env, now: seq<InputEvent>)
    requires Keyboard.Mirrors(typed, n.keys) && Keyboard.Observes(n.keys) && n.keys.pending == []
    requires typed <= now <= typed + ReadKeys(n, env)
    ensures Keyboard.Took(n.keys.seen, env.changes, Pressed(now))
  {
    hide Pressed, Keyboard.Alternates, Keyboard.Held, Keyboard.PhysicallyHeld, Keyboard.Observes;
    var i := |now| - |typed|;
    assert now == typed + ReadKeys(n, env)[..i];
    if Keyboard.AbsorbAll(n.keys, env.changes).Ok? {
      assert typed + n.keys.pending == typed;
      Keyboard.EveryPrefixWasHeld(typed, n.keys, env.changes, i);
    } else {
      assert now == typed && n.keys.seen + env.changes[..0] == n.keys.seen;
      Keyboard.ObservedHeld(n.keys);
      assert Keyboard.TookAt(n.keys.seen, env.changes, 0, Pressed(now));
    }
  }

  lemma HeldAtLast(w: World, moves: seq<Move>, from: nat, v: set<int>)
    requires from <= |moves| && v == Keyboard.PhysicallyHeld(Played(w, moves).b.n.keys.seen)
    ensures WasHeld(w, moves, from, v)
  {
    hide Played, HeldDuring;
    assert moves[..|moves|] == moves;
    assert HeldAround(w, moves, |moves|, v);
  }

  lemma HeldAroundLast(w: World, moves: seq<Move>, from: nat, v: set<int>)
    requires from < |moves|
    requires var p := Played(w, moves[..|moves| - 1]);
             v == Keyboard.PhysicallyHeld(p.b.n.keys.seen) || HeldDuring(p, moves[|moves| - 1], v)
    ensures WasHeld(w, moves, from, v)
  {
    hide Played, HeldDuring;
    assert HeldAround(w, moves, |moves| - 1, v);
  }

  lemma SettledHalf(w: World)
    requires Connected(w) && w.b.More?
    ensures Settled(w.b.n) && Logged(w.b.n)
  {
  }

  /** At a moment when B sends in a session, what it has said in it presses exactly what is held. */
  lemma SaidIsHeld(n: Node, s: nat)
    requires Settled(n) && n.physical && SendingIn(n, s)
    ensures s in Inputs(n) && Pressed(Inputs(n)[s]) == Keyboard.PhysicallyHeld(n.keys.seen)
  {
    SendsWhatIsHeld(n);
  }

  /** What B has said in a session grew since a moment of it, and all of that was held. */
  ghost predicate Tracked(w: World, moves: seq<Move>, from: nat, s: nat)
    requires from <= |moves|
  {
    var first, now := Played(w, moves[..from]).b.n, Played(w, moves).b.n;
    && now.physical && s in Inputs(first) && s in Inputs(now) && Inputs(first)[s] <= Inputs(now)[s]
    && AllWereHeld(w, moves, from, Inputs(now)[s], |Inputs(first)[s]|)
  }

  /** Whatever B has said in a session, from a moment on at which it was sending in it. */
  lemma {:induction false} SaidWasHeld(a: Entry, b: Entry, moves: seq<Move>, from: nat, s: nat)
    requires from <= |moves| && b.physical
    requires var m := Played(Together(a, b), moves[..from]).b; m.More? && SendingIn(m.n, s)
    ensures Tracked(Together(a, b), moves, from, s)
    decreases |moves|
  {
    hide Played, Entered, HearAll, Settled, Logged, Half, Keyboard.Took, WasHeld, Step, Allowed, Pressed, Tracked;
    var w := Together(a, b);
    if from == |moves| {
      assert moves[..from] == moves;
      AlwaysConnected(a, b, moves);
      PlayedPhysical(a, b, moves);
      TrackedFirst(w, moves, s);
    } else {
      var before := moves[..|moves| - 1];
      assert before[..from] == moves[..from];
      SaidWasHeld(a, b, before, from, s);
      AlwaysConnected(a, b, before);
      TrackedNext(w, moves, from, s);
    }
  }

  lemma TrackedFirst(w: World, moves: seq<Move>, s: nat)
    requires Connected(Played(w, moves))
    requires var m := Played(w, moves).b; m.More? && m.n.physical && SendingIn(m.n, s)
    ensures Tracked(w, moves, |moves|, s)
  {
    hide Played, HearAll, Settled, Logged, Half, Keyboard.Took, WasHeld, Pressed;
    assert moves[..|moves|] == moves;
    SettledHalf(Played(w, moves));
    SaidIsHeld(Played(w, moves).b.n, s);
    var said := Inputs(Played(w, moves).b.n)[s];
    assert said[..|said|] == said;
    HeldAtLast(w, moves, |moves|, Pressed(said));
  }

  lemma TrackedNext(w: World, moves: seq<Move>, from: nat, s: nat)
    requires from < |moves| && Connected(Played(w, moves[..|moves| - 1])) && Tracked(w, moves[..|moves| - 1], from, s)
    ensures Tracked(w, moves, from, s)
  {
    hide HearAll, Settled, Logged, Half, Keyboard.Took, WasHeld, Step, Allowed, Pressed, Taken, AllWereHeld;
    var before, last := moves[..|moves| - 1], moves[|moves| - 1];
    assert before[..from] == moves[..from];
    var p := Played(w, before);
    var first := Inputs(Played(w, before[..from]).b.n)[s];
    if !last.byA && Allowed(p.b, p.a, p.takenByB, last.env, last.ev) {
      AllowedLegal(p.b, p.a, p.takenByB, last.env, last.ev);
      SettledHalf(p);
      KeysExtend(s, p.b.n, last.env, last.ev);
      var f := Step(p.b.n, last.env, last.ev);
      MoreWereHeld(w, moves, from, s, Inputs(f.n)[s], |first|);
    } else {
      SameWereHeld(w, moves, from, Inputs(p.b.n)[s], |first|);
    }
  }

  lemma SameWereHeld(w: World, moves: seq<Move>, from: nat, said: seq<InputEvent>, least: nat)
    requires moves != [] && AllWereHeld(w, moves[..|moves| - 1], from, said, least)
    ensures AllWereHeld(w, moves, from, said, least)
  {
    hide WasHeld, Pressed;
    forall l | least <= l <= |said| ensures WasHeld(w, moves, from, Pressed(said[..l])) {
      WasHeldLonger(w, moves, from, Pressed(said[..l]));
    }
  }

  lemma MoreWereHeld(w: World, moves: seq<Move>, from: nat, s: nat, now: seq<InputEvent>, least: nat)
    requires from < |moves| && !moves[|moves| - 1].byA
    requires var p, last := Played(w, moves[..|moves| - 1]), moves[|moves| - 1];
             var n := p.b.n;
             && Allowed(p.b, p.a, p.takenByB, last.env, last.ev) && Settled(n) && LegalStep(n, last.env, last.ev)
             && n.physical && s in Inputs(n)
             && s in Inputs(Step(n, last.env, last.ev).n) && now == Inputs(Step(n, last.env, last.ev).n)[s]
             && Inputs(n)[s] <= now && AllWereHeld(w, moves[..|moves| - 1], from, Inputs(n)[s], least)
    ensures AllWereHeld(w, moves, from, now, least)
  {
    hide Played, Allowed, HearAll, Settled, Reads, Keyboard.Took, WasHeld, Step, LegalStep, Pressed;
    var n, last := Played(w, moves[..|moves| - 1]).b.n, moves[|moves| - 1];
    var said := Inputs(n)[s];
    forall l | least <= l <= |now| ensures WasHeld(w, moves, from, Pressed(now[..l])) {
      if l <= |said| {
        assert now[..l] == said[..l];
        WasHeldLonger(w, moves, from, Pressed(said[..l]));
      } else {
        NextWasHeld(n, last.env, last.ev, s, l);
        HeldAroundLast(w, moves, from, Pressed(now[..l]));
      }
    }
  }

  lemma AllowedLegal(me: Flow, peer: Flow, taken: nat, env: Env, ev: Event)
    requires Allowed(me, peer, taken, env, ev)
    ensures me.More? && LegalStep(me.n, env, ev)
  {
  }

  lemma {:induction false} PlayedPhysical(a: Entry, b: Entry, moves: seq<Move>)
    ensures Played(Together(a, b), moves).b.n.physical == b.physical
    decreases |moves|
  {
    hide Open, Step, Allowed, Taken, HearAll;
    if moves == [] {
      OpenFaithful(b.desktop, b.physical, b.unlocked, b.pads, b.luck, b.fate);
    } else {
      PlayedPhysical(a, b, moves[..|moves| - 1]);
    }
  }

  /** A receives a session of B in which B was sending after `from` moves, and all that B had said of it by then has
      arrived. Since what B says when a session begins is what is held then, this holds soon after every beginning. */
  ghost predicate Arrived(w: World, moves: seq<Move>, from: nat)
    requires from <= |moves|
  {
    var now, m := Played(w, moves).a, Played(w, moves[..from]).b;
    && now.More? && now.n.role.Receiving? && m.More? && SendingIn(m.n, now.n.role.session)
    && now.n.role.session in now.n.recv.injected && now.n.role.session in Inputs(m.n)
    && |Inputs(m.n)[now.n.role.session]| <= |now.n.recv.injected[now.n.role.session]|
  }

  /** The keys down at a receiver are keys that were held together on the sender's keyboards a little earlier in the
      same session: the set of keys down is a value that what was physically held on all devices of the sender had after
      one of its iterations or while it read its devices in one. */
  lemma RemoteKeysWereHeld(a: Entry, b: Entry, moves: seq<Move>, from: nat)
    requires from <= |moves| && b.physical && Arrived(Together(a, b), moves, from)
    ensures var w := Together(a, b);
            exists keys :: WasHeld(w, moves, from, keys)
                           && forall code :: KeyControl(code) in Played(w, moves).a.n.recv.sink.down <==> code in keys
  {
    hide Played, Entered, HearAll, WasHeld, Pressed, Down, Half, AllWereHeld;
    var w := Together(a, b);
    var now := Played(w, moves).a.n;
    var s := now.role.session;
    SaidWasHeld(a, b, moves, from, s);
    InjectsWhatWasSent(a, b, moves, s);
    AlwaysConnected(a, b, moves);
    ReceivesDown(Played(w, moves));
    var events := now.recv.injected[s];
    InjectedWasHeld(w, moves, from, events, Inputs(Played(w, moves).b.n)[s], |Inputs(Played(w, moves[..from]).b.n)[s]|);
    PressedAreControls(events);
  }

  lemma InjectedWasHeld(w: World, moves: seq<Move>, from: nat, events: seq<InputEvent>, said: seq<InputEvent>,
                        least: nat)
    requires AllWereHeld(w, moves, from, said, least) && least <= |events| && events <= said
    ensures WasHeld(w, moves, from, Pressed(events))
  {
    hide WasHeld, Pressed;
    assert said[..|events|] == events;
  }

  lemma ReceivesDown(w: World)
    requires Connected(w) && w.a.More? && w.a.n.role.Receiving?
    ensures w.a.n.role.session in w.a.n.recv.injected
    ensures w.a.n.recv.sink.down == Down(w.a.n.recv.injected[w.a.n.role.session])
  {
  }
}
