// What a computer says while it is sending: numbered sessions of numbered events, and among them exactly the keys
// held on its own keyboards (src/bridge.rs, src/input.rs).
module Speech {
  import opened ControlSafety
  import opened Coordination
  import opened Geometry
  import opened Injection
  import opened Ordered
  import opened Protocol
  import Keyboard

  // ---- Reading a log of messages ----

  /** What the messages so far amount to: the last session begun, the events of every session in order, and whether
      everything was well-formed. */
  datatype Heard = Heard(last: nat, inputs: map<nat, seq<InputEvent>>, ok: bool)

  /** Sessions are begun in increasing order; events belong to the last one, are valid and numbered from 0; and where
      keyboards are read directly, no event completes the emergency chord. */
  function Hear(physical: bool, h: Heard, m: Message): Heard {
    match m
    case Begin(session, _) => Heard(session, h.inputs[session := []], h.ok && session > h.last)
    case Input(session, sequence, event) =>
      if session !in h.inputs then h.(ok := false)
      else
        var events := h.inputs[session] + [event];
        Heard(h.last, h.inputs[session := events],
              h.ok && session == h.last && sequence == |h.inputs[session]| && event.Valid()
              && (physical ==> !Chord(Pressed(events), event)))
    case _ => h
  }

  function HearAll(physical: bool, sent: seq<Message>): Heard {
    if sent == [] then Heard(0, map[], true)
    else Hear(physical, HearAll(physical, sent[..|sent| - 1]), sent[|sent| - 1])
  }

  lemma HearNext(physical: bool, sent: seq<Message>, m: Message)
    ensures HearAll(physical, sent + [m]) == Hear(physical, HearAll(physical, sent), m)
  {
    assert (sent + [m])[..|sent|] == sent;
  }

  // ---- The keys among the events ----

  function Typed(events: seq<InputEvent>): seq<InputEvent> {
    if events == [] then []
    else
      var last := events[|events| - 1];
      Typed(events[..|events| - 1]) + if last.KeyInput? then [last] else []
  }

  lemma TypedNext(events: seq<InputEvent>, e: InputEvent)
    ensures Typed(events + [e]) == Typed(events) + if e.KeyInput? then [e] else []
  {
    assert (events + [e])[..|events|] == events;
  }

  lemma {:induction false} TypedPressed(events: seq<InputEvent>)
    ensures Pressed(Typed(events)) == Pressed(events)
  {
    if events != [] {
      var shorter, last := events[..|events| - 1], events[|events| - 1];
      TypedPressed(shorter);
      if last.KeyInput? {
        PressedAppend(Typed(shorter), last);
      } else {
        assert Typed(events) == Typed(shorter);
      }
    }
  }

  // ---- The invariant ----

  /** Some run of events, followed by the pending ones, says what is held, and that is what the devices say. */
  ghost predicate KeysSound(k: Keyboard.Keys) {
    Keyboard.Observes(k) && exists taken: seq<InputEvent> :: Keyboard.Mirrors(taken + k.pending, k)
  }

  /** The running session: numbered like its log, and with `rest` still to be forwarded its keys are the ones held. */
  ghost predicate Speaking(n: Node, rest: seq<InputEvent>)
    requires n.role.Sending?
  {
    var h := HearAll(n.physical, n.sent);
    && h.last == n.role.session && h.last in h.inputs && n.role.sequence == |h.inputs[h.last]|
    && (n.physical ==>
          && Keyboard.Mirrors(Typed(h.inputs[h.last]) + rest, n.keys)
          && n.sourceKeys == Pressed(h.inputs[h.last]))
  }

  ghost predicate Logged(n: Node) {
    var h := HearAll(n.physical, n.sent);
    h.ok && h.last < n.nextSession
  }

  ghost predicate Faithful(n: Node, rest: seq<InputEvent>) {
    Logged(n) && KeysSound(n.keys) && (n.role.Sending? ==> Speaking(n, rest))
  }

  /** Between iterations nothing waits to be forwarded. */
  ghost predicate Settled(n: Node) {
    Faithful(n, []) && (n.role.Sending? ==> n.keys.pending == [])
  }

  /** No beginning and no input was sent, and a sender that is still sending was not touched. */
  ghost predicate Muted(n: Node, after: Node) {
    && HearAll(n.physical, after.sent) == HearAll(n.physical, n.sent)
    && after.physical == n.physical && after.nextSession == n.nextSession && KeysSound(after.keys)
    && (after.role.Sending? ==>
          after.role == n.role && after.keys == n.keys && after.sourceKeys == n.sourceKeys)
  }

  predicate LogKept(n: Node, after: Node) {
    && HearAll(n.physical, after.sent) == HearAll(n.physical, n.sent)
    && after.physical == n.physical && after.nextSession == n.nextSession
  }

  ghost predicate MutedBy(n: Node, f: Flow) {
    LogKept(n, f.n) && (f.More? ==> Muted(n, f.n))
  }

  lemma MutedKeeps(n: Node, after: Node)
    requires Settled(n) && Muted(n, after)
    ensures Settled(after)
  {
    hide KeysSound, Keyboard.Mirrors;
  }

  lemma NothingHeld()
    ensures KeysSound(Keyboard.NO_KEYS)
  {
    hide Keyboard.Observes;
    Keyboard.NothingSeen();
    assert [] + Keyboard.NO_KEYS.pending == [];
  }

  lemma SampleSound(n: Node, env: Env)
    requires KeysSound(n.keys)
    ensures Sample(n, env).More? ==> KeysSound(Sample(n, env).n.keys) && KeysSound(Drained(Sample(n, env).n).keys)
    ensures Sample(n, env).Halt? ==> Sample(n, env).n.keys == n.keys
  {
    hide Keyboard.Observes;
    var taken: seq<InputEvent> :| Keyboard.Mirrors(taken + n.keys.pending, n.keys);
    Keyboard.AbsorbAllMirrors(taken, n.keys, env.changes);
    Keyboard.AbsorbAllObserves(n.keys, env.changes);
    var f := Sample(n, env);
    if f.More? {
      DrainSound(f.n, taken);
    }
  }

  lemma DrainSound(n: Node, taken: seq<InputEvent>)
    requires Keyboard.Mirrors(taken + n.keys.pending, n.keys) && Keyboard.Observes(n.keys)
    ensures KeysSound(n.keys) && KeysSound(Drained(n).keys)
  {
    hide Keyboard.Observes;
    Keyboard.SameHeld(n.keys);
    assert taken + n.keys.pending + [] == taken + n.keys.pending;
    assert Keyboard.Mirrors((taken + n.keys.pending) + Drained(n).keys.pending, Drained(n).keys);
  }

  // ---- Steps that say nothing about input ----

  /** As `Muted`, and neither role nor keys changed. */
  predicate Silent(n: Node, after: Node) {
    && HearAll(n.physical, after.sent) == HearAll(n.physical, n.sent)
    && after.physical == n.physical && after.nextSession == n.nextSession
    && after.role == n.role && after.keys == n.keys && after.sourceKeys == n.sourceKeys
    && after.desktop.edges == n.desktop.edges
  }

  lemma SendSilent(n: Node, m: Message)
    requires !m.Begin? && !m.Input?
    ensures Silent(n, Send(n, m).n)
  {
    HearNext(n.physical, n.sent, m);
  }

  lemma ReceiveSilent(n: Node, a: Answer)
    ensures Silent(n, Receive(n, a).n)
  {
  }

  lemma StopCaptureSilent(n: Node)
    ensures Silent(n, StopCapture(n).n)
  {
  }

  lemma DroppedSilent(n: Node)
    ensures Silent(n, Dropped(n))
  {
    hide HearAll;
    DroppedKeeps(n);
  }

  lemma SayEndSilent(n: Node, exit: Option<Position>)
    ensures Silent(n, SayEnd(n, exit).n)
  {
    hide HearAll, Send;
    if n.role.Session().Some? {
      SendSilent(n, End(n.role.Session().value, exit));
    }
  }

  lemma EndSessionSilent(n: Node, exit: Option<Position>)
    ensures Silent(n, EndSession(n, exit).n)
  {
    hide HearAll, Send, Injection.End;
    if n.role.Session().Some? {
      var session := n.role.Session().value;
      var after := Receive(n, Injection.End(n.recv, session));
      ReceiveSilent(n, Injection.End(n.recv, session));
      if after.More? {
        SendSilent(after.n, End(session, exit));
      }
    }
  }

  lemma PlaceSilent(n: Node, env: Env, index: nat, fraction: real)
    ensures Silent(n, Place(n, env, index, fraction).n)
  {
    hide HearAll, PositionOn, Placement;
  }

  lemma PlaceBackSilent(n: Node, env: Env, role: Role, allowed: bool)
    ensures Silent(n, PlaceBack(n, env, role, allowed).n)
  {
    hide HearAll, Place;
    if role.Sending? {
      PlaceSilent(n, env, role.edge, role.fraction);
    }
  }

  /** Ending the session, stopping the capture and placing the pointer, in this order, say nothing about input. */
  lemma GiveBackSilent(n: Node, env: Env, exit: Option<Position>, allowed: bool)
    ensures Silent(n, EndSession(n, exit).n)
    ensures EndSession(n, exit).More? ==>
              var stopped := StopCapture(EndSession(n, exit).n);
              Silent(n, stopped.n) && (stopped.More? ==> Silent(n, PlaceBack(stopped.n, env, n.role, allowed).n))
  {
    hide HearAll, EndSession, StopCapture, PlaceBack;
    EndSessionSilent(n, exit);
    var ended := EndSession(n, exit);
    StopCaptureSilent(ended.n);
    PlaceBackSilent(StopCapture(ended.n).n, env, n.role, allowed);
  }

  lemma RetireMuted(n: Node, env: Env)
    requires KeysSound(n.keys)
    ensures MutedBy(n, Retire(n, env))
  {
    hide HearAll, EndSession, StopCapture, PlaceBack, KeysSound;
    GiveBackSilent(n, env, None,
                   n.localReady && n.role.Sending? && n.role.edge < |n.desktop.edges|
                   && HasOutput(n.desktop, n.desktop.edges[n.role.edge]));
  }

  lemma ReleaseMuted(n: Node, env: Env)
    requires KeysSound(n.keys)
    ensures MutedBy(n, OnRelease(n, env))
  {
    hide HearAll, EndSession, StopCapture, PlaceBack, KeysSound;
    GiveBackSilent(n, env, None, true);
  }

  lemma ClearedMuted(n: Node)
    requires KeysSound(n.keys)
    ensures MutedBy(n, Cleared(n)) && (Cleared(n).More? ==> Cleared(n).n.role.Local?)
  {
    hide HearAll, EndSession, StopCapture, KeysSound;
    EndSessionSilent(n, None);
    StopCaptureSilent(EndSession(n, None).n);
  }

  lemma SendMuted(n: Node, sender: Node, m: Message)
    requires Muted(n, sender) && !m.Begin? && !m.Input?
    ensures Muted(n, Send(sender, m).n)
  {
    hide HearAll, KeysSound;
    SendSilent(sender, m);
  }

  lemma ApplyMuted(n: Node, env: Env, r: LayoutRequest)
    requires KeysSound(n.keys)
    ensures MutedBy(n, OnApply(n, env, r))
  {
    hide HearAll, Cleared, KeysSound, CanPrepare, ValidRequest, Send;
    ClearedMuted(n);
    if Cleared(n).More? {
      var drawn := Try(Cleared(n).n, NoTransaction);
      if drawn.More? {
        SendMuted(n, WithPrepared(drawn.n, env.id, r.localEdges, true, r.peerEdges),
                  Layout(Prepare(env.id, r.peerEdges, r.peerRevision)));
      }
    }
  }

  lemma StatusMuted(n: Node, unlocked: bool)
    requires KeysSound(n.keys)
    ensures MutedBy(n, OnStatus(n, unlocked))
  {
    hide HearAll, Injection.LocalLock, SayEnd, StopCapture, KeysSound, Send;
    NothingHeld();
    var locked := Receive(n.(localReady := unlocked), Injection.LocalLock(n.recv, !unlocked));
    if locked.More? {
      SendSilent(locked.n, LockState(!unlocked));
      var told := Send(locked.n, LockState(!unlocked));
      if told.More? && !unlocked {
        SayEndSilent(Suspended(told.n), None);
        StopCaptureSilent(GoLocal(SayEnd(Suspended(told.n), None).n));
      }
    }
  }

  lemma TakeOverMuted(n: Node)
    requires KeysSound(n.keys)
    ensures MutedBy(n, TakeOver(n)) && (TakeOver(n).More? ==> TakeOver(n).n.role.Local? && TakeOver(n).n.keys == n.keys)
  {
    hide HearAll, PhysicalActivity, SayEnd, StopCapture, KeysSound;
    var freed := Receive(n, PhysicalActivity(n.recv));
    ReceiveSilent(n, PhysicalActivity(n.recv));
    if freed.More? {
      SayEndSilent(freed.n, None);
      StopCaptureSilent(GoLocal(SayEnd(freed.n, None).n));
    }
  }

  lemma FinishedMuted(n: Node, env: Env, escape: bool)
    requires KeysSound(n.keys)
    ensures MutedBy(n, OnFinished(n, env, escape))
  {
    hide HearAll, EndSession, StopCapture, PlaceBack, KeysSound;
    EndSessionSilent(n, None);
    var ended := EndSession(n, None);
    StopCaptureSilent(GoLocal(ended.n));
    PlaceBackSilent(StopCapture(GoLocal(ended.n)).n, env, n.role, n.localReady && escape);
  }

  lemma ReturnMuted(n: Node, env: Env, index: nat, fraction: real)
    requires KeysSound(n.keys) && index < |n.desktop.edges|
    ensures MutedBy(n, Return(n, env, index, fraction))
  {
    hide HearAll, EndSession, StopCapture, Place, KeysSound;
    var exit := Some(Position(n.desktop.edges[index].id, fraction));
    EndSessionSilent(n, exit);
    var ended := EndSession(n, exit);
    StopCaptureSilent(GoLocal(ended.n));
    PlaceSilent(StopCapture(GoLocal(ended.n)).n, env, index, fraction);
  }

  lemma PeerLockMuted(n: Node, env: Env, locked: bool)
    requires KeysSound(n.keys)
    ensures MutedBy(n, OnPeerLock(n, env, locked))
  {
    hide HearAll, Injection.PeerLock, SayEnd, StopCapture, PlaceBack, KeysSound;
    NothingHeld();
    var noted := Receive(n.(peerReady := !locked), Injection.PeerLock(n.recv, locked));
    if noted.More? && locked {
      SayEndSilent(Suspended(noted.n), None);
      var told := SayEnd(Suspended(noted.n), None);
      StopCaptureSilent(told.n);
      var stopped := if n.role.Sending? then StopCapture(told.n) else More(told.n);
      PlaceBackSilent(stopped.n, env, n.role, n.localReady);
      StopCaptureSilent(GoLocal(PlaceBack(stopped.n, env, n.role, n.localReady).n));
    }
  }

  lemma BeginMuted(n: Node, env: Env, session: nat, entry: Position)
    requires KeysSound(n.keys)
    ensures MutedBy(n, OnBegin(n, env, session, entry))
  {
    hide HearAll, Place, Injection.Begin, Sample, EdgeNamed, ActiveEdges, KeysSound, Send;
    SampleSilent(n, env);
    SendSilent(n, End(session, None));
    var sampled := Sample(n, env);
    SendSilent(sampled.n, End(session, None));
    var edge := EdgeNamed(n, entry.edge, Available(n), 0);
    if sampled.More? && edge.Some? {
      PlaceSilent(sampled.n.(recv := Injection.Begin(sampled.n.recv, session).r), env, edge.value, entry.fraction);
    }
  }

  lemma SampleSilent(n: Node, env: Env)
    requires KeysSound(n.keys)
    ensures var f := Sample(n, env);
            && f.n == n.(luck := f.n.luck, keys := f.n.keys) && KeysSound(f.n.keys)
            && (f.Halt? ==> f.n.keys == n.keys)
  {
    SampleSound(n, env);
  }

  lemma InputMuted(n: Node, env: Env, session: nat, sequence: nat, e: InputEvent)
    requires KeysSound(n.keys)
    ensures MutedBy(n, OnInput(n, env, session, sequence, e))
  {
    hide HearAll, Injection.Input, Sample, TakeOver, KeysSound;
    if n.role == Receiving(session) {
      SampleSilent(n, env);
      var sampled := Sample(n, env);
      if sampled.More? {
        TakeOverMuted(sampled.n);
        ReceiveSilent(sampled.n, Injection.Input(sampled.n.recv, session, sequence, e));
      }
    }
  }

  lemma ComeBackSilent(n: Node, env: Env, before: Role, exit: Option<Position>)
    ensures Silent(n, ComeBack(n, env, before, exit).n)
  {
    hide HearAll, Place, EdgeNamed, ActiveEdges;
    if before.Sending? {
      PlaceSilent(n, env, before.edge, before.fraction);
      if exit.Some? {
        var all := Indices(|n.desktop.edges|);
        var named := EdgeNamed(n, exit.value.edge, all, 0);
        if named.Some? {
          PlaceSilent(n, env, named.value, exit.value.fraction);
        }
      }
    }
  }

  lemma EndMuted(n: Node, env: Env, session: nat, exit: Option<Position>)
    requires KeysSound(n.keys)
    ensures MutedBy(n, OnEnd(n, env, session, exit))
  {
    hide HearAll, Injection.End, StopCapture, ComeBack, KeysSound;
    if n.role.Session() == Some(session) {
      ReceiveSilent(n, Injection.End(n.recv, session));
      var ended := Receive(n, Injection.End(n.recv, session));
      StopCaptureSilent(ended.n);
      ComeBackSilent(StopCapture(ended.n).n, env, n.role, exit);
    }
  }

  lemma AbandonSilent(n: Node, p: PendingLayout)
    ensures Silent(n, Abandon(n, p).n)
  {
    hide HearAll, Dropped, Send;
    DroppedSilent(n);
    SendSilent(Dropped(n), Layout(Abort(p.id)));
  }

  lemma CommittedSilent(n: Node, env: Env, p: PendingLayout)
    ensures Silent(n, Committed(n, env, p).0)
  {
    hide HearAll;
  }

  lemma PreparedMuted(n: Node, env: Env, p: PendingLayout, ok: bool)
    requires KeysSound(n.keys)
    ensures MutedBy(n, OnPrepared(n, env, p, ok))
  {
    hide HearAll, Abandon, Send, KeysSound, Committed;
    CommittedSilent(n, env, p);
    var (tried, written) := if ok then Committed(n, env, p) else (n, false);
    AbandonSilent(tried, p);
    SendSilent(tried, Layout(Commit(p.id)));
  }

  lemma CommitMuted(n: Node, env: Env, p: PendingLayout)
    requires KeysSound(n.keys)
    ensures MutedBy(n, OnCommit(n, env, p))
  {
    hide HearAll, Dropped, Send, KeysSound, Committed;
    CommittedSilent(n, env, p);
    var tried := Committed(n, env, p).0;
    DroppedSilent(tried);
    SendSilent(Finish(tried, p.(committed := true)), Layout(Result(p.id, true, Some(p.next))));
    SendSilent(Dropped(tried), Layout(Result(p.id, false, None)));
  }

  lemma PrepareMuted(n: Node, env: Env, id: nat, edges: seq<EdgeConfig>, revision: Document)
    requires KeysSound(n.keys)
    ensures MutedBy(n, OnPrepare(n, env, id, edges, revision))
  {
    hide HearAll, Cleared, CanPrepare, KeysSound, Send;
    ClearedMuted(n);
    SendMuted(n, n, Layout(Prepared(id, false)));
    if Cleared(n).More? {
      SendMuted(n, WithPrepared(Cleared(n).n, id, edges, false, []), Layout(Prepared(id, true)));
    }
  }

  lemma LayoutMuted(n: Node, env: Env, m: LayoutMessage)
    requires KeysSound(n.keys)
    ensures MutedBy(n, OnLayout(n, env, m))
  {
    hide HearAll, Dropped, OnPrepare, OnPrepared, OnCommit, KeysSound;
    DroppedSilent(n);
    match m
    case Prepare(id, edges, revision) => PrepareMuted(n, env, id, edges, revision);
    case Prepared(id, ok) =>
      if Concerns(n, id) {
        PreparedMuted(n, env, n.paper.layout.value, ok);
      }
    case Commit(id) =>
      if Concerns(n, id) {
        CommitMuted(n, env, n.paper.layout.value);
      }
    case Result(_, _, _) =>
    case Abort(_) =>
  }

  lemma MessageMuted(n: Node, env: Env, m: Message)
    requires KeysSound(n.keys)
    ensures MutedBy(n, OnMessage(n, env, m))
  {
    hide HearAll, OnLayout, OnBegin, OnInput, OnEnd, OnPeerLock, KeysSound, Send;
    match m
    case Layout(letter) => LayoutMuted(n, env, letter);
    case Begin(session, entry) => BeginMuted(n, env, session, entry);
    case Input(session, sequence, event) => InputMuted(n, env, session, sequence, event);
    case End(session, exit) => EndMuted(n, env, session, exit);
    case LockState(locked) => PeerLockMuted(n, env, locked);
    case Ping(nonce) => SendSilent(n, Pong(nonce));
    case _ =>
  }

  // ---- Steps that send input ----

  /** What a running session has sent so far. */
  function Told(n: Node): seq<InputEvent>
    requires n.role.Sending?
  {
    var h := HearAll(n.physical, n.sent);
    if h.last in h.inputs then h.inputs[h.last] else []
  }

  /** A computer that is about to send `e` next: if keyboards are read directly, a key is the first of the rest. */
  ghost predicate MaySay(n: Node, e: InputEvent, rest: seq<InputEvent>) {
    n.role.Sending? && e.Valid() && Logged(n)
    && var h := HearAll(n.physical, n.sent);
       && h.last == n.role.session && h.last in h.inputs && n.role.sequence == |h.inputs[h.last]|
       && (n.physical ==>
             && !Chord(Pressed(h.inputs[h.last] + [e]), e)
             && Keyboard.Mirrors(Typed(h.inputs[h.last]) + (if e.KeyInput? then [e] else []) + rest, n.keys)
             && n.sourceKeys == Pressed(h.inputs[h.last] + [e]))
  }

  lemma SaidLog(n: Node, e: InputEvent, rest: seq<InputEvent>)
    requires MaySay(n, e, rest)
    ensures var h, m := HearAll(n.physical, n.sent), Input(n.role.session, n.role.sequence, e);
            HearAll(n.physical, n.sent + [m]) == Heard(h.last, h.inputs[h.last := h.inputs[h.last] + [e]], true)
  {
    hide Keyboard.Mirrors, Chord, InputEvent.Valid;
    HearNext(n.physical, n.sent, Input(n.role.session, n.role.sequence, e));
  }

  /** Sending it keeps the log well-formed, and the session in agreement with the keyboards. */
  lemma SaidInput(n: Node, e: InputEvent, rest: seq<InputEvent>)
    requires MaySay(n, e, rest) && KeysSound(n.keys)
    ensures var f := SendInput(n, e);
            && Logged(f.n) && f.n.keys == n.keys && f.n.physical == n.physical
            && (f.More? ==> Faithful(f.n, rest) && f.n.role == n.role.(sequence := n.role.sequence + 1))
  {
    hide KeysSound, Keyboard.Mirrors, Chord, InputEvent.Valid, LeavesPaper, Letters, HearAll, Hear;
    SaidLog(n, e, rest);
    var h := HearAll(n.physical, n.sent);
    TypedNext(h.inputs[h.last], e);
  }

  /** Touchpad frames, and captured pointer events, are never keys of a keyboard read directly. */
  lemma SendInputFaithful(n: Node, e: InputEvent, rest: seq<InputEvent>)
    requires Faithful(n, rest) && e.Valid() && (n.physical ==> !e.KeyInput?)
    ensures var f := SendInput(n, e);
            Logged(f.n) && f.n.keys == n.keys && (f.More? ==> Faithful(f.n, rest))
  {
    hide KeysSound, Keyboard.Mirrors, InputEvent.Valid, SendInput;
    if n.role.Sending? {
      var h := HearAll(n.physical, n.sent);
      PressedAppend(h.inputs[h.last], e);
      if n.physical {
        assert Typed(h.inputs[h.last]) + [] + rest == Typed(h.inputs[h.last]) + rest;
      }
      SaidInput(n, e, rest);
    } else {
      NotSending(n, e);
    }
  }

  lemma NotSending(n: Node, e: InputEvent)
    requires !n.role.Sending?
    ensures SendInput(n, e) == More(n)
  {
  }

  lemma {:induction false} SendInputsFaithful(n: Node, events: seq<InputEvent>, rest: seq<InputEvent>)
    requires Faithful(n, rest) && TouchFrames(events)
    ensures var f := SendInputs(n, events);
            Logged(f.n) && f.n.keys == n.keys && (f.More? ==> Faithful(f.n, rest))
    decreases |events|
  {
    hide Faithful, Logged, InputEvent.Valid, SendInput;
    FaithfulIsLogged(n, rest);
    if events != [] {
      SendInputsFaithful(n, events[..|events| - 1], rest);
      var before := SendInputs(n, events[..|events| - 1]);
      if before.More? {
        SendInputFaithful(before.n, events[|events| - 1], rest);
      }
    }
  }

  lemma FaithfulIsLogged(n: Node, rest: seq<InputEvent>)
    requires Faithful(n, rest)
    ensures Logged(n)
  {
  }

  ghost predicate ValidKeys(events: seq<InputEvent>) {
    forall i :: 0 <= i < |events| ==> events[i].KeyInput? && events[i].Valid()
  }

  /** One key: it joins what was sent, unless it completes the chord, and then only what was noted changes. */
  lemma KeyFaithful(n: Node, e: InputEvent, rest: seq<InputEvent>)
    requires Faithful(n, [e] + rest) && e.KeyInput? && e.Valid()
    ensures var f := ForwardKeyboard(n, e);
            && Logged(f.n) && f.n.keys == n.keys && f.n.physical == n.physical
            && (f.More? && !Completes(n, e) ==> Faithful(f.n, rest))
            && (Completes(n, e) ==> f == More(WithKey(n, e)))
  {
    hide KeysSound, Keyboard.Mirrors, InputEvent.Valid, SendInput, Chord;
    if n.role.Sending? && !Completes(n, e) {
      var h := HearAll(n.physical, n.sent);
      PressedAppend(h.inputs[h.last], e);
      if n.physical {
        assert Typed(h.inputs[h.last]) + [e] + rest == Typed(h.inputs[h.last]) + ([e] + rest);
      }
      SaidInput(WithKey(n, e), e, rest);
    }
  }

  lemma ForwardFaithful(n: Node, env: Env, e: InputEvent, rest: seq<InputEvent>)
    requires Faithful(n, [e] + rest) && e.KeyInput? && e.Valid()
    ensures var f := Forward(n, env, e);
            Logged(f.n) && (f.More? ==> Faithful(f.n, rest) && f.n.keys == n.keys)
  {
    hide HearAll, KeysSound, Keyboard.Mirrors, InputEvent.Valid, ForwardKeyboard, SayEnd, StopCapture, PlaceBack, Chord;
    KeyFaithful(n, e, rest);
    if Completes(n, e) {
      var keyed := WithKey(n, e);
      SayEndSilent(keyed, None);
      StopCaptureSilent(SayEnd(keyed, None).n);
      PlaceBackSilent(StopCapture(SayEnd(keyed, None).n).n, env, n.role, true);
    }
  }

  lemma {:induction false} ForwardAllFaithful(n: Node, env: Env, events: seq<InputEvent>, k: nat)
    requires k <= |events| && Faithful(n, events) && ValidKeys(events)
    ensures var f := ForwardAll(n, env, events[..k]);
            Logged(f.n) && (f.More? ==> Faithful(f.n, events[k..]) && f.n.keys == n.keys)
    decreases k
  {
    hide Faithful, Logged, InputEvent.Valid, Forward;
    if k == 0 {
      assert events[0..] == events;
      FaithfulIsLogged(n, events);
    } else {
      ForwardAllFaithful(n, env, events, k - 1);
      assert events[..k][..k - 1] == events[..k - 1];
      var before := ForwardAll(n, env, events[..k - 1]);
      if before.More? {
        assert events[k - 1..] == [events[k - 1]] + events[k..];
        ForwardFaithful(before.n, env, events[k - 1], events[k..]);
      }
    }
  }

  /** Pressing what is already held, smallest code first, never completes the chord: Escape comes before every
      modifier, so the result that the loop ignores is always negative. */
  lemma {:induction false} PressAllFaithful(n: Node, codes: seq<int>, k: nat)
    requires k <= |codes| && StrictlyAscending(codes) && (forall i :: 0 <= i < |codes| ==> 1 <= codes[i] <= 255)
    requires n.role.Sending? && n.role.sequence == 0 && n.sourceKeys == {} && Faithful(n, Presses(codes))
    ensures var f := PressAll(n, Presses(codes)[..k]);
            && Logged(f.n)
            && (f.More? ==>
                  && Faithful(f.n, Presses(codes)[k..]) && f.n.keys == n.keys && f.n.role.Sending?
                  && (k == 0 ==> f.n.sourceKeys == {})
                  && (k < |codes| ==> !Completes(f.n, Presses(codes)[k])))
    decreases k
  {
    hide Faithful, Logged, InputEvent.Valid, ForwardKeyboard, LeavesPaper, Letters;
    var events := Presses(codes);
    if k == 0 {
      assert events[0..] == events;
      FaithfulIsLogged(n, events);
    } else {
      PressAllFaithful(n, codes, k - 1);
      assert events[..k][..k - 1] == events[..k - 1];
      var before := PressAll(n, events[..k - 1]);
      if before.More? {
        assert events[k - 1..] == [events[k - 1]] + events[k..];
        KeyIsValid(codes[k - 1], true);
        KeyFaithful(before.n, events[k - 1], events[k..]);
        StillSending(before.n, events[k - 1]);
      }
    }
    if k < |codes| && k > 0 {
      assert codes[0] < codes[k];
    }
  }

  lemma KeyIsValid(code: int, pressed: bool)
    requires 1 <= code <= 255
    ensures KeyInput(code, pressed).Valid()
  {
  }

  lemma StillSending(n: Node, e: InputEvent)
    requires n.role.Sending?
    ensures ForwardKeyboard(n, e).More? ==> ForwardKeyboard(n, e).n.role.Sending?
  {
  }

  /** What is held when a session starts, pressed in order, is exactly what the keyboards hold. */
  lemma {:induction false} PressesMirror(codes: seq<int>, k: nat)
    requires k <= |codes| && StrictlyAscending(codes) && (forall i :: 0 <= i < |codes| ==> 1 <= codes[i] <= 255)
    ensures Pressed(Presses(codes)[..k]) == (set i | 0 <= i < k :: codes[i])
    ensures Keyboard.Alternates(Presses(codes)[..k])
  {
    var events := Presses(codes);
    if k > 0 {
      PressesMirror(codes, k - 1);
      assert events[..k] == events[..k - 1] + [events[k - 1]];
      PressedAppend(events[..k - 1], events[k - 1]);
      assert codes[k - 1] !in Pressed(events[..k - 1]);
      Keyboard.AppendAlternates(events[..k - 1], codes[k - 1], true);
    }
  }

  /** The presses of everything held say exactly what is held. */
  lemma PressesSound(k: Keyboard.Keys)
    requires KeysSound(k)
    ensures var codes := Codes(Keyboard.Held(k.devices));
            && StrictlyAscending(codes) && (forall i :: 0 <= i < |codes| ==> 1 <= codes[i] <= 255)
            && Keyboard.Mirrors(Presses(codes), k)
  {
    hide Codes, Keyboard.Alternates, Keyboard.Held;
    var held := Keyboard.Held(k.devices);
    var codes := Codes(held);
    CodesSpec(held);
    CodesWithin(held);
    var taken: seq<InputEvent> :| Keyboard.Mirrors(taken + k.pending, k);
    assert forall c :: c in held ==> 1 <= c <= 255;
    PressesMirror(codes, |codes|);
    assert Presses(codes)[..|codes|] == Presses(codes);
    AllOf(codes, held);
  }

  lemma AllOf(codes: seq<int>, held: set<int>)
    requires forall c :: c in codes <==> c in held
    ensures (set i | 0 <= i < |codes| :: codes[i]) == held
  {
    var members := set i | 0 <= i < |codes| :: codes[i];
    forall c ensures c in members <==> c in held {
      if c in held {
        var i :| 0 <= i < |codes| && codes[i] == c;
        assert c in members;
      }
      if c in members {
        assert c in codes;
      }
    }
  }

  /** A session that starts: it owes exactly the presses of what is held. */
  lemma BeginFaithful(n: Node, m: Message, begun: Node)
    requires Logged(n) && KeysSound(n.keys) && m.Begin? && m.session == n.nextSession
    requires HearAll(n.physical, begun.sent) == Hear(n.physical, HearAll(n.physical, n.sent), m)
    requires begun.role.Sending? && begun.role.session == m.session && begun.role.sequence == 0
    requires begun.keys == n.keys && begun.physical == n.physical && begun.sourceKeys == {}
    requires begun.nextSession == n.nextSession + 1
    ensures Faithful(begun, Presses(Codes(Keyboard.Held(n.keys.devices))))
  {
    hide Codes, HearAll, KeysSound, Keyboard.Mirrors, Keyboard.Held, Presses;
    PressesSound(n.keys);
    var presses := Presses(Codes(Keyboard.Held(n.keys.devices)));
    assert Typed([]) + presses == presses;
  }

  lemma StartSendingFaithful(n: Node, env: Env, index: nat, fraction: real)
    requires Settled(n) && n.role.Local? && index < |n.desktop.edges|
    ensures var f := StartSending(n, env, index, fraction);
            Logged(f.n) && (f.More? ==> Settled(f.n))
  {
    hide Sample, StopCapture, PressAll, Codes, Presses, HearAll, Keyboard.Emergency, Keyboard.Held, KeysSound,
         Keyboard.Mirrors, LeavesPaper, Letters;
    SampleSound(n, env);
    SampleSilent(n, env);
    var sampled := Sample(n, env);
    if sampled.More? {
      var held := Keyboard.Held(sampled.n.keys.devices);
      var drained := Drained(sampled.n);
      StopCaptureSilent(drained);
      if !(Keyboard.ESCAPE in held && Keyboard.Emergency(held)) && drained.nextSession < MAX_COUNTER {
        StartPressing(drained, index, fraction, Position(n.desktop.edges[index].id, fraction));
      }
    }
  }

  lemma StartPressing(n: Node, index: nat, fraction: real, entry: Position)
    requires Logged(n) && KeysSound(n.keys) && n.keys.pending == [] && index < |n.desktop.edges|
    requires entry == Position(n.desktop.edges[index].id, fraction)
    ensures var begun := Send(n.(nextSession := n.nextSession + 1), Begin(n.nextSession, entry));
            && Logged(begun.n)
            && (begun.More? ==>
                  var sending := begun.n.(role := Sending(n.nextSession, 0, index, fraction), sourceKeys := {});
                  var pressed := PressAll(sending, Presses(Codes(Keyboard.Held(n.keys.devices))));
                  Logged(pressed.n) && (pressed.More? ==> Settled(pressed.n)))
  {
    hide PressAll, Codes, HearAll, KeysSound, Keyboard.Held, Keyboard.Mirrors, Presses, StrictlyAscending, LeavesPaper,
         Letters;
    var m := Begin(n.nextSession, entry);
    HearNext(n.physical, n.sent, m);
    var begun := Send(n.(nextSession := n.nextSession + 1), m);
    if begun.More? {
      var sending := begun.n.(role := Sending(n.nextSession, 0, index, fraction), sourceKeys := {});
      BeginFaithful(n, m, sending);
      PressesSound(n.keys);
      var codes := Codes(Keyboard.Held(n.keys.devices));
      PressAllFaithful(sending, codes, |codes|);
      PressesLength(codes);
    }
  }

  lemma PressesLength(codes: seq<int>)
    ensures |Presses(codes)| == |codes|
    ensures Presses(codes)[..|codes|] == Presses(codes) && Presses(codes)[|codes|..] == []
  {
  }

  lemma CaptureFaithful(n: Node, env: Env, generation: nat, report: Report)
    requires Settled(n) && Legal(n, env, CaptureEvent(generation, report))
    ensures var f := OnCapture(n, env, generation, report);
            Logged(f.n) && (f.More? ==> Settled(f.n))
  {
    hide StartSending, Return, StopCapture, OnFinished, SendInput, HearAll, KeysSound, Keyboard.Mirrors, ActiveEdges,
         TouchFrames, InputEvent.Valid;
    if generation == n.capture.generation && n.capture.live {
      match report
      case Started(edge, fraction) =>
        if edge < |n.capture.edges| && n.capture.edges[edge] < |n.desktop.edges| {
          var seen := n.(capture := n.capture.(started := true));
          StopCaptureSilent(seen);
          if n.role.Local? {
            StartSendingFaithful(seen, env, n.capture.edges[edge], fraction);
          } else {
            ReturnMuted(seen, env, n.capture.edges[edge], fraction);
          }
        }
      case Captured(e) =>
        if n.role.Sending? && !(n.physical && e.KeyInput?) {
          SendInputFaithful(n, e, []);
        }
      case Finished(escape) => FinishedMuted(n, env, escape);
      case Armed =>
      case Ready =>
    }
  }

  lemma RoutedFaithful(n: Node, env: Env)
    requires Settled(n) && TouchFrames(env.routed)
    ensures var f := Routed(n, env);
            Logged(f.n) && (f.More? ==> Settled(f.n))
  {
    hide SendInputs, HearAll, KeysSound, Keyboard.Mirrors, TouchFrames;
    var tried := Try(n, RouteFailed);
    if tried.More? {
      SendInputsFaithful(tried.n, env.routed, []);
      SendInputsRole(tried.n, env.routed);
    }
  }

  lemma PreambleFaithful(n: Node, env: Env)
    requires Settled(n) && TouchFrames(env.routed)
    ensures var f := Preamble(n, env);
            Logged(f.n) && (f.More? ==> Settled(f.n))
  {
    hide Retire, Routed, HearAll, KeysSound, Keyboard.Mirrors, Available, TouchFrames, MustRetire, MayCapture;
    RetireMuted(n, env);
    var kept := Retired(n, env);
    if kept.More? {
      if MustRetire(n) {
        MutedKeeps(n, kept.n);
      }
      RoutedFaithful(kept.n, env);
    }
  }

  lemma {:induction false} SendInputsRole(n: Node, events: seq<InputEvent>)
    ensures SendInputs(n, events).More? ==> (SendInputs(n, events).n.role.Sending? <==> n.role.Sending?)
    decreases |events|
  {
    if events != [] {
      SendInputsRole(n, events[..|events| - 1]);
    }
  }

  /** Taking in the keyboards' changes leaves just those changes to be forwarded. */
  lemma SampledFaithful(n: Node, env: Env)
    requires Settled(n)
    ensures var f := SampledIfReady(n, env);
            Logged(f.n) && (f.More? ==> Faithful(Drained(f.n), f.n.keys.pending) && ValidKeys(f.n.keys.pending))
  {
    hide HearAll, Sample, Keyboard.Mirrors;
    var taken: seq<InputEvent> :| Keyboard.Mirrors(taken + n.keys.pending, n.keys);
    DrainSound(n, taken);
    PendingValid(taken, n.keys.pending, n.keys);
    SampleSilent(n, env);
    SampleSound(n, env);
    if n.BothReady() {
      SampledKeys(n, env, taken);
      if n.role.Sending? && n.physical {
        assert Typed(Told(n)) + n.keys.pending == Typed(Told(n)) + [];
        SampledKeys(n, env, Typed(Told(n)));
      }
    }
  }

  lemma SampledKeys(n: Node, env: Env, taken: seq<InputEvent>)
    requires Keyboard.Mirrors(taken + n.keys.pending, n.keys)
    ensures var f := Sample(n, env);
            f.More? ==> && Keyboard.Mirrors(taken + f.n.keys.pending, Drained(f.n).keys)
                        && ValidKeys(f.n.keys.pending)
  {
    Keyboard.AbsorbAllMirrors(taken, n.keys, env.changes);
    var f := Sample(n, env);
    if f.More? {
      PendingValid(taken, f.n.keys.pending, f.n.keys);
    }
  }

  lemma PendingValid(taken: seq<InputEvent>, pending: seq<InputEvent>, k: Keyboard.Keys)
    requires Keyboard.Mirrors(taken + pending, k)
    ensures ValidKeys(pending)
  {
    forall i | 0 <= i < |pending| ensures pending[i].KeyInput? && pending[i].Valid() {
      assert (taken + pending)[|taken| + i] == pending[i];
    }
  }

  lemma ActFaithful(n: Node, env: Env, events: seq<InputEvent>)
    requires Faithful(n, events) && ValidKeys(events) && n.keys.pending == [] && TouchFrames(env.touch)
    ensures var f := Act(n, env, events);
            Logged(f.n) && (f.More? ==> Settled(f.n))
  {
    hide Faithful, Logged, TakeOver, ForwardAll, SendInputs, CaptureOver, Beat, ValidKeys, TouchFrames;
    if n.role.Receiving? {
      TakeOverFaithful(n, events);
    }
    var kept := if n.BothReady() && env.active && n.role.Receiving? then TakeOver(n) else More(n);
    FaithfulIsLogged(n, events);
    if kept.More? {
      ForwardAllFaithful(kept.n, env, events, |events|);
      assert events[..|events|] == events && events[|events|..] == [];
      var typed := ForwardAll(kept.n, env, events);
      if typed.More? {
        SendInputsFaithful(typed.n, env.touch, []);
        var touched := SendInputs(typed.n, env.touch);
        if touched.More? {
          TickEnds(touched.n, env);
        }
      }
    }
  }

  lemma TakeOverFaithful(n: Node, events: seq<InputEvent>)
    requires Faithful(n, events) && n.role.Receiving? && n.keys.pending == []
    ensures var f := TakeOver(n);
            Logged(f.n) && (f.More? ==> Faithful(f.n, events) && f.n.keys.pending == [])
  {
    hide HearAll, TakeOver;
    TakeOverMuted(n);
  }

  /** The end of the capture and the heartbeat say nothing about input. */
  lemma TickEnds(n: Node, env: Env)
    requires Faithful(n, []) && n.keys.pending == []
    ensures var watched := CaptureOver(n, env);
            && Logged(watched.n)
            && (watched.More? ==> Logged(Beat(watched.n, env).n)
                                  && (Beat(watched.n, env).More? ==> Settled(Beat(watched.n, env).n)))
  {
    hide HearAll, KeysSound, StopCapture, SayEnd, Send, Keyboard.Mirrors;
    StopCaptureSilent(n);
    SayEndSilent(StopCapture(n).n, None);
    var watched := CaptureOver(n, env);
    SendSilent(watched.n, Ping(watched.n.heartbeat));
  }

  lemma TickFaithful(n: Node, env: Env)
    requires Settled(n) && TouchFrames(env.touch)
    ensures var f := OnTick(n, env);
            Logged(f.n) && (f.More? ==> Settled(f.n))
  {
    hide HearAll, KeysSound, Expire, SampledIfReady, Act, Keyboard.Mirrors, TouchFrames;
    var polled := Try(n, PollFailed);
    if polled.More? {
      ExpireMuted(polled.n, env);
      var current := Expire(polled.n, env);
      if current.More? {
        MutedKeeps(polled.n, current.n);
        SampledFaithful(current.n, env);
        var sampled := SampledIfReady(current.n, env);
        if sampled.More? {
          ActFaithful(Drained(sampled.n), env, sampled.n.keys.pending);
        }
      }
    }
  }

  lemma ExpireMuted(n: Node, env: Env)
    requires KeysSound(n.keys)
    ensures MutedBy(n, Expire(n, env))
  {
    hide HearAll, KeysSound, Abandon;
    if n.paper.layout.Some? {
      AbandonSilent(n, n.paper.layout.value);
    }
  }

  lemma BranchFaithful(n: Node, env: Env, ev: Event)
    requires Settled(n) && Legal(n, env, ev)
    ensures var f := Branch(n, env, ev);
            Logged(f.n) && (f.More? ==> Settled(f.n))
  {
    hide HearAll, KeysSound, OnRelease, OnApply, OnStatus, OnTick, OnCapture, OnMessage, Decoded, Keyboard.Mirrors,
         TouchFrames, InputEvent.Valid, Send;
    match ev
    case OutputsChanged(outputs) =>
      var desktop := n.desktop.(outputs := outputs);
      SendSilent(n.(desktopEpoch := Wrapped(n.desktopEpoch), desktop := desktop), DesktopInfo(desktop));
    case ReleaseCommand => ReleaseMuted(n, env);
    case ApplyCommand(request) => ApplyMuted(n, env, request);
    case StatusChanged(unlocked) => StatusMuted(n, unlocked);
    case Tick => TickFaithful(n, env);
    case CaptureEvent(generation, report) => CaptureFaithful(n, env, generation, report);
    case Received(message) => MessageMuted(n, env, message);
    case _ =>
  }

  lemma StepFaithful(n: Node, env: Env, ev: Event)
    requires Settled(n) && LegalStep(n, env, ev)
    ensures var f := Step(n, env, ev);
            Logged(f.n) && (f.More? ==> Settled(f.n))
  {
    hide Preamble, Branch, Settled, Logged, Legal, TouchFrames;
    PreambleFaithful(n, env);
    var ready := Preamble(n, env);
    if ready.More? {
      BranchFaithful(ready.n, env, ev);
    }
  }

  // ---- The main results ----

  lemma OpenFaithful(desktop: Desktop, physical: bool, unlocked: bool, pads: nat, luck: seq<Luck>, fate: seq<Luck>)
    ensures var f := Open(desktop, physical, unlocked, pads, luck, fate);
            Logged(f.n) && (f.More? ==> Settled(f.n) && f.n.role.Local?) && f.n.physical == physical
  {
    hide Injection.LocalLock, KeysSound, HearAll;
    NothingHeld();
    Introduced(desktop, physical, unlocked, pads, luck, fate);
  }

  /** The three messages with which every connection opens. */
  lemma Introduced(desktop: Desktop, physical: bool, unlocked: bool, pads: nat, luck: seq<Luck>, fate: seq<Luck>)
    ensures var f := Open(desktop, physical, unlocked, pads, luck, fate);
            && HearAll(f.n.physical, f.n.sent) == Heard(0, map[], true)
            && f.n.nextSession == 1 && f.n.role == Local && f.n.physical == physical
            && f.n.keys == Keyboard.NO_KEYS
  {
    hide Injection.LocalLock, Send;
    var n := Fresh(desktop, physical, unlocked, luck, fate);
    ReceiveSilent(n, Injection.LocalLock(n.recv, !unlocked));
    var locked := Receive(n, Injection.LocalLock(n.recv, !unlocked));
    if locked.More? {
      SendSilent(locked.n, DesktopInfo(desktop));
      var shown := Send(locked.n, DesktopInfo(desktop));
      if shown.More? {
        SendSilent(shown.n, Touchpads(pads));
        var listed := Send(shown.n, Touchpads(pads));
        if listed.More? {
          SendSilent(listed.n, LockState(!unlocked));
        }
      }
    }
  }

  /** Throughout a session with directly read keyboards, what was sent in it, replayed from nothing, presses exactly
      the keys that are physically held on the local devices, by what these have reported. */
  lemma SendsWhatIsHeld(n: Node)
    requires Settled(n) && n.role.Sending? && n.physical
    ensures Pressed(Told(n)) == Keyboard.PhysicallyHeld(n.keys.seen) == Keyboard.Held(n.keys.devices) == n.sourceKeys
    ensures Keyboard.Alternates(Typed(Told(n)))
  {
    hide Keyboard.PhysicallyHeld, Keyboard.Observes, Keyboard.Held;
    Keyboard.ObservedHeld(n.keys);
    var typed := Typed(Told(n));
    assert typed + [] == typed;
    TypedPressed(Told(n));
  }

  /** In a well-formed log no event of a session presses Escape while its events hold down Ctrl, Alt and Shift, each
      from either side, by their key codes. */
  lemma {:induction false} ChordNeverSent(sent: seq<Message>, session: nat, k: nat)
    requires HearAll(true, sent).ok && session in HearAll(true, sent).inputs
    requires k < |HearAll(true, sent).inputs[session]|
    ensures var events := HearAll(true, sent).inputs[session];
            var down := Pressed(events[..k + 1]);
            && !(events[k] == KeyInput(1, true) && (29 in down || 97 in down) && (56 in down || 100 in down)
                 && (42 in down || 54 in down))
            && events[k].Valid()
    decreases |sent|
  {
    var shorter, m := sent[..|sent| - 1], sent[|sent| - 1];
    var h := HearAll(true, shorter);
    var events := HearAll(true, sent).inputs[session];
    if m.Input? && m.session == session && k == |events| - 1 {
      assert events[..k + 1] == events;
    } else {
      assert session in h.inputs && h.inputs[session] <= events && k < |h.inputs[session]|;
      assert h.inputs[session][..k + 1] == events[..k + 1];
      ChordNeverSent(shorter, session, k);
    }
  }
}
