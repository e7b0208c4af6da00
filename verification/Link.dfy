// Two computers over a link that delivers in order: what one injects is what the other sent (src/bridge.rs,
// src/receiver.rs).
module Link {
  import opened ControlSafety
  import opened Coordination
  import opened Geometry
  import opened Injection
  import opened Ordered
  import opened Protocol
  import opened Speech
  import Keyboard
  import Modes

  // ---- What a step does to the receiver ----

  /** Nothing was injected, and the session is the same or over. */
  predicate Receded(r: Receiver, after: Receiver) {
    after.injected == r.injected && (after.session == r.session || after.session.None?)
  }

  lemma {:induction false} ReleaseEachFrame(r: Receiver, order: seq<int>)
    ensures var after := ReleaseEach(r, order).0; after == r.(sink := after.sink, pending := after.pending)
    decreases |order|
  {
    if order != [] {
      ReleaseEachFrame(r, order[..|order| - 1]);
    }
  }

  lemma ReleaseCodesFrame(r: Receiver, codes: set<int>)
    ensures var after := ReleaseCodes(r, codes).0; after == r.(sink := after.sink, pending := after.pending)
  {
    hide ReleaseEach, Codes;
    var all := r.(pending := r.pending + codes);
    ReleaseEachFrame(all, Codes(all.pending));
  }

  lemma LocksRecede(r: Receiver, locked: bool)
    ensures Receded(r, LocalLock(r, locked).r) && Receded(r, PeerLock(r, locked).r)
  {
    hide ReleaseCodes;
    LockRecedes(r, r.state.LocalLock(locked));
    LockRecedes(r, r.state.PeerLock(locked));
  }

  lemma LockRecedes(r: Receiver, state: Modes.ControlState)
    ensures Receded(r, AfterLock(r, state).r)
  {
    hide ReleaseCodes;
    var codes := if state == r.state then {} else r.state.held;
    ReleaseCodesFrame(r.(state := state), codes);
    ReleaseCodesFrame(r.(state := state, session := None), codes);
  }

  lemma StopRecedes(r: Receiver)
    ensures Receded(r, Stop(r).r) && Stop(r).r.session.None?
  {
    hide ReleaseCodes;
    ReleaseCodesFrame(r.(session := None, state := r.state.Stopped()), r.state.held);
  }

  lemma ActivityRecedes(r: Receiver)
    ensures Receded(r, PhysicalActivity(r).r)
  {
    StopRecedes(r);
  }

  predicate Kept(n: Node, f: Flow) {
    Receded(n.recv, f.n.recv)
  }

  lemma EndSessionKept(n: Node, exit: Option<Position>)
    ensures Kept(n, EndSession(n, exit))
  {
    hide Stop;
    StopRecedes(n.recv);
  }

  lemma PlaceKept(n: Node, env: Env, index: nat, fraction: real)
    ensures Place(n, env, index, fraction).n.recv == n.recv.(sink := Place(n, env, index, fraction).n.recv.sink)
  {
    hide Placement, InputEvent.Valid, Effect, LeavesPaper, Letters;
  }

  lemma PlaceBackKept(n: Node, env: Env, role: Role, allowed: bool)
    ensures Kept(n, PlaceBack(n, env, role, allowed))
  {
    hide Place;
    if role.Sending? {
      PlaceKept(n, env, role.edge, role.fraction);
    }
  }

  lemma {:induction false} SendInputsKept(n: Node, events: seq<InputEvent>)
    ensures SendInputs(n, events).n.recv == n.recv
    decreases |events|
  {
    hide SendInput;
    if events != [] {
      SendInputsKept(n, events[..|events| - 1]);
      var before := SendInputs(n, events[..|events| - 1]);
      SendInputKept(before.n, events[|events| - 1]);
    }
  }

  lemma SendInputKept(n: Node, e: InputEvent)
    ensures SendInput(n, e).n.recv == n.recv
  {
  }

  lemma ForwardKeyboardKept(n: Node, e: InputEvent)
    ensures ForwardKeyboard(n, e).n.recv == n.recv
  {
    hide SendInput, Completes;
    SendInputKept(WithKey(n, e), e);
  }

  lemma EscapeKept(n: Node, env: Env)
    ensures Kept(n, Escape(n, env))
  {
    hide SayEnd, StopCapture, PlaceBack;
    SayEndKept(n, None);
    var told := SayEnd(n, None);
    StopCaptureKept(told.n);
    PlaceBackKept(StopCapture(told.n).n, env, n.role, true);
  }

  lemma ForwardKept(n: Node, env: Env, e: InputEvent)
    ensures Kept(n, Forward(n, env, e))
  {
    hide ForwardKeyboard, Escape, Completes;
    ForwardKeyboardKept(n, e);
    var keyed := ForwardKeyboard(n, e);
    if keyed.More? && Completes(n, e) {
      EscapeKept(keyed.n, env);
    }
  }

  lemma {:induction false} ForwardAllKept(n: Node, env: Env, events: seq<InputEvent>)
    ensures Kept(n, ForwardAll(n, env, events))
    decreases |events|
  {
    hide Forward;
    if events != [] {
      ForwardAllKept(n, env, events[..|events| - 1]);
      var before := ForwardAll(n, env, events[..|events| - 1]);
      ForwardKept(before.n, env, events[|events| - 1]);
    }
  }

  lemma {:induction false} PressAllKept(n: Node, events: seq<InputEvent>)
    ensures PressAll(n, events).n.recv == n.recv
    decreases |events|
  {
    hide ForwardKeyboard;
    if events != [] {
      PressAllKept(n, events[..|events| - 1]);
      var before := PressAll(n, events[..|events| - 1]);
      ForwardKeyboardKept(before.n, events[|events| - 1]);
    }
  }

  lemma SendKept(n: Node, m: Message)
    ensures Send(n, m).n.recv == n.recv
  {
  }

  lemma SayEndKept(n: Node, exit: Option<Position>)
    ensures SayEnd(n, exit).n.recv == n.recv
  {
  }

  lemma StopCaptureKept(n: Node)
    ensures StopCapture(n).n.recv == n.recv
  {
  }

  lemma ReceiveKept(n: Node, a: Answer)
    ensures Receive(n, a).n == n.(recv := a.r)
  {
  }

  lemma DroppedKept(n: Node)
    ensures Dropped(n).recv == n.recv
  {
  }

  lemma RetireKept(n: Node, env: Env)
    ensures Kept(n, Retire(n, env))
  {
    hide EndSession, PlaceBack, LeavesPaper, Letters;
    EndSessionKept(n, None);
    PlaceBackKept(StopCapture(EndSession(n, None).n).n, env, n.role,
                  n.localReady && n.role.Sending? && n.role.edge < |n.desktop.edges|
                  && HasOutput(n.desktop, n.desktop.edges[n.role.edge]));
  }

  lemma RoutedKept(n: Node, env: Env)
    ensures Routed(n, env).n.recv == n.recv
  {
    hide SendInputs;
    SendInputsKept(Try(n, RouteFailed).n, env.routed);
  }

  lemma PreambleKept(n: Node, env: Env)
    ensures Kept(n, Preamble(n, env))
  {
    hide Retire, Routed, MustRetire, MayCapture, Available;
    RetireKept(n, env);
    RoutedKept(Retired(n, env).n, env);
  }

  lemma ReleaseKept(n: Node, env: Env)
    ensures Kept(n, OnRelease(n, env))
  {
    hide EndSession, PlaceBack;
    EndSessionKept(n, None);
    PlaceBackKept(StopCapture(EndSession(n, None).n).n, env, n.role, true);
  }

  lemma ClearedKept(n: Node)
    ensures Kept(n, Cleared(n))
  {
    hide EndSession, StopCapture;
    EndSessionKept(n, None);
    StopCaptureKept(EndSession(n, None).n);
  }

  lemma ApplyKept(n: Node, env: Env, r: LayoutRequest)
    ensures Kept(n, OnApply(n, env, r))
  {
    hide Cleared, CanPrepare, ValidRequest, Send;
    ClearedKept(n);
    if Cleared(n).More? {
      var drawn := Try(Cleared(n).n, NoTransaction);
      SendKept(WithPrepared(drawn.n, env.id, r.localEdges, true, r.peerEdges),
               Layout(Prepare(env.id, r.peerEdges, r.peerRevision)));
    }
  }

  lemma StatusKept(n: Node, unlocked: bool)
    ensures Kept(n, OnStatus(n, unlocked))
  {
    hide Injection.LocalLock, Send, SayEnd, StopCapture;
    LocksRecede(n.recv, !unlocked);
    var locked := Receive(n.(localReady := unlocked), Injection.LocalLock(n.recv, !unlocked));
    SendKept(locked.n, LockState(!unlocked));
    var told := Send(locked.n, LockState(!unlocked));
    SayEndKept(Suspended(told.n), None);
    StopCaptureKept(GoLocal(SayEnd(Suspended(told.n), None).n));
  }

  lemma TakeOverKept(n: Node)
    ensures Kept(n, TakeOver(n))
  {
    hide PhysicalActivity, SayEnd, StopCapture;
    ActivityRecedes(n.recv);
    var freed := Receive(n, PhysicalActivity(n.recv));
    SayEndKept(freed.n, None);
    StopCaptureKept(GoLocal(SayEnd(freed.n, None).n));
  }

  lemma TickKept(n: Node, env: Env)
    ensures Kept(n, OnTick(n, env))
  {
    hide Expire, SampledIfReady, Act;
    var polled := Try(n, PollFailed);
    ExpireKept(polled.n, env);
    var current := Expire(polled.n, env);
    SampledKept(current.n, env);
    var sampled := SampledIfReady(current.n, env);
    ActKept(Drained(sampled.n), env, sampled.n.keys.pending);
  }

  lemma ExpireKept(n: Node, env: Env)
    ensures Expire(n, env).n.recv == n.recv
  {
    hide Abandon;
    if n.paper.layout.Some? {
      AbandonKept(n, n.paper.layout.value);
    }
  }

  lemma AbandonKept(n: Node, p: PendingLayout)
    ensures Abandon(n, p).n.recv == n.recv
  {
    hide Dropped, Send;
    DroppedKept(n);
    SendKept(Dropped(n), Layout(Abort(p.id)));
  }

  lemma SampledKept(n: Node, env: Env)
    ensures SampledIfReady(n, env).n.recv == n.recv
  {
    hide Keyboard.AbsorbAll;
  }

  lemma ActKept(n: Node, env: Env, events: seq<InputEvent>)
    ensures Kept(n, Act(n, env, events))
  {
    hide TakeOver, ForwardAll, SendInputs, CaptureOver, Beat;
    TakeOverKept(n);
    var kept := if n.BothReady() && env.active && n.role.Receiving? then TakeOver(n) else More(n);
    ForwardAllKept(kept.n, env, events);
    var typed := ForwardAll(kept.n, env, events);
    SendInputsKept(typed.n, env.touch);
    var touched := SendInputs(typed.n, env.touch);
    TickEndsKept(touched.n, env);
    TickEndsKept(CaptureOver(touched.n, env).n, env);
  }

  lemma TickEndsKept(n: Node, env: Env)
    ensures CaptureOver(n, env).n.recv == n.recv && Beat(n, env).n.recv == n.recv
  {
    hide StopCapture, SayEnd, Send;
    StopCaptureKept(n);
    SayEndKept(StopCapture(n).n, None);
    SendKept(n, Ping(n.heartbeat));
  }

  lemma CaptureKept(n: Node, env: Env, generation: nat, report: Report)
    ensures Kept(n, OnCapture(n, env, generation, report))
  {
    hide OnStarted, OnCaptured, OnFinished;
    match report
    case Started(edge, fraction) => StartedKept(n, env, edge, fraction);
    case Captured(e) => CapturedKept(n, env, e);
    case Finished(escape) => FinishedKept(n, env, escape);
    case Armed =>
    case Ready =>
  }

  lemma CapturedKept(n: Node, env: Env, e: InputEvent)
    ensures Kept(n, OnCaptured(n, env, e))
  {
    hide SendInput;
    SendInputKept(n, e);
  }

  lemma FinishedKept(n: Node, env: Env, escape: bool)
    ensures Kept(n, OnFinished(n, env, escape))
  {
    hide EndSession, PlaceBack;
    EndSessionKept(n, None);
    PlaceBackKept(StopCapture(GoLocal(EndSession(n, None).n)).n, env, n.role, n.localReady && escape);
  }

  lemma StartedKept(n: Node, env: Env, edge: nat, fraction: real)
    ensures Kept(n, OnStarted(n, env, edge, fraction))
  {
    hide StartSending, Return, ActiveEdges;
    var seen := n.(capture := n.capture.(started := true));
    if edge < |n.capture.edges| && n.capture.edges[edge] < |n.desktop.edges| {
      StartSendingKept(seen, env, n.capture.edges[edge], fraction);
      ReturnKept(seen, env, n.capture.edges[edge], fraction);
    }
  }

  lemma StartSendingKept(n: Node, env: Env, index: nat, fraction: real)
    requires index < |n.desktop.edges|
    ensures StartSending(n, env, index, fraction).n.recv == n.recv
  {
    hide BeginSending, StopCapture, Keyboard.AbsorbAll, Keyboard.Emergency, Keyboard.Held;
    var sampled := Sample(n, env);
    if sampled.More? {
      StopCaptureKept(Drained(sampled.n));
      BeginSendingKept(Drained(sampled.n), index, fraction, Keyboard.Held(sampled.n.keys.devices));
    }
  }

  lemma BeginSendingKept(n: Node, index: nat, fraction: real, held: set<int>)
    requires index < |n.desktop.edges|
    ensures BeginSending(n, index, fraction, held).n.recv == n.recv
  {
    hide PressAll, Send, Codes, Presses;
    var m := Begin(n.nextSession, Position(n.desktop.edges[index].id, fraction));
    SendKept(n.(nextSession := n.nextSession + 1), m);
    var begun := Send(n.(nextSession := n.nextSession + 1), m);
    PressAllKept(begun.n.(role := Sending(n.nextSession, 0, index, fraction), sourceKeys := {}), Presses(Codes(held)));
  }

  lemma ReturnKept(n: Node, env: Env, index: nat, fraction: real)
    requires index < |n.desktop.edges|
    ensures Kept(n, Return(n, env, index, fraction))
  {
    hide EndSession, Place;
    var exit := Some(Position(n.desktop.edges[index].id, fraction));
    EndSessionKept(n, exit);
    PlaceKept(StopCapture(GoLocal(EndSession(n, exit).n)).n, env, index, fraction);
  }

  lemma PeerLockKept(n: Node, env: Env, locked: bool)
    ensures Kept(n, OnPeerLock(n, env, locked))
  {
    hide Injection.PeerLock, PlaceBack, SayEnd, StopCapture;
    LocksRecede(n.recv, locked);
    var noted := Receive(n.(peerReady := !locked), Injection.PeerLock(n.recv, locked));
    SayEndKept(Suspended(noted.n), None);
    var told := SayEnd(Suspended(noted.n), None);
    StopCaptureKept(told.n);
    var stopped := if n.role.Sending? then StopCapture(told.n) else More(told.n);
    PlaceBackKept(stopped.n, env, n.role, n.localReady);
    StopCaptureKept(GoLocal(PlaceBack(stopped.n, env, n.role, n.localReady).n));
  }

  lemma ComeBackKept(n: Node, env: Env, before: Role, exit: Option<Position>)
    ensures Kept(n, ComeBack(n, env, before, exit))
  {
    hide Place, EdgeNamed, ActiveEdges;
    if before.Sending? {
      PlaceKept(n, env, before.edge, before.fraction);
      if exit.Some? {
        var all := Indices(|n.desktop.edges|);
        var named := EdgeNamed(n, exit.value.edge, all, 0);
        if named.Some? {
          PlaceKept(n, env, named.value, exit.value.fraction);
        }
      }
    }
  }

  lemma EndKept(n: Node, env: Env, session: nat, exit: Option<Position>)
    ensures Kept(n, OnEnd(n, env, session, exit))
  {
    hide Injection.End, Receive, ComeBack, StopCapture;
    EndRecedes(n.recv, session);
    ReceiveKept(n, Injection.End(n.recv, session));
    var ended := Receive(n, Injection.End(n.recv, session));
    StopCaptureKept(ended.n);
    ComeBackKept(StopCapture(ended.n).n, env, n.role, exit);
  }

  lemma EndRecedes(r: Receiver, session: nat)
    ensures Receded(r, Injection.End(r, session).r)
  {
    StopRecedes(r);
  }

  lemma PrepareKept(n: Node, env: Env, id: nat, edges: seq<EdgeConfig>, revision: Document)
    ensures Kept(n, OnPrepare(n, env, id, edges, revision))
  {
    hide EndSession, CanPrepare, Send, StopCapture;
    EndSessionKept(n, None);
    StopCaptureKept(EndSession(n, None).n);
    SendKept(n, Layout(Prepared(id, false)));
    SendKept(WithPrepared(GoLocal(StopCapture(EndSession(n, None).n).n), id, edges, false, []),
             Layout(Prepared(id, true)));
  }

  lemma PreparedKept(n: Node, env: Env, p: PendingLayout, ok: bool)
    ensures OnPrepared(n, env, p, ok).n.recv == n.recv
  {
    hide Abandon, Send;
    var (tried, written) := if ok then Committed(n, env, p) else (n, false);
    AbandonKept(tried, p);
    SendKept(tried, Layout(Commit(p.id)));
  }

  lemma CommitKept(n: Node, env: Env, p: PendingLayout)
    ensures OnCommit(n, env, p).n.recv == n.recv
  {
    hide Dropped, Send;
    var tried := Committed(n, env, p).0;
    DroppedKept(tried);
    SendKept(Finish(tried, p.(committed := true)), Layout(Result(p.id, true, Some(p.next))));
    SendKept(Dropped(tried), Layout(Result(p.id, false, None)));
  }

  lemma LayoutKept(n: Node, env: Env, m: LayoutMessage)
    ensures Kept(n, OnLayout(n, env, m))
  {
    hide OnPrepare, OnPrepared, OnCommit, Dropped;
    DroppedKept(n);
    match m
    case Prepare(id, edges, revision) => PrepareKept(n, env, id, edges, revision);
    case Prepared(id, ok) =>
      if Concerns(n, id) {
        PreparedKept(n, env, n.paper.layout.value, ok);
      }
    case Commit(id) =>
      if Concerns(n, id) {
        CommitKept(n, env, n.paper.layout.value);
      }
    case Result(_, _, _) =>
    case Abort(_) =>
  }

  // ---- Following what the other side says ----

  /** Everything injected for a session is the beginning of what was said in it. */
  ghost predicate HasPrefixes(r: Receiver, h: Heard) {
    forall s :: s in r.injected ==> s <= h.last && s in h.inputs && r.injected[s] <= h.inputs[s]
  }

  /** And the running session is the last one begun, with everything said in it injected. */
  ghost predicate Following(r: Receiver, h: Heard) {
    && HasPrefixes(r, h)
    && (r.session.Some? ==>
          var s := r.session.value;
          s == h.last && s in r.injected && s in h.inputs && r.injected[s] == h.inputs[s])
  }

  /** A reason that a healthy peer never causes; sequence numbers can only be used up. */
  predicate PeerFault(why: Reason, said: nat) {
    why == SinkTrouble(SequenceMismatch) || (why == SinkTrouble(Exhausted) && said <= LAST_SEQUENCE)
  }

  /** The flow still follows what was heard. */
  ghost predicate Follows(f: Flow, h: Heard, said: nat) {
    if f.More? then Following(f.n.recv, h) else HasPrefixes(f.n.recv, h) && !PeerFault(f.why, said)
  }

  /** How many events were said in the running session. */
  function SaidIn(h: Heard): nat {
    if h.last in h.inputs then |h.inputs[h.last]| else 0
  }

  lemma InputFollows(r: Receiver, h: Heard, physical: bool, session: nat, sequence: nat, e: InputEvent)
    requires Following(r, h) && Injection.Inv(r) && r.session == Some(session)
    requires var m := Message.Input(session, sequence, e); Hear(physical, h, m).ok
    ensures var after := Hear(physical, h, Message.Input(session, sequence, e));
            var a := Injection.Input(r, session, sequence, e);
            && (if a.Fine? then Following(a.r, after) else HasPrefixes(a.r, after))
            && (a.Error? ==> !PeerFault(SinkTrouble(a.why), SaidIn(after)))
  {
    hide Stop, InputEvent.Valid, Effect, Chord, Controls;
    StopRecedes(r);
    var pressed := Pressing(r, e);
    var out := Emit(pressed.sink, e);
    var sent := pressed.(sink := out.sink, injected := if out.reached then Injected(r, session, e) else r.injected);
    StopRecedes(sent);
  }

  lemma BeginFollows(r: Receiver, h: Heard, physical: bool, session: nat, entry: Position, after: Receiver)
    requires Following(r, h) && Hear(physical, h, Message.Begin(session, entry)).ok
    requires (after.injected == r.injected && after.session.None?)
             || (after.injected == r.injected[session := []] && after.session == Some(session))
    ensures Following(after, Hear(physical, h, Message.Begin(session, entry)))
  {
  }

  /** What has been heard after this event. */
  function HeardWith(physical: bool, h: Heard, ev: Event): Heard {
    if ev.Received? then Hear(physical, h, ev.message) else h
  }

  lemma OnInputFollows(n: Node, env: Env, h: Heard, physical: bool, session: nat, sequence: nat, e: InputEvent)
    requires Core(n) && Following(n.recv, h) && Hear(physical, h, Message.Input(session, sequence, e)).ok
    ensures var after := Hear(physical, h, Message.Input(session, sequence, e));
            Follows(OnInput(n, env, session, sequence, e), after, SaidIn(after))
  {
    hide Injection.Inv, Injection.Input, Sample, TakeOver, InputEvent.Valid, Chord;
    var after := Hear(physical, h, Message.Input(session, sequence, e));
    SampleKeeps(n, env);
    if n.role == Receiving(session) {
      var sampled := Sample(n, env);
      if sampled.More? {
        InputFollows(sampled.n.recv, h, physical, session, sequence, e);
        AsideKeeps(n, sampled.n);
        TakeOverKeeps(sampled.n);
        TakeOverKept(sampled.n);
        TakeOverEnds(sampled.n);
      }
    }
  }

  lemma TakeOverEnds(n: Node)
    requires Core(n)
    ensures TakeOver(n).More? ==> TakeOver(n).n.recv.session.None?
    ensures TakeOver(n).Halt? ==> !PeerFault(TakeOver(n).why, 0)
  {
    hide Injection.Inv, PhysicalActivity, SayEnd, StopCapture;
    TakeOverKeeps(n);
    ActivityCalm(n.recv);
    var freed := Receive(n, PhysicalActivity(n.recv));
    if freed.More? {
      SayEndKept(freed.n, None);
      StopCaptureKept(GoLocal(SayEnd(freed.n, None).n));
    }
  }

  lemma OnBeginFollows(n: Node, env: Env, h: Heard, physical: bool, session: nat, entry: Position)
    requires Core(n) && session != 0 && Following(n.recv, h) && Hear(physical, h, Message.Begin(session, entry)).ok
    ensures var after := Hear(physical, h, Message.Begin(session, entry));
            Follows(OnBegin(n, env, session, entry), after, SaidIn(after))
  {
    hide Injection.Inv, Place, Injection.Begin, Sample, EdgeNamed, ActiveEdges, Following, HasPrefixes, Hear, Send;
    BeginKeeps(n, env, session, entry);
    var f := OnBegin(n, env, session, entry);
    OnBeginEffect(n, env, session, entry);
    if f.More? {
      BeginFollows(n.recv, h, physical, session, entry, f.n.recv);
    } else {
      BegunPrefixes(n.recv, h, physical, session, entry, f.n.recv);
    }
  }

  lemma BegunPrefixes(r: Receiver, h: Heard, physical: bool, session: nat, entry: Position, after: Receiver)
    requires Following(r, h) && Hear(physical, h, Message.Begin(session, entry)).ok
    requires after.injected == r.injected || after.injected == r.injected[session := []]
    ensures HasPrefixes(after, Hear(physical, h, Message.Begin(session, entry)))
  {
  }

  /** A request to begin either opens exactly that session, or leaves the receiver without one. */
  lemma OnBeginEffect(n: Node, env: Env, session: nat, entry: Position)
    requires Core(n) && session != 0
    ensures var f := OnBegin(n, env, session, entry);
            && (f.n.recv.injected == n.recv.injected || f.n.recv.injected == n.recv.injected[session := []])
            && (f.More? ==>
                  || (f.n.recv.injected == n.recv.injected && f.n.recv.session.None?)
                  || (f.n.recv.injected == n.recv.injected[session := []] && f.n.recv.session == Some(session)))
  {
    hide Injection.Inv, Place, Injection.Begin, Sample, EdgeNamed, ActiveEdges, Send;
    SampleKeeps(n, env);
    SendKept(n, End(session, None));
    var sampled := Sample(n, env);
    SendKept(sampled.n, End(session, None));
    var edge := EdgeNamed(n, entry.edge, Available(n), 0);
    if edge.Some? && n.role.Local? && n.BothReady() && n.paper.layout.None? && sampled.More? {
      BeginCalm(n.recv, session);
      PlaceKept(sampled.n.(recv := Injection.Begin(n.recv, session).r), env, edge.value, entry.fraction);
    }
  }

  lemma KeptFollows(n: Node, f: Flow, h: Heard)
    requires Following(n.recv, h) && Kept(n, f) && Good(f)
    ensures Follows(f, h, SaidIn(h))
  {
    hide Core, Injection.Inv;
  }

  lemma MessageKept(n: Node, env: Env, m: Message)
    requires !m.Begin? && !m.Input?
    ensures Kept(n, OnMessage(n, env, m))
  {
    hide OnLayout, OnEnd, OnPeerLock, Send;
    match m
    case Layout(letter) => LayoutKept(n, env, letter);
    case End(session, exit) => EndKept(n, env, session, exit);
    case LockState(locked) => PeerLockKept(n, env, locked);
    case Ping(nonce) => SendKept(n, Pong(nonce));
    case _ =>
  }

  lemma BranchKept(n: Node, env: Env, ev: Event)
    requires ev.Received? ==> !ev.message.Begin? && !ev.message.Input?
    ensures Kept(n, Branch(n, env, ev))
  {
    hide OnRelease, OnApply, OnStatus, OnTick, OnCapture, OnMessage, Send;
    match ev
    case OutputsChanged(outputs) =>
      var desktop := n.desktop.(outputs := outputs);
      SendKept(n.(desktopEpoch := Wrapped(n.desktopEpoch), desktop := desktop), DesktopInfo(desktop));
    case ReleaseCommand => ReleaseKept(n, env);
    case ApplyCommand(request) => ApplyKept(n, env, request);
    case StatusChanged(unlocked) => StatusKept(n, unlocked);
    case Tick => TickKept(n, env);
    case CaptureEvent(generation, report) => CaptureKept(n, env, generation, report);
    case Received(message) => MessageKept(n, env, message);
    case _ =>
  }

  lemma BranchFollows(n: Node, env: Env, ev: Event, h: Heard, physical: bool)
    requires Core(n) && Legal(n, env, ev) && Following(n.recv, h) && HeardWith(physical, h, ev).ok
    ensures var after := HeardWith(physical, h, ev); Follows(Branch(n, env, ev), after, SaidIn(after))
  {
    hide Core, Following, HasPrefixes, OnInput, OnBegin, Follows, TouchFrames, Chord, InputEvent.Valid;
    if ev.Received? && ev.message.Input? {
      OnInputFollows(n, env, h, physical, ev.message.session, ev.message.sequence, ev.message.event);
    } else if ev.Received? && ev.message.Begin? {
      OnBeginFollows(n, env, h, physical, ev.message.session, ev.message.entry);
    } else {
      QuietBranchFollows(n, env, ev, h);
    }
  }

  lemma QuietBranchFollows(n: Node, env: Env, ev: Event, h: Heard)
    requires Core(n) && Legal(n, env, ev) && Following(n.recv, h)
    requires ev.Received? ==> !ev.message.Begin? && !ev.message.Input?
    ensures Follows(Branch(n, env, ev), h, SaidIn(h))
  {
    hide Core, Following, HasPrefixes, Branch, Legal;
    BranchKept(n, env, ev);
    BranchKeeps(n, env, ev);
    KeptFollows(n, Branch(n, env, ev), h);
  }

  /** Every iteration, whatever it does, keeps up with what the peer said. */
  lemma StepFollows(n: Node, env: Env, ev: Event, h: Heard, physical: bool)
    requires Core(n) && LegalStep(n, env, ev) && Following(n.recv, h) && h.ok && HeardWith(physical, h, ev).ok
    ensures var after := HeardWith(physical, h, ev);
            var f := Step(n, env, ev);
            if Preamble(n, env).More? then Follows(f, after, SaidIn(after)) else Follows(f, h, SaidIn(h))
  {
    hide Core, Following, HasPrefixes, Preamble, Branch, Legal, HeardWith, Follows, TouchFrames;
    PreambleKeeps(n, env);
    PreambleKept(n, env);
    KeptFollows(n, Preamble(n, env), h);
    var ready := Preamble(n, env);
    if ready.More? {
      FollowsMore(ready, h);
      BranchFollows(ready.n, env, ev, h, physical);
    }
  }

  lemma FollowsMore(f: Flow, h: Heard)
    requires f.More? && Follows(f, h, SaidIn(h))
    ensures Following(f.n.recv, h)
  {
  }

  // ---- Two computers ----

  /** Two connected computers, each running or ended, and how many of the other's messages each has taken. */
  datatype World = World(a: Flow, b: Flow, takenByA: nat, takenByB: nat)

  /** One iteration of one of them. */
  datatype Move = Move(byA: bool, env: Env, ev: Event)

  /** Messages arrive in order; everything else may happen at any time. */
  ghost predicate Allowed(me: Flow, peer: Flow, taken: nat, env: Env, ev: Event) {
    && me.More? && LegalStep(me.n, env, ev)
    && (ev.Received? ==> taken < |peer.n.sent| && ev.message == peer.n.sent[taken])
  }

  function Taken(me: Flow, taken: nat, env: Env, ev: Event): nat {
    if ev.Received? && Preamble(me.n, env).More? then taken + 1 else taken
  }

  ghost function Moved(w: World, m: Move): World {
    if m.byA then
      if Allowed(w.a, w.b, w.takenByA, m.env, m.ev)
      then w.(a := Step(w.a.n, m.env, m.ev), takenByA := Taken(w.a, w.takenByA, m.env, m.ev)) else w
    else
      if Allowed(w.b, w.a, w.takenByB, m.env, m.ev)
      then w.(b := Step(w.b.n, m.env, m.ev), takenByB := Taken(w.b, w.takenByB, m.env, m.ev)) else w
  }

  ghost function Played(w: World, moves: seq<Move>): World {
    if moves == [] then w else Moved(Played(w, moves[..|moves| - 1]), moves[|moves| - 1])
  }

  function Said(f: Flow): Heard {
    HearAll(f.n.physical, f.n.sent)
  }

  function HeardFrom(peer: Flow, taken: nat): Heard
    requires taken <= |peer.n.sent|
  {
    HearAll(peer.n.physical, peer.n.sent[..taken])
  }

  /** One computer's half of the connection. */
  ghost predicate Half(me: Flow, peer: Flow, taken: nat) {
    && taken <= |peer.n.sent|
    && Logged(me.n)
    && (if me.More? then Core(me.n) && Settled(me.n) else Proper(me))
    && (var h := HeardFrom(peer, taken);
        if me.More? then Following(me.n.recv, h) else Follows(me, h, SaidIn(h)))
  }

  ghost predicate Connected(w: World) {
    Half(w.a, w.b, w.takenByA) && Half(w.b, w.a, w.takenByB)
  }

  lemma {:induction false} PrefixOk(physical: bool, sent: seq<Message>, k: nat)
    requires k <= |sent| && HearAll(physical, sent).ok
    ensures HearAll(physical, sent[..k]).ok
    decreases |sent|
  {
    if k == |sent| {
      assert sent[..k] == sent;
    } else {
      assert sent[..|sent| - 1][..k] == sent[..k];
      PrefixOk(physical, sent[..|sent| - 1], k);
    }
  }

  /** A longer log says at least as much in every session. */
  lemma {:induction false} HeardGrows(physical: bool, sent: seq<Message>, k: nat)
    requires k <= |sent| && HearAll(physical, sent).ok
    ensures var h, all := HearAll(physical, sent[..k]), HearAll(physical, sent);
            && h.last <= all.last
            && forall s :: s in h.inputs && s <= h.last ==> s in all.inputs && h.inputs[s] <= all.inputs[s]
    decreases |sent|
  {
    hide InputEvent.Valid, Chord;
    if k == |sent| {
      assert sent[..k] == sent;
    } else {
      assert sent[..|sent| - 1][..k] == sent[..k];
      HeardGrows(physical, sent[..|sent| - 1], k);
    }
  }

  /** The mover's half after its iteration. */
  lemma MoverKeeps(me: Flow, peer: Flow, taken: nat, env: Env, ev: Event)
    requires Half(me, peer, taken) && Logged(peer.n) && Allowed(me, peer, taken, env, ev)
    ensures Half(Step(me.n, env, ev), peer, Taken(me, taken, env, ev))
  {
    hide Core, Settled, Logged, Following, Follows, Step, LegalStep, Preamble, HearAll, Hear;
    var h := HeardFrom(peer, taken);
    LoggedOk(peer.n);
    PrefixOk(peer.n.physical, peer.n.sent, taken);
    if ev.Received? {
      HeardOneMore(peer, taken);
      PrefixOk(peer.n.physical, peer.n.sent, taken + 1);
    }
    StepKeeps(me.n, env, ev);
    StepFaithful(me.n, env, ev);
    StepFollows(me.n, env, ev, h, peer.n.physical);
    var f := Step(me.n, env, ev);
    if f.More? {
      MoreNeedsPreamble(me.n, env, ev);
      ProperIsCore(f);
      FollowsMore(f, HeardWith(peer.n.physical, h, ev));
    }
  }

  lemma LoggedOk(n: Node)
    requires Logged(n)
    ensures HearAll(n.physical, n.sent).ok
  {
  }

  lemma ProperIsCore(f: Flow)
    requires Proper(f) && f.More?
    ensures Core(f.n)
  {
  }

  lemma MoreNeedsPreamble(n: Node, env: Env, ev: Event)
    requires Step(n, env, ev).More?
    ensures Preamble(n, env).More?
  {
    hide Preamble, Branch;
  }

  lemma HeardOneMore(peer: Flow, taken: nat)
    requires taken < |peer.n.sent|
    ensures HeardFrom(peer, taken + 1) == Hear(peer.n.physical, HeardFrom(peer, taken), peer.n.sent[taken])
  {
    assert peer.n.sent[..taken + 1] == peer.n.sent[..taken] + [peer.n.sent[taken]];
    HearNext(peer.n.physical, peer.n.sent[..taken], peer.n.sent[taken]);
  }

  /** The other half does not notice: what it has taken is still what was said. */
  lemma OtherKeeps(me: Flow, peer: Flow, after: Flow, taken: nat)
    requires Half(me, peer, taken)
    requires peer.n.sent <= after.n.sent && after.n.physical == peer.n.physical
    ensures Half(me, after, taken)
  {
    assert after.n.sent[..taken] == peer.n.sent[..taken];
  }

  lemma HalfIsLogged(me: Flow, peer: Flow, taken: nat)
    requires Half(me, peer, taken)
    ensures Logged(me.n)
  {
  }

  lemma MoveKeeps(w: World, m: Move)
    requires Connected(w)
    ensures Connected(Moved(w, m))
  {
    hide Half, Step, Allowed, Taken;
    HalfIsLogged(w.a, w.b, w.takenByA);
    HalfIsLogged(w.b, w.a, w.takenByB);
    if m.byA {
      if Allowed(w.a, w.b, w.takenByA, m.env, m.ev) {
        MoverKeeps(w.a, w.b, w.takenByA, m.env, m.ev);
        OtherKeeps(w.b, w.a, Step(w.a.n, m.env, m.ev), w.takenByB);
      }
    } else if Allowed(w.b, w.a, w.takenByB, m.env, m.ev) {
      MoverKeeps(w.b, w.a, w.takenByB, m.env, m.ev);
      OtherKeeps(w.a, w.b, Step(w.b.n, m.env, m.ev), w.takenByA);
    }
  }

  /** How one computer enters a connection. */
  datatype Entry = Entry(desktop: Desktop, physical: bool, unlocked: bool, pads: nat, luck: seq<Luck>, fate: seq<Luck>)

  function Entered(e: Entry): Flow {
    Open(e.desktop, e.physical, e.unlocked, e.pads, e.luck, e.fate)
  }

  /** Both have just entered. */
  function Together(a: Entry, b: Entry): World {
    World(Entered(a), Entered(b), 0, 0)
  }

  lemma EnteredHalf(e: Entry, peer: Flow)
    ensures Half(Entered(e), peer, 0)
  {
    hide Core, Settled, Logged, Open, HearAll;
    OpenIsCore(e.desktop, e.physical, e.unlocked, e.pads, e.luck, e.fate);
    OpenFaithful(e.desktop, e.physical, e.unlocked, e.pads, e.luck, e.fate);
    OpenHasNothing(e);
  }

  lemma OpenHasNothing(e: Entry)
    ensures var f := Entered(e);
            f.n.recv.injected == map[] && (f.More? ==> f.n.recv.session.None?) && (f.Halt? ==> !Misheard(f.why))
  {
    hide Injection.LocalLock, Send, Core, Injection.Inv;
    LocksRecede(NewReceiver(e.fate), !e.unlocked);
    OpenIsCore(e.desktop, e.physical, e.unlocked, e.pads, e.luck, e.fate);
    OpenReceiver(e);
  }

  lemma OpenReceiver(e: Entry)
    ensures Entered(e).n.recv == Injection.LocalLock(NewReceiver(e.fate), !e.unlocked).r
  {
    hide Injection.LocalLock, LeavesPaper, Letters;
  }

  /** Whatever the two computers do and in whatever order, and however long messages are on their way, both halves of
      the connection stay sound. */
  lemma {:induction false} AlwaysConnected(a: Entry, b: Entry, moves: seq<Move>)
    ensures Connected(Played(Together(a, b), moves))
    decreases |moves|
  {
    hide Half, Open, Moved;
    if moves == [] {
      EnteredHalf(a, Entered(b));
      EnteredHalf(b, Entered(a));
    } else {
      AlwaysConnected(a, b, moves[..|moves| - 1]);
      MoveKeeps(Played(Together(a, b), moves[..|moves| - 1]), moves[|moves| - 1]);
    }
  }

  // ---- The main results ----

  lemma HeardInOrder(r: Receiver, h: Heard, physical: bool, session: nat, sequence: nat, e: InputEvent)
    requires Following(r, h) && Injection.Inv(r) && r.session == Some(session)
    requires Hear(physical, h, Message.Input(session, sequence, e)).ok
    ensures sequence == r.expected && e.Valid()
  {
    hide InputEvent.Valid, Chord, Down, Controls;
  }

  /** An input message that is taken for the running session always carries the number that the receiver expects and a
      valid event, whatever happened before: neither a mismatch nor an invalid event ever stops a session. */
  lemma InputsArriveInOrder(a: Entry, b: Entry, moves: seq<Move>, env: Env, ev: Event)
    requires var w := Played(Together(a, b), moves);
             && Allowed(w.a, w.b, w.takenByA, env, ev) && ev.Received? && ev.message.Input?
             && Preamble(w.a.n, env).More?
    ensures var ready := Preamble(Played(Together(a, b), moves).a.n, env).n;
            ready.recv.session == Some(ev.message.session) ==>
              ev.message.sequence == ready.recv.expected && ev.message.event.Valid()
  {
    hide HearAll, Hear, Entered, Played, Preamble, Core, Following, Follows, LegalStep, InputEvent.Valid;
    AlwaysConnected(a, b, moves);
    var w := Played(Together(a, b), moves);
    var h, ready := HeardFrom(w.b, w.takenByA), Preamble(w.a.n, env);
    PreambleKeeps(w.a.n, env);
    PreambleKept(w.a.n, env);
    KeptFollows(w.a.n, ready, h);
    FollowsMore(ready, h);
    CoreRemembers(ready.n);
    LoggedOk(w.b.n);
    HeardOneMore(w.b, w.takenByA);
    PrefixOk(w.b.n.physical, w.b.n.sent, w.takenByA + 1);
    if ready.n.recv.session == Some(ev.message.session) {
      HeardInOrder(ready.n.recv, h, w.b.n.physical, ev.message.session, ev.message.sequence, ev.message.event);
    }
  }

  /** What the receiver's backend has carried out since the running session began is, but for placements of the pointer
      before its first event, exactly the first events of those that the other side sent in it. */
  ghost predicate BackendFollows(r: Receiver, all: seq<InputEvent>) {
    r.expected <= |all| && CarriedOut(r.sink.log, r.since, all[..r.expected])
  }

  lemma BackendIsInjected(n: Node, all: seq<InputEvent>)
    requires Core(n) && n.role.Receiving? && n.role.session in n.recv.injected && n.recv.injected[n.role.session] <= all
    ensures BackendFollows(n.recv, all) && n.recv.injected[n.role.session] == all[..n.recv.expected]
    ensures n.recv.sink.down == Down(all[..n.recv.expected])
  {
    hide CarriedOut, Down;
    assert all[..|n.recv.injected[n.role.session]|] == n.recv.injected[n.role.session];
  }

  /** What one side injects for a session is always the beginning of what the other side sent in it: so says the log of
      its backend for the running session. And a running connection never ends because an input message was out of
      sequence. */
  lemma InjectsWhatWasSent(a: Entry, b: Entry, moves: seq<Move>, session: nat)
    ensures var w := Played(Together(a, b), moves);
            && (w.a.More? && w.a.n.role == Receiving(session) ==>
                  session in Said(w.b).inputs && BackendFollows(w.a.n.recv, Said(w.b).inputs[session])
                  && session in w.a.n.recv.injected)
            && (session in w.a.n.recv.injected ==>
                  session in Said(w.b).inputs && w.a.n.recv.injected[session] <= Said(w.b).inputs[session])
            && (w.a.Halt? ==> w.a.why != SinkTrouble(SequenceMismatch))
  {
    hide HearAll, Entered, Played, BackendFollows, Core;
    AlwaysConnected(a, b, moves);
    var w := Played(Together(a, b), moves);
    LoggedOk(w.b.n);
    HeardGrows(w.b.n.physical, w.b.n.sent, w.takenByA);
    if w.a.More? && w.a.n.role == Receiving(session) {
      CoreReceives(w.a.n);
      BackendIsInjected(w.a.n, Said(w.b).inputs[session]);
    }
  }

  lemma CoreReceives(n: Node)
    requires Core(n) && n.role.Receiving?
    ensures n.role.session in n.recv.injected
  {
    hide CarriedOut, Down;
  }

  /** While a session is received, what is down here is exactly what the part of the session carried out here presses;
      and when every message has been taken, that is all of it, and while the other side is still sending from keyboards
      read directly, the keys down here are the keys physically held there. */
  lemma RemoteKeyboardFollows(a: Entry, b: Entry, moves: seq<Move>, code: int)
    ensures var w := Played(Together(a, b), moves);
            w.a.More? && w.a.n.role.Receiving? ==>
              var r, session := w.a.n.recv, w.a.n.role.session;
              && session in Said(w.b).inputs && BackendFollows(r, Said(w.b).inputs[session])
              && r.sink.down == Down(Said(w.b).inputs[session][..r.expected])
              && (w.takenByA == |w.b.n.sent| && w.b.More? && w.b.n.role.Sending? ==>
                    && r.expected == |Said(w.b).inputs[session]|
                    && (w.b.n.physical ==>
                          (KeyControl(code) in r.sink.down <==> code in Keyboard.PhysicallyHeld(w.b.n.keys.seen))))
  {
    hide HearAll, Entered, Played, Down, Pressed, BackendFollows, Core;
    AlwaysConnected(a, b, moves);
    var w := Played(Together(a, b), moves);
    if w.a.More? && w.a.n.role.Receiving? {
      var session := w.a.n.role.session;
      InjectsWhatWasSent(a, b, moves, session);
      var events, all := w.a.n.recv.injected[session], Said(w.b).inputs[session];
      BackendIsInjected(w.a.n, all);
      if w.takenByA == |w.b.n.sent| && w.b.More? && w.b.n.role.Sending? {
        assert w.b.n.sent[..w.takenByA] == w.b.n.sent;
        AllTaken(w);
        if w.b.n.physical {
          SendsWhatIsHeld(w.b.n);
          PressedAreControls(events);
        }
      }
    }
  }

  lemma AllTaken(w: World)
    requires Connected(w) && w.a.More? && w.a.n.role.Receiving? && w.takenByA == |w.b.n.sent|
    ensures var s := w.a.n.role.session;
            && s == Said(w.b).last && s in w.a.n.recv.injected && s in Said(w.b).inputs
            && w.a.n.recv.injected[s] == Said(w.b).inputs[s] && w.a.n.recv.expected == |Said(w.b).inputs[s]|
  {
    hide HearAll, CarriedOut, Down;
    assert w.b.n.sent[..w.takenByA] == w.b.n.sent;
  }
}
