// What every step of the coordinator keeps: who is in control, and what that implies for capture, locks, the
// receiver and a pending layout change (src/bridge.rs).
module ControlSafety {
  import opened Coordination
  import opened Geometry
  import opened Injection
  import opened Ordered
  import opened Protocol
  import Keyboard
  import Modes

  // ---- The receiver between steps ----

  /** A receiver operation that leaves no session behind. */
  ghost predicate Freed(r: Receiver, a: Answer) {
    && a.r.injected == r.injected && Injection.Inv(a.r) && a.r.session.None?
    && if a.Fine? then Calm(a.r) else a.why == SinkFailed
  }

  lemma EndCalm(r: Receiver, session: nat)
    requires Calm(r) && (r.session.None? || r.session == Some(session))
    ensures Freed(r, Injection.End(r, session)) && SameLocks(r, Injection.End(r, session).r)
  {
    StopInv(r);
  }

  lemma ActivityCalm(r: Receiver)
    requires Calm(r)
    ensures Freed(r, PhysicalActivity(r)) && SameLocks(r, PhysicalActivity(r).r)
  {
    StopInv(r);
  }

  /** What a lock notification does: an unchanged lock keeps a session, a changed one ends it. */
  ghost predicate Noted(r: Receiver, state: Modes.ControlState, a: Answer) {
    && a.r.injected == r.injected && Injection.Inv(a.r) && a.r.state == state
    && (if a.Fine? then Calm(a.r) else a.why == SinkFailed)
    && a.r.session == if state == r.state then r.session else None
  }

  lemma LockCalm(r: Receiver, locked: bool)
    requires Calm(r)
    ensures Noted(r, r.state.LocalLock(locked), LocalLock(r, locked))
    ensures Noted(r, r.state.PeerLock(locked), PeerLock(r, locked))
  {
    NotedBy(r, r.state.LocalLock(locked));
    NotedBy(r, r.state.PeerLock(locked));
  }

  lemma NotedBy(r: Receiver, state: Modes.ControlState)
    requires Calm(r)
    requires state == r.state
             || (state.held == {} && state.mode == if state.AnyLock() then Modes.Paused else Modes.Local)
    ensures Noted(r, state, AfterLock(r, state))
  {
    hide AfterLock;
    LockInv(r, state);
    if state != r.state || r.session.None? {
      CalmAfterLock(r, state);
    }
  }

  lemma CalmAfterLock(r: Receiver, state: Modes.ControlState)
    requires Calm(r) && (state != r.state || r.session.None?)
    requires state == r.state
             || (state.held == {} && state.mode == if state.AnyLock() then Modes.Paused else Modes.Local)
    ensures var a := AfterLock(r, state); (a.Fine? ==> a.r.pending == {}) && (a.Error? ==> a.why == SinkFailed)
  {
    hide ReleaseEach, Codes;
    var codes := if state == r.state then {} else r.state.held;
    assert r.pending + r.state.held == r.state.held + r.pending && r.pending + {} == {};
    ReleaseWithPadsInv(r.(state := state, session := None), codes);
  }

  /** Beginning is refused neither for owed releases nor as busy when this side is free and both are unlocked. */
  lemma BeginCalm(r: Receiver, session: nat)
    requires Calm(r) && r.session.None? && !r.state.AnyLock() && session != 0
    ensures var a := Injection.Begin(r, session);
            && a.Fine? && a.accepted && Calm(a.r) && a.r.session == Some(session) && SameLocks(r, a.r)
            && a.r.injected == r.injected[session := []] && a.r.expected == 0
  {
    BeginInv(r, session);
  }

  lemma InputCalm(r: Receiver, session: nat, sequence: nat, e: InputEvent)
    requires Calm(r) && r.session == Some(session) && e.Valid()
    ensures var a := Injection.Input(r, session, sequence, e);
            && Injection.Inv(a.r) && SameLocks(r, a.r) && (a.Fine? ==> Calm(a.r) && a.r.session == r.session)
            && (a.Error? ==> a.why in {SinkFailed, SequenceMismatch, Exhausted})
  {
    hide Codes, ReleaseEach, InputEvent.Valid, Effect;
    InputInv(r, session, sequence, e);
  }

  /** Placing the pointer is never refused for active input. */
  lemma PlaceCalm(r: Receiver, output: string, e: InputEvent)
    requires Calm(r) && (r.session.None? || r.expected == 0) && e.AbsoluteInput? && e.Valid()
    ensures var a := PositionOn(r, output, e);
            && a.r == r.(sink := a.r.sink) && Calm(a.r) && (a.Error? ==> a.why == SinkFailed)
  {
  }

  // ---- The invariant ----

  /** The coordinator's view of the locks is the receiver's. */
  predicate Locks(n: Node) {
    n.localReady == !n.recv.state.localLocked && (n.peerReady ==> !n.recv.state.peerLocked)
  }

  /** The role says exactly which session the receiver has. */
  ghost predicate Linked(n: Node) {
    && Calm(n.recv) && Locks(n)
    && n.recv.session == (if n.role.Receiving? then Some(n.role.session) else None)
    && (n.role.Sending? ==> n.role.edge < |n.desktop.edges|)
  }

  /** Sharing and a live capture need both sides unlocked and no pending layout change; this side is sending exactly
      while the live capture worker has announced a crossing, so leaving `Sending` stops that worker. */
  ghost predicate Core(n: Node) {
    && Linked(n)
    && (!n.role.Local? || n.capture.live ==> n.BothReady() && n.paper.layout.None?)
    && (n.role.Sending? <==> n.capture.live && n.capture.started)
  }

  /** No session at the receiver: the state in which the pointer is placed and control is given back. */
  ghost predicate Quiet(n: Node) {
    Calm(n.recv) && Locks(n) && n.recv.session.None?
  }

  /** Reasons for which a connection between decoded messages can never end. */
  predicate Excluded(why: Reason) {
    why in {Busy, Panic} || (why.SinkTrouble? && why.why != SinkFailed)
  }

  /** Only an input message can be out of sequence. */
  predicate Misheard(why: Reason) {
    why in {SinkTrouble(SequenceMismatch), SinkTrouble(Exhausted)}
  }

  /** A connection that ends still remembers everything that may be down at the receiver. */
  ghost predicate Ended(f: Flow) {
    f.Halt? && !Excluded(f.why) && Injection.Inv(f.n.recv)
  }

  ghost predicate Good(f: Flow) {
    if f.More? then Core(f.n) else Ended(f)
  }

  ghost predicate Proper(f: Flow) {
    Good(f) || (f.Halt? && Misheard(f.why) && Injection.Inv(f.n.recv))
  }

  // ---- Helpers ----

  /** Only the log, the luck and the receiver may differ. */
  predicate Aside(n: Node, after: Node) {
    after == n.(sent := after.sent, luck := after.luck, recv := after.recv)
  }

  lemma SendKeeps(n: Node, m: Message)
    ensures var f := Send(n, m);
            f.n == n.(sent := f.n.sent, luck := f.n.luck) && (f.Halt? ==> !Excluded(f.why))
  {
  }

  lemma EndSessionQuiet(n: Node, exit: Option<Position>)
    requires Linked(n)
    ensures var f := EndSession(n, exit);
            Aside(n, f.n) && if f.More? then Quiet(f.n) else Ended(f)
  {
    hide Injection.End, Injection.Inv, Send, LeavesPaper, Letters;
    if n.role.Session().Some? {
      var session := n.role.Session().value;
      EndCalm(n.recv, session);
      assert n.role.Receiving? || n.recv.session.None?;
      var after := Receive(n, Injection.End(n.recv, session));
      if after.More? {
        SendKeeps(after.n, End(session, exit));
      }
    }
  }

  lemma PlaceQuiet(n: Node, env: Env, index: nat, fraction: real)
    requires Calm(n.recv) && (n.recv.session.None? || n.recv.expected == 0) && index < |n.desktop.edges|
    ensures var f := Place(n, env, index, fraction);
            && f.n == n.(recv := f.n.recv) && f.n.recv == n.recv.(sink := f.n.recv.sink)
            && (if f.More? then Calm(f.n.recv) else Ended(f))
  {
    hide PositionOn, Injection.Inv, Placement, InputEvent.Valid;
    var e := Placement(env.outputs, n.desktop.edges[index], fraction);
    if e.Ok? {
      PlacementIsValid(env.outputs, n.desktop.edges[index], fraction);
      PlaceCalm(n.recv, n.desktop.edges[index].output, e.value);
    }
  }

  lemma PlaceBackQuiet(n: Node, env: Env, role: Role, allowed: bool)
    requires Quiet(n) && (role.Sending? ==> role.edge < |n.desktop.edges|)
    ensures var f := PlaceBack(n, env, role, allowed);
            && f.n == n.(recv := f.n.recv)
            && (if f.More? then Quiet(f.n) else Ended(f))
  {
    hide Place, Injection.Inv;
    if role.Sending? && allowed {
      PlaceQuiet(n, env, role.edge, role.fraction);
    }
  }

  /** Only the log, the luck and the count of a sending role may differ. */
  predicate Sent(n: Node, after: Node, count: nat) {
    && after == n.(sent := after.sent, luck := after.luck, role := after.role)
    && after.role == if n.role.Sending? then n.role.(sequence := n.role.sequence + count) else n.role
  }

  lemma SendInputKeeps(n: Node, e: InputEvent)
    ensures var f := SendInput(n, e);
            if f.More? then Sent(n, f.n, 1) else !Excluded(f.why) && Sent(n, f.n, 0)
  {
  }

  lemma {:induction false} SendInputsKeeps(n: Node, events: seq<InputEvent>)
    ensures var f := SendInputs(n, events);
            if f.More? then Sent(n, f.n, |events|) else !Excluded(f.why) && f.n.recv == n.recv
    decreases |events|
  {
    hide SendInput;
    if events != [] {
      SendInputsKeeps(n, events[..|events| - 1]);
      var before := SendInputs(n, events[..|events| - 1]);
      if before.More? {
        SendInputKeeps(before.n, events[|events| - 1]);
      }
    }
  }

  lemma SentIsCore(n: Node, after: Node, count: nat)
    requires Core(n) && Sent(n, after, count)
    ensures Core(after)
  {
    hide Injection.Inv;
  }

  lemma StopCaptureKeeps(n: Node)
    ensures var f := StopCapture(n);
            && f.n == n.(capture := n.capture.(live := false), luck := f.n.luck)
            && (f.Halt? ==> !Excluded(f.why))
  {
  }

  lemma SayEndKeeps(n: Node, exit: Option<Position>)
    ensures var f := SayEnd(n, exit);
            && f.n == n.(sent := f.n.sent, luck := f.n.luck)
            && (f.Halt? ==> !Excluded(f.why))
  {
  }

  lemma SampleKeeps(n: Node, env: Env)
    ensures var f := Sample(n, env);
            && f.n == n.(keys := f.n.keys, luck := f.n.luck)
            && (f.Halt? ==> !Excluded(f.why))
  {
  }

  /** Giving back control: the session, the capture and the pointer are all returned. */
  lemma GiveBack(n: Node, env: Env, exit: Option<Position>, allowed: bool)
    requires Core(n)
    ensures var ended := EndSession(n, exit);
            && (ended.Halt? ==> Ended(ended))
            && (ended.More? ==>
                  var stopped := StopCapture(ended.n);
                  && (stopped.Halt? ==> Ended(stopped))
                  && (stopped.More? ==>
                        var placed := PlaceBack(stopped.n, env, n.role, allowed);
                        && (placed.Halt? ==> Ended(placed))
                        && (placed.More? ==> Quiet(placed.n) && !placed.n.capture.live)))
  {
    hide EndSession, StopCapture, PlaceBack, Injection.Inv;
    EndSessionQuiet(n, exit);
    var ended := EndSession(n, exit);
    if ended.More? {
      StopCaptureKeeps(ended.n);
      var stopped := StopCapture(ended.n);
      if stopped.More? {
        PlaceBackQuiet(stopped.n, env, n.role, allowed);
      }
    }
  }

  lemma RetiredKeeps(n: Node, env: Env)
    requires Core(n)
    ensures Good(Retired(n, env))
  {
    hide EndSession, StopCapture, PlaceBack, Injection.Inv, ActiveEdges;
    GiveBack(n, env, None,
             n.localReady && n.role.Sending? && n.role.edge < |n.desktop.edges|
             && HasOutput(n.desktop, n.desktop.edges[n.role.edge]));
    EndSessionQuiet(n, None);
  }

  lemma WatchingKeeps(n: Node, env: Env)
    requires Core(n)
    ensures Core(Watching(n, env))
  {
    hide Injection.Inv, ActiveEdges;
  }

  lemma RoutedKeeps(n: Node, env: Env)
    requires Core(n)
    ensures Good(Routed(n, env))
  {
    hide SendInputs, Core;
    CoreRemembers(n);
    var tried := Try(n, RouteFailed);
    if tried.More? {
      AsideKeeps(n, tried.n);
      SendInputsKeeps(tried.n, env.routed);
      var routed := SendInputs(tried.n, env.routed);
      if routed.More? {
        SentIsCore(tried.n, routed.n, |env.routed|);
      }
    }
  }

  lemma PreambleKeeps(n: Node, env: Env)
    requires Core(n)
    ensures Good(Preamble(n, env))
  {
    hide Retired, Routed, Watching, Core;
    RetiredKeeps(n, env);
    var kept := Retired(n, env);
    if kept.More? {
      RoutedKeeps(kept.n, env);
      var routed := Routed(kept.n, env);
      if routed.More? {
        WatchingKeeps(routed.n, env);
      }
    }
  }

  // ---- The branches ----

  lemma ReleaseKeeps(n: Node, env: Env)
    requires Core(n)
    ensures Good(OnRelease(n, env))
  {
    hide EndSession, StopCapture, PlaceBack, Injection.Inv;
    GiveBack(n, env, None, true);
  }

  lemma ClearedKeeps(n: Node)
    requires Core(n)
    ensures var f := Cleared(n);
            if f.More? then Quiet(f.n) && f.n.role.Local? && !f.n.capture.live && f.n.paper == n.paper
            else Ended(f)
  {
    hide EndSession, StopCapture, Injection.Inv;
    EndSessionQuiet(n, None);
    var ended := EndSession(n, None);
    if ended.More? {
      StopCaptureKeeps(ended.n);
    }
  }

  lemma ProposeKeeps(n: Node, id: nat, r: LayoutRequest)
    requires Quiet(n) && n.role.Local? && !n.capture.live
    ensures Good(Propose(n, id, r))
  {
    hide Injection.Inv, Send;
    var drawn := Try(n, NoTransaction);
    SendKeeps(WithPrepared(drawn.n, id, r.localEdges, true, r.peerEdges),
              Layout(Prepare(id, r.peerEdges, r.peerRevision)));
  }

  lemma ApplyKeeps(n: Node, env: Env, r: LayoutRequest)
    requires Core(n)
    ensures Good(OnApply(n, env, r))
  {
    hide Cleared, Injection.Inv, Propose, CanApply;
    ClearedKeeps(n);
    if Cleared(n).More? {
      ProposeKeeps(Cleared(n).n, env.id, r);
    }
  }

  lemma StatusKeeps(n: Node, unlocked: bool)
    requires Core(n)
    ensures Good(OnStatus(n, unlocked))
  {
    hide Injection.LocalLock, Send, SayEnd, StopCapture, Injection.Inv;
    LockCalm(n.recv, !unlocked);
    var locked := Receive(n.(localReady := unlocked), Injection.LocalLock(n.recv, !unlocked));
    if locked.More? {
      assert unlocked == n.localReady ==> locked.n.recv.session == n.recv.session;
      SendKeeps(locked.n, LockState(!unlocked));
      var told := Send(locked.n, LockState(!unlocked));
      if told.More? && !unlocked {
        LockedAway(told.n);
      }
    }
  }

  /** This session was locked: whatever was going on is over here. */
  lemma LockedAway(n: Node)
    requires Quiet(n) && !n.localReady
    ensures var ended := SayEnd(Suspended(n), None);
            if ended.More? then Good(StopCapture(GoLocal(ended.n))) else Ended(ended)
  {
    hide SayEnd, StopCapture, Injection.Inv;
    SayEndKeeps(Suspended(n), None);
    StopCaptureKeeps(GoLocal(SayEnd(Suspended(n), None).n));
  }

  lemma DroppedKeeps(n: Node)
    ensures Dropped(n) == n.(paper := Dropped(n).paper, luck := Dropped(n).luck)
    ensures Dropped(n).paper.layout.None?
  {
    hide LeavesPaper, Letters;
  }

  lemma TakeOverKeeps(n: Node)
    requires Core(n)
    ensures Good(TakeOver(n))
  {
    hide Injection.PhysicalActivity, SayEnd, StopCapture, Injection.Inv;
    ActivityCalm(n.recv);
    var freed := Receive(n, PhysicalActivity(n.recv));
    if freed.More? {
      SayEndKeeps(freed.n, None);
      StopCaptureKeeps(GoLocal(SayEnd(freed.n, None).n));
    }
  }

  lemma ForwardKeyboardKeeps(n: Node, e: InputEvent)
    requires Core(n)
    ensures Good(ForwardKeyboard(n, e))
    ensures var f := ForwardKeyboard(n, e);
            f.More? ==> f.n == n.(sourceKeys := f.n.sourceKeys, sent := f.n.sent, luck := f.n.luck, role := f.n.role)
                        && (n.role.Sending? <==> f.n.role.Sending?) && (!n.role.Sending? ==> f.n == n)
  {
    hide SendInput, Injection.Inv, Completes;
    SendInputKeeps(WithKey(n, e), e);
  }

  lemma EscapeKeeps(n: Node, env: Env)
    requires Core(n) && n.role.Sending?
    ensures Good(Escape(n, env))
  {
    hide SayEnd, StopCapture, PlaceBack, Injection.Inv;
    SayEndKeeps(n, None);
    var told := SayEnd(n, None);
    StopCaptureKeeps(told.n);
    PlaceBackQuiet(StopCapture(told.n).n, env, n.role, true);
  }

  lemma ForwardKeeps(n: Node, env: Env, e: InputEvent)
    requires Core(n)
    ensures Good(Forward(n, env, e))
  {
    hide ForwardKeyboard, Escape, Core, Chord;
    ForwardKeyboardKeeps(n, e);
    var keyed := ForwardKeyboard(n, e);
    if keyed.More? && Completes(n, e) {
      EscapeKeeps(keyed.n, env);
    }
  }

  lemma {:induction false} ForwardAllKeeps(n: Node, env: Env, events: seq<InputEvent>)
    requires Core(n)
    ensures Good(ForwardAll(n, env, events))
    decreases |events|
  {
    hide Forward, Core;
    if events != [] {
      ForwardAllKeeps(n, env, events[..|events| - 1]);
      var before := ForwardAll(n, env, events[..|events| - 1]);
      if before.More? {
        ForwardKeeps(before.n, env, events[|events| - 1]);
      }
    }
  }

  lemma {:induction false} PressAllKeeps(n: Node, events: seq<InputEvent>)
    requires Core(n)
    ensures Good(PressAll(n, events))
    decreases |events|
  {
    hide ForwardKeyboard, Core;
    if events != [] {
      PressAllKeeps(n, events[..|events| - 1]);
      var before := PressAll(n, events[..|events| - 1]);
      if before.More? {
        ForwardKeyboardKeeps(before.n, events[|events| - 1]);
      }
    }
  }

  /** Giving a change up touches only the configuration file, the log and the luck. */
  lemma AbandonKeeps(n: Node, p: PendingLayout)
    ensures var f := Abandon(n, p);
            && f.n == n.(paper := f.n.paper, luck := f.n.luck, sent := f.n.sent)
            && (f.Halt? ==> !Excluded(f.why))
  {
    hide Dropped, Send;
    DroppedKeeps(n);
    SendKeeps(Dropped(n), Layout(Abort(p.id)));
  }

  /** While a change is pending nothing is shared or captured, so the file, the log and the luck may change freely. */
  lemma PaperKeeps(n: Node, f: Flow)
    requires Core(n) && n.paper.layout.Some?
    requires f.n == n.(paper := f.n.paper, luck := f.n.luck, sent := f.n.sent)
    requires f.Halt? ==> !Excluded(f.why)
    ensures Good(f)
  {
    hide Injection.Inv;
  }

  lemma ExpireKeeps(n: Node, env: Env)
    requires Core(n)
    ensures Good(Expire(n, env))
  {
    hide Abandon, Core;
    if n.paper.layout.Some? {
      AbandonKeeps(n, n.paper.layout.value);
      PaperKeeps(n, Abandon(n, n.paper.layout.value));
    }
  }

  lemma CaptureOverKeeps(n: Node, env: Env)
    requires Core(n)
    ensures Good(CaptureOver(n, env))
  {
    hide StopCapture, SayEnd, Injection.Inv;
    StopCaptureKeeps(n);
    SayEndKeeps(StopCapture(n).n, None);
  }

  lemma SampledKeeps(n: Node, env: Env)
    requires Core(n)
    ensures Good(SampledIfReady(n, env))
    ensures SampledIfReady(n, env).More? ==> Core(Drained(SampledIfReady(n, env).n))
  {
    hide Sample, Injection.Inv;
    SampleKeeps(n, env);
  }

  lemma TickKeeps(n: Node, env: Env)
    requires Core(n)
    ensures Good(OnTick(n, env))
  {
    hide Core, Expire, SampledIfReady, Act;
    CoreRemembers(n);
    var polled := Try(n, PollFailed);
    if polled.More? {
      AsideKeeps(n, polled.n);
      ExpireKeeps(polled.n, env);
      var current := Expire(polled.n, env);
      if current.More? {
        SampledKeeps(current.n, env);
        var sampled := SampledIfReady(current.n, env);
        if sampled.More? {
          ActKeeps(Drained(sampled.n), env, sampled.n.keys.pending);
        }
      }
    }
  }

  lemma AsideKeeps(n: Node, after: Node)
    requires Core(n)
    requires after == n.(sent := after.sent, luck := after.luck, heartbeat := after.heartbeat, keys := after.keys)
    ensures Core(after)
  {
    hide Injection.Inv;
  }

  lemma CoreRemembers(n: Node)
    requires Core(n)
    ensures Injection.Inv(n.recv)
  {
  }

  lemma BeatKeeps(n: Node, env: Env)
    requires Core(n)
    ensures Good(Beat(n, env))
  {
    hide Injection.Inv;
  }

  lemma ActKeeps(n: Node, env: Env, events: seq<InputEvent>)
    requires Core(n)
    ensures Good(Act(n, env, events))
  {
    hide Core, TakeOver, ForwardAll, SendInputs, CaptureOver, Beat;
    TakeOverKeeps(n);
    var kept := if n.BothReady() && env.active && n.role.Receiving? then TakeOver(n) else More(n);
    if kept.More? {
      ForwardAllKeeps(kept.n, env, events);
      var typed := ForwardAll(kept.n, env, events);
      if typed.More? {
        SendInputsKeeps(typed.n, env.touch);
        CoreRemembers(typed.n);
        var touched := SendInputs(typed.n, env.touch);
        if touched.More? {
          SentIsCore(typed.n, touched.n, |env.touch|);
          CaptureOverKeeps(touched.n, env);
          var watched := CaptureOver(touched.n, env);
          if watched.More? {
            BeatKeeps(watched.n, env);
          }
        }
      }
    }
  }

  lemma StartSendingKeeps(n: Node, env: Env, index: nat, fraction: real)
    requires Linked(n) && n.role.Local? && n.BothReady() && n.paper.layout.None? && index < |n.desktop.edges|
    requires n.capture.live && n.capture.started
    ensures Good(StartSending(n, env, index, fraction))
  {
    hide Sample, StopCapture, BeginSending, Injection.Inv, Keyboard.Emergency, Keyboard.Held;
    SampleKeeps(n, env);
    var sampled := Sample(n, env);
    if sampled.More? {
      StopCaptureKeeps(Drained(sampled.n));
      BeginSendingKeeps(Drained(sampled.n), index, fraction, Keyboard.Held(sampled.n.keys.devices));
    }
  }

  lemma BeginSendingKeeps(n: Node, index: nat, fraction: real, held: set<int>)
    requires Linked(n) && n.role.Local? && n.BothReady() && n.paper.layout.None? && index < |n.desktop.edges|
    requires n.capture.live && n.capture.started
    ensures Good(BeginSending(n, index, fraction, held))
  {
    hide PressAll, Send, Injection.Inv, Codes, Presses;
    var m := Begin(n.nextSession, Position(n.desktop.edges[index].id, fraction));
    SendKeeps(n.(nextSession := n.nextSession + 1), m);
    var begun := Send(n.(nextSession := n.nextSession + 1), m);
    if begun.More? {
      PressAllKeeps(begun.n.(role := Sending(n.nextSession, 0, index, fraction), sourceKeys := {}),
                    Presses(Codes(held)));
    }
  }

  lemma ReturnKeeps(n: Node, env: Env, index: nat, fraction: real)
    requires Linked(n) && n.role.Receiving? && index < |n.desktop.edges|
    ensures Good(Return(n, env, index, fraction))
  {
    hide EndSession, StopCapture, Place, Injection.Inv;
    var exit := Some(Position(n.desktop.edges[index].id, fraction));
    EndSessionQuiet(n, exit);
    var ended := EndSession(n, exit);
    if ended.More? {
      StopCaptureKeeps(GoLocal(ended.n));
      var stopped := StopCapture(GoLocal(ended.n));
      if stopped.More? {
        PlaceQuiet(stopped.n, env, index, fraction);
      }
    }
  }

  lemma {:induction false} ActiveEdgesWithin(local: Desktop, peer: Option<Desktop>, upTo: nat, i: nat)
    requires upTo <= |local.edges| && i in ActiveEdges(local, peer, upTo)
    ensures i < upTo && Matched(local, peer, local.edges[i])
  {
    hide Matched;
    if i in ActiveEdges(local, peer, upTo - 1) {
      ActiveEdgesWithin(local, peer, upTo - 1, i);
    }
  }

  lemma StartedKeeps(n: Node, env: Env, edge: nat, fraction: real)
    requires Core(n) && n.capture.live && !n.capture.started
    ensures Good(OnStarted(n, env, edge, fraction))
  {
    hide StartSending, Return, StopCapture, Injection.Inv, ActiveEdges;
    if edge < |n.capture.edges| && n.capture.edges[edge] in Available(n) {
      var index := n.capture.edges[edge];
      ActiveEdgesWithin(n.desktop, n.peer, |n.desktop.edges|, index);
      var seen := n.(capture := n.capture.(started := true));
      match n.role
      case Local => StartSendingKeeps(seen, env, index, fraction);
      case Receiving(_) => ReturnKeeps(seen, env, index, fraction);
      case Sending(_, _, _, _) =>
    }
  }

  lemma FinishedKeeps(n: Node, env: Env, escape: bool)
    requires Core(n)
    ensures Good(OnFinished(n, env, escape))
  {
    hide EndSession, StopCapture, PlaceBack, Injection.Inv;
    EndSessionQuiet(n, None);
    var ended := EndSession(n, None);
    if ended.More? {
      StopCaptureKeeps(GoLocal(ended.n));
      var stopped := StopCapture(GoLocal(ended.n));
      if stopped.More? {
        PlaceBackQuiet(stopped.n, env, n.role, n.localReady && escape);
      }
    }
  }

  lemma CaptureKeeps(n: Node, env: Env, generation: nat, report: Report)
    requires Core(n) && Legal(n, env, CaptureEvent(generation, report))
    ensures Good(OnCapture(n, env, generation, report))
  {
    hide OnStarted, OnFinished, SendInput, Injection.Inv, TouchFrames, InputEvent.Valid;
    if generation == n.capture.generation && n.capture.live {
      match report
      case Started(edge, fraction) => StartedKeeps(n, env, edge, fraction);
      case Captured(e) => SendInputKeeps(n, e);
      case Finished(escape) => FinishedKeeps(n, env, escape);
      case Armed =>
      case Ready =>
    }
  }

  lemma PeerLockKeeps(n: Node, env: Env, locked: bool)
    requires Core(n)
    ensures Good(OnPeerLock(n, env, locked))
  {
    hide Injection.PeerLock, SayEnd, StopCapture, PlaceBack, Injection.Inv;
    if n.padsConfigured {
      LockCalm(n.recv, locked);
      var noted := Receive(n.(peerReady := !locked), Injection.PeerLock(n.recv, locked));
      if noted.More? && locked {
        PeerLocked(n, noted.n, env);
      }
    }
  }

  /** The peer locked its session: whatever was going on is over here. */
  lemma PeerLocked(n: Node, noted: Node, env: Env)
    requires Calm(noted.recv) && Locks(noted) && noted.recv.session.None?
    requires noted == n.(peerReady := false, recv := noted.recv)
    requires n.role.Sending? ==> n.role.edge < |n.desktop.edges|
    ensures var told := SayEnd(Suspended(noted), None);
            && (told.Halt? ==> Ended(told))
            && (told.More? ==>
                  var stopped := if n.role.Sending? then StopCapture(told.n) else More(told.n);
                  && (stopped.Halt? ==> Ended(stopped))
                  && (stopped.More? ==>
                        var placed := PlaceBack(stopped.n, env, n.role, n.localReady);
                        && (placed.Halt? ==> Ended(placed))
                        && (placed.More? ==> Good(StopCapture(GoLocal(placed.n))))))
  {
    hide SayEnd, StopCapture, PlaceBack, Injection.Inv, LeavesPaper, Letters;
    SayEndKeeps(Suspended(noted), None);
    var told := SayEnd(Suspended(noted), None);
    if told.More? {
      StopCaptureKeeps(told.n);
      var stopped := if n.role.Sending? then StopCapture(told.n) else More(told.n);
      if stopped.More? {
        PlaceBackQuiet(stopped.n, env, n.role, n.localReady);
        var placed := PlaceBack(stopped.n, env, n.role, n.localReady);
        if placed.More? {
          StopCaptureKeeps(GoLocal(placed.n));
        }
      }
    }
  }

  lemma {:induction false} EdgeNamedWithin(n: Node, id: string, available: seq<nat>, from: nat)
    requires from <= |n.desktop.edges| && EdgeNamed(n, id, available, from).Some?
    ensures var i := EdgeNamed(n, id, available, from).value;
            i < |n.desktop.edges| && n.desktop.edges[i].id == id && i in available
    decreases |n.desktop.edges| - from
  {
    if !(n.desktop.edges[from].id == id && from in available) {
      EdgeNamedWithin(n, id, available, from + 1);
    }
  }

  /** Accepting a session: neither "busy" nor "active input" can come up, and no key, button or touchpad is down. */
  lemma AcceptKeeps(n: Node, env: Env, session: nat, index: nat, fraction: real)
    requires Core(n) && n.role.Local? && n.BothReady() && n.paper.layout.None? && session != 0
    requires index < |n.desktop.edges|
    ensures n.recv.sink.down == {} && n.recv.sink.pads == {}
    ensures var answer := Injection.Begin(n.recv, session);
            && answer.Fine? && answer.accepted
            && var placed := Place(n.(recv := answer.r), env, index, fraction);
               && (placed.Halt? ==> Ended(placed))
               && (placed.More? ==> Core(placed.n.(role := Receiving(session))))
  {
    hide Place, Injection.Inv, Injection.Begin;
    BeginCalm(n.recv, session);
    CalmBegins(n.recv, session);
    var begun := n.(recv := Injection.Begin(n.recv, session).r);
    PlaceQuiet(begun, env, index, fraction);
  }

  lemma BeginKeeps(n: Node, env: Env, session: nat, entry: Position)
    requires Core(n) && session != 0
    ensures Good(OnBegin(n, env, session, entry))
  {
    hide Place, Injection.Inv, Injection.Begin, Sample, EdgeNamed, ActiveEdges, LeavesPaper, Letters;
    var edge := EdgeNamed(n, entry.edge, Available(n), 0);
    SampleKeeps(n, env);
    if edge.Some? && n.role.Local? && n.BothReady() && n.paper.layout.None? {
      EdgeNamedWithin(n, entry.edge, Available(n), 0);
      var sampled := Sample(n, env);
      if sampled.More? {
        AsideKeeps(n, sampled.n);
        AcceptKeeps(sampled.n, env, session, edge.value, entry.fraction);
      }
    }
  }

  lemma InputKeeps(n: Node, env: Env, session: nat, sequence: nat, e: InputEvent)
    requires Core(n) && e.Valid()
    ensures Proper(OnInput(n, env, session, sequence, e))
  {
    hide Injection.Inv, Injection.Input, Sample, TakeOver, InputEvent.Valid;
    if n.role == Receiving(session) {
      SampleKeeps(n, env);
      var sampled := Sample(n, env);
      if sampled.More? {
        AsideKeeps(n, sampled.n);
        TakeOverKeeps(sampled.n);
        InputCalm(sampled.n.recv, session, sequence, e);
      }
    }
  }

  lemma ComeBackQuiet(n: Node, env: Env, before: Role, exit: Option<Position>)
    requires Quiet(n) && (before.Sending? ==> before.edge < |n.desktop.edges|)
    ensures var f := ComeBack(n, env, before, exit);
            f.n == n.(recv := f.n.recv) && if f.More? then Quiet(f.n) else Ended(f)
  {
    hide Injection.Inv, Place, EdgeNamed, ActiveEdges;
    if before.Sending? && n.localReady {
      match exit
      case None => PlaceQuiet(n, env, before.edge, before.fraction);
      case Some(at) =>
        var all := Indices(|n.desktop.edges|);
        var named := EdgeNamed(n, at.edge, all, 0);
        if named.Some? {
          EdgeNamedWithin(n, at.edge, all, 0);
          PlaceQuiet(n, env, named.value, at.fraction);
        }
    }
  }

  lemma EndKeeps(n: Node, env: Env, session: nat, exit: Option<Position>)
    requires Core(n)
    ensures Good(OnEnd(n, env, session, exit))
  {
    hide Injection.Inv, Injection.End, StopCapture, ComeBack;
    if n.role.Session() == Some(session) {
      EndCalm(n.recv, session);
      var ended := Receive(n, Injection.End(n.recv, session));
      if ended.More? {
        StopCaptureKeeps(ended.n);
        var stopped := StopCapture(ended.n);
        if stopped.More? {
          ComeBackQuiet(stopped.n, env, n.role, exit);
        }
      }
    }
  }

  lemma PrepareKeeps(n: Node, env: Env, id: nat, edges: seq<EdgeConfig>, revision: Document)
    requires Core(n)
    ensures Good(OnPrepare(n, env, id, edges, revision))
  {
    hide Injection.Inv, Cleared, Send, CanPrepare, LeavesPaper, Letters;
    ClearedKeeps(n);
    SendKeeps(n, Layout(Prepared(id, false)));
    if Cleared(n).More? {
      SendKeeps(WithPrepared(Cleared(n).n, id, edges, false, []), Layout(Prepared(id, true)));
    }
  }

  lemma CommittedKeeps(n: Node, env: Env, p: PendingLayout)
    ensures var (after, written) := Committed(n, env, p); after == n.(paper := after.paper, luck := after.luck)
  {
  }

  lemma PreparedKeeps(n: Node, env: Env, p: PendingLayout, ok: bool)
    requires Core(n) && n.paper.layout == Some(p)
    ensures Good(OnPrepared(n, env, p, ok))
  {
    hide Core, Abandon, Send, Committed;
    CommittedKeeps(n, env, p);
    var (tried, written) := if ok then Committed(n, env, p) else (n, false);
    AbandonKeeps(tried, p);
    SendKeeps(tried, Layout(Commit(p.id)));
    PaperKeeps(n, OnPrepared(n, env, p, ok));
  }

  lemma AdoptKeeps(n: Node, p: PendingLayout)
    ensures var f := Adopt(n, p);
            f.n == n.(paper := f.n.paper, luck := f.n.luck, sent := f.n.sent) && f.Halt? && !Excluded(f.why)
  {
    hide Send;
    SendKeeps(Finish(n, p), Layout(Result(p.id, true, Some(p.next))));
  }

  lemma CommitKeeps(n: Node, env: Env, p: PendingLayout)
    requires Core(n) && n.paper.layout == Some(p)
    ensures Good(OnCommit(n, env, p))
  {
    hide Core, Dropped, Send, Committed, Adopt;
    CommittedKeeps(n, env, p);
    var (tried, written) := Committed(n, env, p);
    DroppedKeeps(tried);
    AdoptKeeps(tried, p.(committed := true));
    SendKeeps(Dropped(tried), Layout(Result(p.id, false, None)));
    PaperKeeps(n, OnCommit(n, env, p));
  }

  lemma LayoutKeeps(n: Node, env: Env, m: LayoutMessage)
    requires Core(n)
    ensures Good(OnLayout(n, env, m))
  {
    hide Injection.Inv, Dropped, OnPrepare, OnPrepared, OnCommit;
    DroppedKeeps(n);
    match m
    case Prepare(id, edges, revision) => PrepareKeeps(n, env, id, edges, revision);
    case Prepared(id, ok) =>
      if Concerns(n, id) {
        PreparedKeeps(n, env, n.paper.layout.value, ok);
      }
    case Commit(id) =>
      if Concerns(n, id) {
        CommitKeeps(n, env, n.paper.layout.value);
      }
    case Result(_, _, _) =>
    case Abort(_) =>
  }

  lemma MessageKeeps(n: Node, env: Env, m: Message)
    requires Core(n) && Decoded(m)
    ensures Proper(OnMessage(n, env, m)) && (!m.Input? ==> Good(OnMessage(n, env, m)))
  {
    hide Injection.Inv, OnLayout, OnBegin, OnInput, OnEnd, OnPeerLock, InputEvent.Valid, LeavesPaper, Letters;
    match m
    case Layout(letter) => LayoutKeeps(n, env, letter);
    case Begin(session, entry) => BeginKeeps(n, env, session, entry);
    case Input(session, sequence, event) => InputKeeps(n, env, session, sequence, event);
    case End(session, exit) => EndKeeps(n, env, session, exit);
    case LockState(locked) => PeerLockKeeps(n, env, locked);
    case _ =>
  }

  lemma BranchKeeps(n: Node, env: Env, ev: Event)
    requires Core(n) && Legal(n, env, ev)
    ensures Proper(Branch(n, env, ev))
    ensures !(ev.Received? && ev.message.Input?) ==> Good(Branch(n, env, ev))
  {
    hide Injection.Inv, OnRelease, OnApply, OnStatus, OnTick, OnCapture, OnMessage, Decoded, LeavesPaper, Letters;
    match ev
    case ReleaseCommand => ReleaseKeeps(n, env);
    case ApplyCommand(request) => ApplyKeeps(n, env, request);
    case StatusChanged(unlocked) => StatusKeeps(n, unlocked);
    case Tick => TickKeeps(n, env);
    case CaptureEvent(generation, report) => CaptureKeeps(n, env, generation, report);
    case Received(message) => MessageKeeps(n, env, message);
    case _ =>
  }

  // ---- The main results ----

  /** Every iteration keeps the invariant, and none ends with a busy receiver, an index out of range, owed releases
      or a pointer placed during input. */
  lemma StepKeeps(n: Node, env: Env, ev: Event)
    requires Core(n) && LegalStep(n, env, ev)
    ensures Proper(Step(n, env, ev))
  {
    hide Core, Preamble, Branch, Legal, TouchFrames;
    PreambleKeeps(n, env);
    var ready := Preamble(n, env);
    if ready.More? {
      BranchKeeps(ready.n, env, ev);
    }
  }

  /** The loop is entered with the invariant established. */
  lemma OpenIsCore(desktop: Desktop, physical: bool, unlocked: bool, pads: nat, luck: seq<Luck>, fate: seq<Luck>)
    ensures Good(Open(desktop, physical, unlocked, pads, luck, fate))
  {
    hide Announced;
    FreshIsCalm(fate);
    AnnouncedKeeps(Fresh(desktop, physical, unlocked, luck, fate), pads);
  }

  /** A computer that takes part in nothing yet. */
  ghost predicate AtRest(n: Node) {
    Calm(n.recv) && n.recv.session.None? && n.role.Local? && !n.capture.live && !n.peerReady
  }

  lemma AnnouncedKeeps(n: Node, pads: nat)
    requires AtRest(n)
    ensures Good(Announced(n, pads))
  {
    hide Injection.LocalLock, Injection.Inv, Send, LeavesPaper, Letters;
    LockCalm(n.recv, !n.localReady);
    var locked := Receive(n, Injection.LocalLock(n.recv, !n.localReady));
    if locked.More? {
      SendKeeps(locked.n, DesktopInfo(n.desktop));
      var shown := Send(locked.n, DesktopInfo(n.desktop));
      SendKeeps(shown.n, Touchpads(pads));
      SendKeeps(Send(shown.n, Touchpads(pads)).n, LockState(!n.localReady));
    }
  }

  /** The iterations of one connection, in order; a connection that ended takes no further ones. */
  function Run(start: Flow, steps: seq<(Env, Event)>): Flow
    decreases |steps|
  {
    if steps == [] then start
    else
      var before :- Run(start, steps[..|steps| - 1]);
      Step(before, steps[|steps| - 1].0, steps[|steps| - 1].1)
  }

  ghost predicate LegalRun(start: Flow, steps: seq<(Env, Event)>) {
    forall k :: 0 <= k < |steps| && Run(start, steps[..k]).More? ==>
      LegalStep(Run(start, steps[..k]).n, steps[k].0, steps[k].1)
  }

  lemma {:induction false} RunKeeps(start: Flow, steps: seq<(Env, Event)>)
    requires Good(start) && LegalRun(start, steps)
    ensures Proper(Run(start, steps))
    decreases |steps|
  {
    hide Core, Step, LegalStep;
    if steps != [] {
      var shorter := steps[..|steps| - 1];
      assert forall k :: 0 <= k < |shorter| ==> shorter[..k] == steps[..k];
      RunKeeps(start, shorter);
      var before := Run(start, shorter);
      if before.More? {
        StepKeeps(before.n, steps[|steps| - 1].0, steps[|steps| - 1].1);
      }
    }
  }

  /** After any number of iterations of any connection: the role says exactly whether the receiver has a session,
      nobody shares while a side is locked or a layout change is pending, a live capture implies the same, sending
      implies a live capture, and at the receiver nothing down is forgotten and without a session nothing is owed and no
      touchpad touched. */
  lemma EveryRunIsSafe(desktop: Desktop, physical: bool, unlocked: bool, pads: nat, luck: seq<Luck>,
                       fate: seq<Luck>, steps: seq<(Env, Event)>)
    requires LegalRun(Open(desktop, physical, unlocked, pads, luck, fate), steps)
    ensures Proper(Run(Open(desktop, physical, unlocked, pads, luck, fate), steps))
  {
    hide Open, Good, Run, LegalRun;
    OpenIsCore(desktop, physical, unlocked, pads, luck, fate);
    RunKeeps(Open(desktop, physical, unlocked, pads, luck, fate), steps);
  }

  lemma CloseStops(n: Node)
    ensures var c := Close(n).n;
            && c.recv == Stop(n.recv).r && !c.capture.live && c.keys == Keyboard.NO_KEYS && c.paper.layout.None?
    ensures Close(n).More? ==> Stop(n.recv).Fine?
  {
    hide Stop, StopCapture, Dropped;
    var stopped := Suspended(n.(recv := Stop(n.recv).r));
    StopCaptureKeeps(stopped);
    DroppedKeeps(StopCapture(stopped).n);
  }

  /** However a connection ended, and in whatever state: no session, capture, physical key or layout change is left
      behind; and if the cleanup reports no failure, as it does when no call to the input backend fails, no key, button
      or touchpad is left down. */
  lemma CloseReturnsControl(f: Flow)
    requires Proper(f)
    ensures var c := Close(f.n).n;
            && c.recv.session.None? && !c.capture.live && c.keys == Keyboard.NO_KEYS && c.paper.layout.None?
            && c.recv.sink.down <= Controls(c.recv.pending)
    ensures var c, fate := Close(f.n), f.n.recv.sink.fate;
            c.More? || (forall i :: 0 <= i < |fate| ==> fate[i] == Done) ==>
              c.n.recv.sink.down == {} && c.n.recv.sink.pads == {}
  {
    hide Close, Core, Injection.Inv;
    if f.More? {
      CoreRemembers(f.n);
    }
    CloseStops(f.n);
    StopForgetsNothing(f.n.recv);
  }

  lemma StopForgetsNothing(r: Receiver)
    requires Injection.Inv(r)
    ensures var s := Stop(r).r; s.session.None? && s.sink.down <= Controls(s.pending)
    ensures Stop(r).Fine? || (forall i :: 0 <= i < |r.sink.fate| ==> r.sink.fate[i] == Done) ==>
              Stop(r).r.sink.down == {} && Stop(r).r.sink.pads == {}
  {
    hide ReleaseWithPads;
    StopInv(r);
    var s := Stop(r).r;
    assert s.state.held + s.pending == s.pending;
    if forall i :: 0 <= i < |r.sink.fate| ==> r.sink.fate[i] == Done {
      StopSucceeds(r);
    }
  }
}
