// What one iteration says about sessions, and how that goes with the role it leaves behind (src/bridge.rs).
module Turns {
  import opened ControlSafety
  import opened Coordination
  import opened Geometry
  import opened Injection
  import opened Ordered
  import opened Protocol
  import Keyboard

  predicate IsEnd(m: Message, s: nat) {
    m.End? && m.session == s
  }

  predicate IsBegin(m: Message, s: nat) {
    m.Begin? && m.session == s
  }

  predicate SameRole(a: Role, b: Role) {
    match a
    case Local => b.Local?
    case Sending(session, _, edge, fraction) =>
      b.Sending? && b.session == session && b.edge == edge && b.fraction == fraction
    case Receiving(session) => b == Receiving(session)
  }

  /** What was said since names no beginning, and no end but of this session. */
  predicate OnlyEnds(was: seq<Message>, now: seq<Message>, session: Option<nat>) {
    && was <= now
    && forall k :: |was| <= k < |now| ==> !now[k].Begin? && (now[k].End? ==> session == Some(now[k].session))
  }

  predicate EndSaid(was: seq<Message>, now: seq<Message>, s: nat) {
    exists k :: |was| <= k < |now| && IsEnd(now[k], s)
  }

  /** Nothing was said since about the lock or the desktop of this side, and no session was ended by a crossing, unless
      by this one. */
  predicate NoNewsBut(was: seq<Message>, now: seq<Message>, exit: Option<Position>) {
    && was <= now
    && forall k :: |was| <= k < |now| ==>
         !now[k].LockState? && !now[k].DesktopInfo? && (now[k].End? ==> now[k].exit.None? || now[k].exit == exit)
  }

  predicate NoNews(was: seq<Message>, now: seq<Message>) {
    NoNewsBut(was, now, None)
  }

  /** What each side knows of its own lock and desktop and of the other's is as before. */
  predicate SameView(n: Node, after: Node) {
    && after.localReady == n.localReady && after.peerReady == n.peerReady
    && after.desktop == n.desktop && after.peer == n.peer
  }

  predicate Discreet(n: Node, f: Flow) {
    NoNews(n.sent, f.n.sent) && SameView(n, f.n)
  }

  /** Nothing was said and the role is what it was. */
  predicate Still(n: Node, f: Flow) {
    f.n.sent == n.sent && f.n.role == n.role && f.n.nextSession == n.nextSession && SameView(n, f.n)
  }

  /** The role is kept, and no session is begun or ended. */
  predicate KeepsRole(n: Node, f: Flow) {
    && OnlyEnds(n.sent, f.n.sent, None) && f.n.nextSession == n.nextSession
    && (f.More? ==> SameRole(n.role, f.n.role))
  }

  /** And nothing is said about the lock or the desktop. */
  predicate Keeps(n: Node, f: Flow) {
    KeepsRole(n, f) && Discreet(n, f)
  }

  /** The end of the session is announced, and the role still stands. */
  predicate Tells(n: Node, f: Flow) {
    && Discreet(n, f) && OnlyEnds(n.sent, f.n.sent, n.role.Session()) && f.n.nextSession == n.nextSession
    && (f.More? ==>
          f.n.role == n.role && (n.role.Session().Some? ==> EndSaid(n.sent, f.n.sent, n.role.Session().value)))
  }

  /** The role is given up, and its session's end announced. */
  predicate LeavesRole(n: Node, f: Flow) {
    && OnlyEnds(n.sent, f.n.sent, n.role.Session()) && f.n.nextSession == n.nextSession
    && (f.More? ==> f.n.role.Local? && (n.role.Session().Some? ==> EndSaid(n.sent, f.n.sent, n.role.Session().value)))
  }

  predicate Leaves(n: Node, f: Flow) {
    LeavesRole(n, f) && Discreet(n, f)
  }

  predicate Usual(n: Node, f: Flow) {
    Keeps(n, f) || Leaves(n, f)
  }

  /** The same, but for what is said about the lock or the desktop. */
  predicate UsualRole(n: Node, f: Flow) {
    KeepsRole(n, f) || LeavesRole(n, f)
  }

  // ---- Putting steps together ----

  lemma StillThenKeeps(n: Node, m: Node, f: Flow)
    requires Still(n, More(m)) && Keeps(m, f)
    ensures Keeps(n, f)
  {
  }

  lemma StillThenLeaves(n: Node, m: Node, f: Flow)
    requires Still(n, More(m)) && Leaves(m, f)
    ensures Leaves(n, f)
  {
  }

  lemma KeepsThen(n: Node, m: Node, f: Flow)
    requires Keeps(n, More(m)) && Usual(m, f)
    ensures Usual(n, f)
    ensures Keeps(m, f) ==> Keeps(n, f)
    ensures Leaves(m, f) ==> Leaves(n, f)
  {
    assert forall k :: |n.sent| <= k < |m.sent| && |m.sent| <= |f.n.sent| && m.sent <= f.n.sent ==>
      f.n.sent[k] == m.sent[k];
  }

  /** After leaving nothing more is said about sessions. */
  lemma LeavesThen(n: Node, m: Node, f: Flow)
    requires Leaves(n, More(m)) && Usual(m, f)
    ensures Leaves(n, f)
  {
    assert m.sent <= f.n.sent;
    assert forall k :: |n.sent| <= k < |m.sent| ==> f.n.sent[k] == m.sent[k];
    if n.role.Session().Some? {
      EndStaysSaid(n.sent, m.sent, f.n.sent, n.role.Session().value);
    }
  }

  lemma EndStaysSaid(was: seq<Message>, mid: seq<Message>, now: seq<Message>, s: nat)
    requires mid <= now && EndSaid(was, mid, s)
    ensures EndSaid(was, now, s)
  {
    var k :| |was| <= k < |mid| && IsEnd(mid[k], s);
    assert IsEnd(now[k], s);
  }

  lemma UsualThen(n: Node, m: Node, f: Flow)
    requires Usual(n, More(m)) && Usual(m, f)
    ensures Usual(n, f)
  {
    if Keeps(n, More(m)) {
      KeepsThen(n, m, f);
    } else {
      LeavesThen(n, m, f);
    }
  }

  // ---- The calls ----

  lemma SendTurns(n: Node, m: Message)
    requires !m.Begin? && !m.End? && !m.LockState? && !m.DesktopInfo?
    ensures Keeps(n, Send(n, m))
  {
  }

  lemma ReceiveStill(n: Node, a: Answer)
    ensures Still(n, Receive(n, a))
  {
  }

  lemma StopCaptureStill(n: Node)
    ensures Still(n, StopCapture(n))
  {
  }

  lemma SampleStill(n: Node, env: Env)
    ensures Still(n, Sample(n, env))
  {
    hide Keyboard.AbsorbAll;
  }

  lemma PlaceStill(n: Node, env: Env, index: nat, fraction: real)
    ensures Still(n, Place(n, env, index, fraction))
  {
    hide Placement, PositionOn;
  }

  lemma PlaceBackStill(n: Node, env: Env, role: Role, allowed: bool)
    ensures Still(n, PlaceBack(n, env, role, allowed))
  {
    hide Place;
    if role.Sending? {
      PlaceStill(n, env, role.edge, role.fraction);
    }
  }

  lemma DroppedStill(n: Node)
    ensures Still(n, More(Dropped(n)))
  {
  }

  lemma NothingSaid(was: seq<Message>, session: Option<nat>)
    ensures OnlyEnds(was, was, session) && NoNews(was, was)
  {
  }

  lemma SendsEnd(n: Node, session: nat, exit: Option<Position>)
    ensures var f := Send(n, End(session, exit));
            && SameView(n, f.n) && NoNewsBut(n.sent, f.n.sent, exit) && OnlyEnds(n.sent, f.n.sent, Some(session))
            && f.n.nextSession == n.nextSession && f.n.role == n.role
            && (f.More? ==> EndSaid(n.sent, f.n.sent, session))
  {
    hide LeavesPaper, Letters;
    var f := Send(n, End(session, exit));
    if f.More? {
      assert IsEnd(f.n.sent[|n.sent|], session);
    }
  }

  lemma SayEndTells(n: Node)
    ensures Tells(n, SayEnd(n, None))
  {
    hide Send, NoNewsBut, OnlyEnds, EndSaid;
    NothingSaid(n.sent, n.role.Session());
    if n.role.Session().Some? {
      SendsEnd(n, n.role.Session().value, None);
    }
  }

  lemma EndSessionTells(n: Node)
    ensures Tells(n, EndSession(n, None))
  {
    hide Send, Injection.End, NoNewsBut, OnlyEnds, EndSaid;
    NothingSaid(n.sent, n.role.Session());
    if n.role.Session().Some? {
      var session := n.role.Session().value;
      var ended := Receive(n, Injection.End(n.recv, session));
      ReceiveStill(n, Injection.End(n.recv, session));
      SendsEnd(ended.n, session, None);
    }
  }

  /** The session is ended, the capture stopped and the pointer placed: all but the role is given up. */
  lemma GiveBackTells(n: Node, env: Env, allowed: bool)
    ensures var ended := EndSession(n, None);
            && Tells(n, ended)
            && (ended.More? ==>
                  var stopped := StopCapture(ended.n);
                  Still(ended.n, stopped) && Still(stopped.n, PlaceBack(stopped.n, env, n.role, allowed)))
  {
    hide EndSession, StopCapture, PlaceBack;
    EndSessionTells(n);
    StopCaptureStill(EndSession(n, None).n);
    PlaceBackStill(StopCapture(EndSession(n, None).n).n, env, n.role, allowed);
  }

  lemma RetireTurns(n: Node, env: Env)
    ensures Leaves(n, Retire(n, env))
  {
    hide EndSession, StopCapture, PlaceBack, CanComeBack;
    GiveBackTells(n, env, CanComeBack(n));
  }

  lemma ReleaseTurns(n: Node, env: Env)
    ensures Leaves(n, OnRelease(n, env))
  {
    hide EndSession, StopCapture, PlaceBack;
    GiveBackTells(n, env, true);
  }

  lemma FinishedTurns(n: Node, env: Env, escape: bool)
    ensures Leaves(n, OnFinished(n, env, escape))
  {
    hide EndSession, StopCapture, PlaceBack;
    EndSessionTells(n);
    var ended := EndSession(n, None);
    StopCaptureStill(GoLocal(ended.n));
    PlaceBackStill(StopCapture(GoLocal(ended.n)).n, env, n.role, n.localReady && escape);
  }

  /** The pointer left the receiving computer: the session is ended by that crossing, and the role is given up. */
  predicate Returns(n: Node, f: Flow, at: Position) {
    LeavesRole(n, f) && SameView(n, f.n) && NoNewsBut(n.sent, f.n.sent, Some(at))
  }

  lemma ReturnTurns(n: Node, env: Env, index: nat, fraction: real)
    requires index < |n.desktop.edges|
    ensures Returns(n, Return(n, env, index, fraction), Position(n.desktop.edges[index].id, fraction))
  {
    hide EndSession, StopCapture, Place;
    var at := Position(n.desktop.edges[index].id, fraction);
    ReturningSays(n, at);
    var ended := EndSession(n, Some(at));
    StopCaptureStill(GoLocal(ended.n));
    PlaceStill(StopCapture(GoLocal(ended.n)).n, env, index, fraction);
  }

  lemma ReturningSays(n: Node, at: Position)
    ensures var f := EndSession(n, Some(at));
            && SameView(n, f.n) && NoNewsBut(n.sent, f.n.sent, Some(at)) && OnlyEnds(n.sent, f.n.sent, n.role.Session())
            && f.n.nextSession == n.nextSession
            && (f.More? && n.role.Session().Some? ==> EndSaid(n.sent, f.n.sent, n.role.Session().value))
  {
    hide Send, Injection.End, OnlyEnds, EndSaid;
    NothingSaid(n.sent, n.role.Session());
    if n.role.Session().Some? {
      var session := n.role.Session().value;
      var ended := Receive(n, Injection.End(n.recv, session));
      ReceiveStill(n, Injection.End(n.recv, session));
      SendsEnd(ended.n, session, Some(at));
    }
  }

  lemma ClearedTurns(n: Node)
    ensures Leaves(n, Cleared(n))
  {
    hide EndSession, StopCapture;
    EndSessionTells(n);
    StopCaptureStill(EndSession(n, None).n);
  }

  lemma LeaveRoleTurns(n: Node)
    ensures Leaves(n, LeaveRole(n))
  {
    hide SayEnd, StopCapture;
    SayEndTells(n);
    StopCaptureStill(GoLocal(SayEnd(n, None).n));
  }

  lemma TakeOverTurns(n: Node)
    ensures Leaves(n, TakeOver(n))
  {
    hide LeaveRole, PhysicalActivity;
    ReceiveStill(n, PhysicalActivity(n.recv));
    var freed := Receive(n, PhysicalActivity(n.recv));
    if freed.More? {
      LeaveRoleTurns(freed.n);
      StillThenLeaves(n, freed.n, LeaveRole(freed.n));
    }
  }

  /** The first new message is this one; nothing else is said about the lock or the desktop. */
  predicate Announces(was: seq<Message>, now: seq<Message>, m: Message) {
    NoNews(was + [m], now)
  }

  /** No session was ended by a crossing. */
  predicate NoCrossing(was: seq<Message>, now: seq<Message>) {
    was <= now && forall k :: |was| <= k < |now| && now[k].End? ==> now[k].exit.None?
  }

  /** A change of this side's lock: it is what is announced. */
  predicate NotesLock(n: Node, f: Flow, unlocked: bool) {
    && UsualRole(n, f) && NoCrossing(n.sent, f.n.sent)
    && (f.More? ==> SameView(n.(localReady := unlocked), f.n) && Announces(n.sent, f.n.sent, LockState(!unlocked)))
  }

  /** A change of this side's outputs: the desktop is announced with them. */
  predicate NotesOutputs(n: Node, f: Flow, outputs: set<string>) {
    var desktop := n.desktop.(outputs := outputs);
    && UsualRole(n, f) && NoCrossing(n.sent, f.n.sent)
    && (f.More? ==> SameView(n.(desktop := desktop), f.n) && Announces(n.sent, f.n.sent, DesktopInfo(desktop)))
  }

  /** A change of the other side's lock or desktop: it is only noted. */
  predicate NotesPeer(n: Node, f: Flow, peerReady: bool, peer: Option<Desktop>) {
    && UsualRole(n, f) && NoCrossing(n.sent, f.n.sent)
    && (f.More? ==> SameView(n.(peerReady := peerReady, peer := peer), f.n) && NoNews(n.sent, f.n.sent))
  }

  lemma StatusTurns(n: Node, unlocked: bool)
    ensures NotesLock(n, OnStatus(n, unlocked), unlocked)
  {
    hide LeaveRole, Injection.LocalLock, LeavesPaper, Letters;
    var locked := Receive(n.(localReady := unlocked), Injection.LocalLock(n.recv, !unlocked));
    if locked.More? {
      var told := Send(locked.n, LockState(!unlocked));
      if told.More? && !unlocked {
        LeaveRoleTurns(Suspended(told.n));
        ToldThenLeaves(n, told.n, LeaveRole(Suspended(told.n)), LockState(!unlocked));
      }
    }
  }

  lemma ToldThenLeaves(n: Node, m: Node, f: Flow, said: Message)
    requires m.sent == n.sent + [said] && m.role == n.role && m.nextSession == n.nextSession
    requires !said.Begin? && !said.End?
    requires Leaves(Suspended(m), f)
    ensures LeavesRole(n, f) && SameView(m, f.n) && Announces(n.sent, f.n.sent, said) && NoCrossing(n.sent, f.n.sent)
  {
    var s := n.role.Session();
    assert f.n.sent[|n.sent|] == said;
    if f.More? && s.Some? {
      var k :| |m.sent| <= k < |f.n.sent| && IsEnd(f.n.sent[k], s.value);
      assert |n.sent| <= k;
    }
  }

  lemma PeerLockTurns(n: Node, env: Env, locked: bool)
    ensures NotesPeer(n, OnPeerLock(n, env, locked), !locked, n.peer)
  {
    hide PeerLockedAway, Injection.PeerLock;
    var noted := Receive(n.(peerReady := !locked), Injection.PeerLock(n.recv, locked));
    if n.padsConfigured && noted.More? && locked {
      PeerLockedAwayTurns(noted.n, env);
      StillThenLeaves(n.(peerReady := !locked), noted.n, PeerLockedAway(noted.n, env));
    }
  }

  lemma PeerLockedAwayTurns(n: Node, env: Env)
    ensures Leaves(n, PeerLockedAway(n, env))
  {
    hide SayEnd, StopCapture, PlaceBack;
    var quiet := Suspended(n);
    SayEndTells(quiet);
    var told := SayEnd(quiet, None);
    StopCaptureStill(told.n);
    var stopped := if n.role.Sending? then StopCapture(told.n) else More(told.n);
    PlaceBackStill(stopped.n, env, n.role, n.localReady);
    StopCaptureStill(GoLocal(PlaceBack(stopped.n, env, n.role, n.localReady).n));
  }

  // ---- Input ----

  lemma SendInputTurns(n: Node, e: InputEvent)
    ensures Keeps(n, SendInput(n, e))
  {
    hide Send;
    if n.role.Sending? {
      SendTurns(n, Input(n.role.session, n.role.sequence, e));
    }
  }

  lemma {:induction false} SendInputsTurns(n: Node, events: seq<InputEvent>)
    ensures Keeps(n, SendInputs(n, events))
    decreases |events|
  {
    hide SendInput;
    if events != [] {
      SendInputsTurns(n, events[..|events| - 1]);
      var before := SendInputs(n, events[..|events| - 1]);
      if before.More? {
        SendInputTurns(before.n, events[|events| - 1]);
        KeepsThen(n, before.n, SendInput(before.n, events[|events| - 1]));
      }
    }
  }

  lemma ForwardKeyboardTurns(n: Node, e: InputEvent)
    ensures Keeps(n, ForwardKeyboard(n, e))
  {
    hide SendInput, Completes;
    SendInputTurns(WithKey(n, e), e);
  }

  lemma EscapeTurns(n: Node, env: Env)
    ensures Leaves(n, Escape(n, env))
  {
    hide SayEnd, StopCapture, PlaceBack;
    SayEndTells(n);
    var told := SayEnd(n, None);
    StopCaptureStill(told.n);
    PlaceBackStill(StopCapture(told.n).n, env, n.role, true);
  }

  lemma ForwardTurns(n: Node, env: Env, e: InputEvent)
    ensures Usual(n, Forward(n, env, e))
  {
    hide ForwardKeyboard, Escape, Completes, Keeps, Leaves;
    ForwardKeyboardTurns(n, e);
    var keyed := ForwardKeyboard(n, e);
    if keyed.More? && Completes(n, e) {
      EscapeTurns(keyed.n, env);
      KeepsThen(n, keyed.n, Escape(keyed.n, env));
    }
  }

  lemma {:induction false} ForwardAllTurns(n: Node, env: Env, events: seq<InputEvent>)
    ensures Usual(n, ForwardAll(n, env, events))
    decreases |events|
  {
    hide Forward, Usual;
    if events == [] {
      NothingTurns(n);
    } else {
      ForwardAllTurns(n, env, events[..|events| - 1]);
      var before := ForwardAll(n, env, events[..|events| - 1]);
      if before.More? {
        ForwardTurns(before.n, env, events[|events| - 1]);
        UsualThen(n, before.n, Forward(before.n, env, events[|events| - 1]));
      }
    }
  }

  lemma NothingTurns(n: Node)
    ensures Usual(n, More(n))
  {
  }

  // ---- The start of an iteration and the tick ----

  lemma PreambleTurns(n: Node, env: Env)
    ensures Usual(n, Preamble(n, env))
  {
    hide Retire, MustRetire, SendInputs, Watching, Usual;
    RetireTurns(n, env);
    NothingTurns(n);
    LeavesIsUsual(n, Retire(n, env));
    var kept := Retired(n, env);
    if kept.More? {
      RoutedTurns(kept.n, env);
      UsualThen(n, kept.n, Routed(kept.n, env));
      var routed := Routed(kept.n, env);
      if routed.More? {
        WatchingTurns(routed.n, env);
        UsualThen(n, routed.n, More(Watching(routed.n, env)));
      }
    }
  }

  lemma LeavesIsUsual(n: Node, f: Flow)
    requires Leaves(n, f)
    ensures Usual(n, f)
  {
  }

  lemma KeepsIsUsual(n: Node, f: Flow)
    requires Keeps(n, f)
    ensures Usual(n, f)
  {
  }

  lemma RoutedTurns(n: Node, env: Env)
    ensures Usual(n, Routed(n, env))
  {
    hide SendInputs;
    var tried := Try(n, RouteFailed);
    if tried.More? {
      SendInputsTurns(tried.n, env.routed);
      StillThenKeeps(n, tried.n, SendInputs(tried.n, env.routed));
    }
  }

  lemma WatchingTurns(n: Node, env: Env)
    ensures Usual(n, More(Watching(n, env)))
  {
    hide MayCapture, Available;
  }

  lemma AbandonTurns(n: Node, p: PendingLayout)
    ensures Keeps(n, Abandon(n, p))
  {
    hide Dropped, Send;
    DroppedStill(n);
    SendTurns(Dropped(n), Layout(Abort(p.id)));
  }

  lemma RefreshTurns(n: Node, env: Env)
    ensures Keeps(n, Refresh(n, env))
  {
    hide Abandon, Sample;
    var polled := Try(n, PollFailed);
    if polled.More? {
      if polled.n.paper.layout.Some? {
        AbandonTurns(polled.n, polled.n.paper.layout.value);
      }
      var current := Expire(polled.n, env);
      if current.More? {
        SampleStill(current.n, env);
      }
    }
  }

  lemma CaptureOverTurns(n: Node, env: Env)
    ensures Usual(n, CaptureOver(n, env))
  {
    hide StopCapture, SayEnd;
    StopCaptureStill(n);
    SayEndTells(StopCapture(n).n);
  }

  lemma BeatTurns(n: Node, env: Env)
    ensures Usual(n, Beat(n, env))
  {
    hide Send;
    SendTurns(n, Ping(n.heartbeat));
  }

  lemma RelayTurns(n: Node, env: Env, keys: seq<InputEvent>)
    ensures Usual(n, Relay(n, env, keys))
  {
    hide ForwardAll, SendInputs, Usual;
    ForwardAllTurns(n, env, keys);
    var typed := ForwardAll(n, env, keys);
    if typed.More? {
      SendInputsTurns(typed.n, env.touch);
      KeepsIsUsual(typed.n, SendInputs(typed.n, env.touch));
      UsualThen(n, typed.n, SendInputs(typed.n, env.touch));
    }
  }

  lemma WatchedTurns(n: Node, env: Env)
    ensures Usual(n, Watched(n, env))
  {
    hide CaptureOver, Beat, Usual;
    CaptureOverTurns(n, env);
    var watched := CaptureOver(n, env);
    if watched.More? {
      BeatTurns(watched.n, env);
      UsualThen(n, watched.n, Beat(watched.n, env));
    }
  }

  lemma ActTurns(n: Node, env: Env, keys: seq<InputEvent>)
    ensures Usual(n, Act(n, env, keys))
  {
    hide TakeOver, Relay, Watched, Usual;
    TakeOverTurns(n);
    LeavesIsUsual(n, TakeOver(n));
    NothingTurns(n);
    var kept := Yielded(n, env);
    if kept.More? {
      RelayTurns(kept.n, env, keys);
      UsualThen(n, kept.n, Relay(kept.n, env, keys));
      var relayed := Relay(kept.n, env, keys);
      if relayed.More? {
        WatchedTurns(relayed.n, env);
        UsualThen(n, relayed.n, Watched(relayed.n, env));
      }
    }
  }

  lemma TickTurns(n: Node, env: Env)
    ensures Usual(n, OnTick(n, env))
  {
    hide Refresh, Act, Usual;
    RefreshTurns(n, env);
    var sampled := Refresh(n, env);
    KeepsIsUsual(n, sampled);
    if sampled.More? {
      DrainedTurns(n, sampled.n);
      ActTurns(Drained(sampled.n), env, sampled.n.keys.pending);
      UsualThen(n, Drained(sampled.n), Act(Drained(sampled.n), env, sampled.n.keys.pending));
    }
  }

  lemma DrainedTurns(n: Node, m: Node)
    requires Usual(n, More(m))
    ensures Usual(n, More(Drained(m)))
  {
  }

  // ---- Beginnings ----

  /** A session of this side begins at this position of its edge: it is the next one, and none ends. */
  predicate Starts(n: Node, f: Flow, index: nat, fraction: real)
    requires index < |n.desktop.edges|
  {
    && n.role.Local? && n.sent <= f.n.sent && Discreet(n, f)
    && (forall k :: |n.sent| <= k < |f.n.sent| ==>
          !f.n.sent[k].End?
          && (f.n.sent[k].Begin? ==>
                f.n.sent[k] == Begin(n.nextSession, Position(n.desktop.edges[index].id, fraction))))
    && (f.More? ==> f.n.role.Sending? && f.n.role.session == n.nextSession
                    && f.n.role.edge == index && f.n.role.fraction == fraction)
  }

  /** What a crossing that the capture worker announces can do: begin a session there, or end one there. */
  predicate Crosses(n: Node, f: Flow, edge: nat, fraction: real) {
    || Usual(n, f)
    || (edge < |n.capture.edges| && n.capture.edges[edge] < |n.desktop.edges|
        && var index := n.capture.edges[edge];
           || Starts(n, f, index, fraction)
           || (n.role.Receiving? && Returns(n, f, Position(n.desktop.edges[index].id, fraction))))
  }

  lemma {:induction false} PressAllTurns(n: Node, events: seq<InputEvent>)
    ensures Keeps(n, PressAll(n, events))
    decreases |events|
  {
    hide ForwardKeyboard;
    if events != [] {
      PressAllTurns(n, events[..|events| - 1]);
      var before := PressAll(n, events[..|events| - 1]);
      if before.More? {
        ForwardKeyboardTurns(before.n, events[|events| - 1]);
        KeepsThen(n, before.n, ForwardKeyboard(before.n, events[|events| - 1]));
      }
    }
  }

  lemma BeginSendingTurns(n: Node, index: nat, fraction: real, held: set<int>)
    requires n.role.Local? && index < |n.desktop.edges|
    ensures Starts(n, BeginSending(n, index, fraction, held), index, fraction)
  {
    hide PressAll, Codes, Presses, LeavesPaper, Letters;
    var begun := Begun(n, index, fraction);
    if begun.More? {
      PressAllTurns(begun.n, Presses(Codes(held)));
    }
  }

  lemma StartSendingTurns(n: Node, env: Env, index: nat, fraction: real)
    requires n.role.Local? && index < |n.desktop.edges|
    ensures Usual(n, StartSending(n, env, index, fraction))
            || Starts(n, StartSending(n, env, index, fraction), index, fraction)
  {
    hide Sample, StopCapture, BeginSending, Keyboard.Emergency, Keyboard.Held;
    SampleStill(n, env);
    SampleKeeps(n, env);
    var sampled := Sample(n, env);
    if sampled.More? {
      var drained := Drained(sampled.n);
      StopCaptureStill(drained);
      BeginSendingTurns(drained, index, fraction, Keyboard.Held(sampled.n.keys.devices));
    }
  }

  lemma StartedTurns(n: Node, env: Env, edge: nat, fraction: real)
    ensures Crosses(n, OnStarted(n, env, edge, fraction), edge, fraction)
  {
    hide StartSending, Return, StopCapture, ActiveEdges;
    if edge < |n.capture.edges| && n.capture.edges[edge] < |n.desktop.edges| {
      var index := n.capture.edges[edge];
      var seen := n.(capture := n.capture.(started := true));
      StopCaptureStill(seen);
      if n.role.Local? {
        StartSendingTurns(seen, env, index, fraction);
      } else if n.role.Receiving? {
        ReturnTurns(seen, env, index, fraction);
      }
    }
  }

  lemma CaptureTurns(n: Node, env: Env, generation: nat, report: Report)
    ensures var f := OnCapture(n, env, generation, report);
            if report.Started? && generation == n.capture.generation && n.capture.live
            then Crosses(n, f, report.edge, report.fraction) else Usual(n, f)
  {
    hide OnStarted, SendInput, OnFinished;
    match report
    case Started(edge, fraction) => StartedTurns(n, env, edge, fraction);
    case Captured(e) => SendInputTurns(n, e);
    case Finished(escape) => FinishedTurns(n, env, escape);
    case Armed =>
    case Ready =>
  }

  /** The answer to a beginning: accepted silently, or refused by an end. */
  predicate Answers(n: Node, f: Flow, s: nat) {
    && Discreet(n, f) && OnlyEnds(n.sent, f.n.sent, Some(s))
    && (f.More? ==>
          || (n.role.Local? && f.n.role == Receiving(s) && f.n.sent == n.sent)
          || (SameRole(n.role, f.n.role) && EndSaid(n.sent, f.n.sent, s)))
  }

  lemma AcceptTurns(n: Node, env: Env, session: nat, edge: nat, fraction: real)
    ensures var f := Accept(n, env, session, edge, fraction);
            f.n.sent == n.sent && SameView(n, f.n) && (f.More? ==> f.n.role == Receiving(session))
  {
    hide Place, Injection.Begin;
    PlaceStill(n.(recv := Injection.Begin(n.recv, session).r), env, edge, fraction);
  }

  lemma RefusalAnswers(n: Node, session: nat)
    ensures Answers(n, Send(n, End(session, None)), session)
  {
    var f := Send(n, End(session, None));
    if f.More? {
      assert IsEnd(f.n.sent[|n.sent|], session);
    }
  }

  lemma BeginTurns(n: Node, env: Env, session: nat, entry: Position)
    ensures Answers(n, OnBegin(n, env, session, entry), session)
  {
    hide Accept, Sample, Send, EdgeNamed, ActiveEdges, OnlyEnds, EndSaid;
    SampleStill(n, env);
    var edge := EdgeNamed(n, entry.edge, Available(n), 0);
    var open := edge.Some? && n.role.Local? && n.BothReady() && n.paper.layout.None?;
    var sampled := if open then Sample(n, env) else More(n);
    NothingSaid(n.sent, Some(session));
    if sampled.More? {
      if open {
        AcceptTurns(sampled.n, env, session, edge.value, entry.fraction);
      }
      RefusalAnswers(sampled.n, session);
    }
  }

  /** Taking an end: the session it names is over without a word. */
  predicate EndsFor(n: Node, f: Flow, s: nat) {
    && f.n.sent == n.sent && SameView(n, f.n)
    && (f.More? ==> if n.role.Session() == Some(s) then f.n.role.Local? else f.n.role == n.role)
  }

  lemma ComeBackStill(n: Node, env: Env, before: Role, exit: Option<Position>)
    ensures Still(n, ComeBack(n, env, before, exit))
  {
    hide Place, EdgeNamed, ActiveEdges;
    if before.Sending? {
      PlaceStill(n, env, before.edge, before.fraction);
      if exit.Some? {
        var named := EdgeNamed(n, exit.value.edge, Indices(|n.desktop.edges|), 0);
        if named.Some? {
          PlaceStill(n, env, named.value, exit.value.fraction);
        }
      }
    }
  }

  lemma EndTurns(n: Node, env: Env, session: nat, exit: Option<Position>)
    ensures EndsFor(n, OnEnd(n, env, session, exit), session)
  {
    hide Injection.End, StopCapture, ComeBack;
    var ended := Receive(n, Injection.End(n.recv, session));
    StopCaptureStill(ended.n);
    ComeBackStill(StopCapture(ended.n).n, env, n.role, exit);
  }

  lemma InputTurns(n: Node, env: Env, session: nat, sequence: nat, e: InputEvent)
    ensures Usual(n, OnInput(n, env, session, sequence, e))
  {
    hide Sample, TakeOver, Injection.Input;
    SampleStill(n, env);
    var sampled := Sample(n, env);
    if sampled.More? {
      TakeOverTurns(sampled.n);
      StillThenLeaves(n, sampled.n, TakeOver(sampled.n));
      ReceiveStill(sampled.n, Injection.Input(sampled.n.recv, session, sequence, e));
    }
  }

  // ---- Changing the layout ----

  lemma PrepareTurns(n: Node, env: Env, id: nat, edges: seq<EdgeConfig>, revision: Document)
    ensures Usual(n, OnPrepare(n, env, id, edges, revision))
  {
    hide Cleared, CanPrepare, Send, Keeps, Leaves;
    SendTurns(n, Layout(Prepared(id, false)));
    ClearedTurns(n);
    var cleared := Cleared(n);
    if cleared.More? {
      PreparedLeaves(n, cleared.n, id, edges, false, []);
      SendTurns(WithPrepared(cleared.n, id, edges, false, []), Layout(Prepared(id, true)));
      LeavesThen(n, WithPrepared(cleared.n, id, edges, false, []),
                 Send(WithPrepared(cleared.n, id, edges, false, []), Layout(Prepared(id, true))));
    }
  }

  lemma PreparedLeaves(n: Node, m: Node, id: nat, edges: seq<EdgeConfig>, mine: bool, peerEdges: seq<EdgeConfig>)
    requires Leaves(n, More(m))
    ensures Leaves(n, More(WithPrepared(m, id, edges, mine, peerEdges)))
  {
  }

  lemma ProposeTurns(n: Node, id: nat, r: LayoutRequest)
    ensures Usual(n, Propose(n, id, r))
  {
    hide Send;
    var drawn := Try(n, NoTransaction);
    SendTurns(WithPrepared(drawn.n, id, r.localEdges, true, r.peerEdges),
              Layout(Prepare(id, r.peerEdges, r.peerRevision)));
  }

  lemma ApplyTurns(n: Node, env: Env, r: LayoutRequest)
    ensures Usual(n, OnApply(n, env, r))
  {
    hide Cleared, CanApply, Propose, Leaves;
    ClearedTurns(n);
    LeavesIsUsual(n, Cleared(n));
    var cleared := Cleared(n);
    if cleared.More? {
      ProposeTurns(cleared.n, env.id, r);
      LeavesThen(n, cleared.n, Propose(cleared.n, env.id, r));
    }
  }

  lemma CommittedStill(n: Node, env: Env, p: PendingLayout)
    ensures Still(n, More(Committed(n, env, p).0))
  {
  }

  lemma PreparedTurns(n: Node, env: Env, p: PendingLayout, ok: bool)
    ensures Keeps(n, OnPrepared(n, env, p, ok))
  {
    hide Abandon, Send, Committed;
    CommittedStill(n, env, p);
    var (tried, written) := if ok then Committed(n, env, p) else (n, false);
    AbandonTurns(tried, p);
    SendTurns(tried, Layout(Commit(p.id)));
  }

  lemma CommitTurns(n: Node, env: Env, p: PendingLayout)
    ensures Keeps(n, OnCommit(n, env, p))
  {
    hide Dropped, Send, Committed;
    CommittedStill(n, env, p);
    var tried := Committed(n, env, p).0;
    DroppedStill(tried);
    SendTurns(Finish(tried, p.(committed := true)), Layout(Result(p.id, true, Some(p.next))));
    SendTurns(Dropped(tried), Layout(Result(p.id, false, None)));
  }

  lemma LayoutTurns(n: Node, env: Env, m: LayoutMessage)
    ensures Usual(n, OnLayout(n, env, m))
  {
    hide OnPrepare, OnPrepared, OnCommit, OnResult, Dropped, Keeps, Leaves;
    NothingTurns(n);
    match m
    case Prepare(id, edges, revision) => PrepareTurns(n, env, id, edges, revision);
    case Prepared(id, ok) =>
      if Concerns(n, id) {
        PreparedTurns(n, env, n.paper.layout.value, ok);
      }
    case Commit(id) =>
      if Concerns(n, id) {
        CommitTurns(n, env, n.paper.layout.value);
      }
    case Result(id, ok, adopted) =>
      if Concerns(n, id) {
        ResultTurns(n, n.paper.layout.value, ok, adopted);
      }
    case Abort(id) =>
      if Concerns(n, id) {
        AbortTurns(n);
      }
  }

  lemma ResultTurns(n: Node, p: PendingLayout, ok: bool, adopted: Option<Document>)
    ensures Keeps(n, OnResult(n, p, ok, adopted))
  {
    hide Dropped;
    DroppedStill(n);
  }

  lemma AbortTurns(n: Node)
    requires n.paper.layout.Some?
    ensures Keeps(n, More(RepliedIf(Dropped(n), n.paper.layout.value.mine, NotApplied)))
  {
    hide Dropped;
    DroppedStill(n);
  }

  // ---- The branches together ----

  /** What an event does to what each side knows of the other's lock and desktop. */
  predicate News(n: Node, f: Flow, ev: Event) {
    match ev
    case StatusChanged(unlocked) => NotesLock(n, f, unlocked)
    case OutputsChanged(outputs) => NotesOutputs(n, f, outputs)
    case Received(LockState(locked)) => NotesPeer(n, f, !locked, n.peer)
    case Received(DesktopInfo(info)) => NotesPeer(n, f, n.peerReady, Some(info))
    case CaptureEvent(generation, Started(edge, fraction)) =>
      if generation == n.capture.generation && n.capture.live then Crosses(n, f, edge, fraction) else Usual(n, f)
    case _ => Usual(n, f)
  }

  ghost predicate Turned(n: Node, f: Flow, ev: Event) {
    if ev.Received? && ev.message.Begin? then Answers(n, f, ev.message.session)
    else if ev.Received? && ev.message.End? then EndsFor(n, f, ev.message.session)
    else News(n, f, ev)
  }

  /** Whatever a branch does, what it says about sessions fits the role it leaves; and what it says about the lock and
      the desktop is what the event changed of them. */
  lemma BranchTurns(n: Node, env: Env, ev: Event)
    ensures Turned(n, Branch(n, env, ev), ev)
  {
    hide OnOutputs, OnRelease, OnApply, OnStatus, OnTick, OnCapture, OnMessage, Usual, Crosses, Answers, EndsFor, Send,
         NotesLock, NotesOutputs, NotesPeer;
    NothingTurns(n);
    match ev
    case Exit => HaltTurns(n, ExitSignal);
    case OutputsChanged(outputs) => OutputsTurns(n, outputs);
    case ReleaseCommand =>
      ReleaseTurns(n, env);
      LeavesIsUsual(n, OnRelease(n, env));
    case ApplyCommand(request) => ApplyTurns(n, env, request);
    case StatusQuery =>
    case StatusChanged(unlocked) => StatusTurns(n, unlocked);
    case StatusClosed => HaltTurns(n, StatusLost);
    case Tick => TickTurns(n, env);
    case CaptureEvent(generation, report) => CaptureTurns(n, env, generation, report);
    case Received(message) => MessageTurns(n, env, message);
    case LinkClosed => HaltTurns(n, PeerLost);
  }

  lemma HaltTurns(n: Node, why: Reason)
    ensures Usual(n, Halt(n, why))
  {
  }

  lemma OutputsTurns(n: Node, outputs: set<string>)
    ensures NotesOutputs(n, OnOutputs(n, outputs), outputs)
  {
    hide LeavesPaper, Letters;
  }

  lemma MessageTurns(n: Node, env: Env, m: Message)
    ensures Turned(n, OnMessage(n, env, m), Received(m))
  {
    hide OnLayout, OnBegin, OnInput, OnEnd, OnPeerLock, OnTouchpads, Send, Answers, EndsFor;
    match m
    case Layout(letter) => LayoutTurns(n, env, letter);
    case Begin(session, entry) => BeginTurns(n, env, session, entry);
    case Input(session, sequence, event) => InputTurns(n, env, session, sequence, event);
    case End(session, exit) => EndTurns(n, env, session, exit);
    case LockState(locked) => PeerLockTurns(n, env, locked);
    case Ping(nonce) => SendTurns(n, Pong(nonce));
    case Touchpads(count) => TouchpadsTurns(n, count);
    case _ =>
  }

  lemma TouchpadsTurns(n: Node, count: nat)
    ensures Usual(n, OnTouchpads(n, count))
  {
  }

  // ---- One iteration as a whole ----

  lemma EndSaidLater(was: seq<Message>, mid: seq<Message>, now: seq<Message>, s: nat)
    requires was <= mid <= now && EndSaid(mid, now, s)
    ensures EndSaid(was, now, s)
  {
    var k :| |mid| <= k < |now| && IsEnd(now[k], s);
    assert |was| <= k;
  }

  /** A receiver stays one until it says the end of the session or is told it. */
  lemma StaysReceiving(n: Node, env: Env, ev: Event, s: nat)
    requires n.role == Receiving(s) && Step(n, env, ev).More?
    ensures var f := Step(n, env, ev);
            f.n.role == Receiving(s) || EndSaid(n.sent, f.n.sent, s) || (ev.Received? && IsEnd(ev.message, s))
  {
    hide Preamble, Branch, OnlyEnds, EndSaid;
    PreambleTurns(n, env);
    var ready := Preamble(n, env);
    BranchTurns(ready.n, env, ev);
    var f := Branch(ready.n, env, ev);
    if ready.n.role == Receiving(s) {
      if f.n.role != Receiving(s) && !(ev.Received? && IsEnd(ev.message, s)) {
        EndSaidLater(n.sent, ready.n.sent, f.n.sent, s);
      }
    } else {
      EndStaysSaid(n.sent, ready.n.sent, f.n.sent, s);
    }
  }

  /** A sender stays one only while nothing about its session is said or taken, but for refusing one of the same
      number. */
  lemma StaysSending(n: Node, env: Env, ev: Event, s: nat)
    requires Step(n, env, ev).More? && n.role.Sending? && n.role.session == s < n.nextSession
    requires var f := Step(n, env, ev); f.n.role.Sending? && f.n.role.session == s
    ensures Preamble(n, env).More?
    ensures !(ev.Received? && IsEnd(ev.message, s))
    ensures var f, ready := Step(n, env, ev), Preamble(n, env);
            forall k :: |n.sent| <= k < |f.n.sent| && IsEnd(f.n.sent[k], s) ==>
              |ready.n.sent| <= k && ev.Received? && IsBegin(ev.message, s)
  {
    hide Preamble, Branch;
    PreambleTurns(n, env);
    var ready := Preamble(n, env);
    BranchTurns(ready.n, env, ev);
    var f := Branch(ready.n, env, ev);
    SaidBefore(n.sent, ready.n.sent, f.n.sent);
  }

  /** A session that is new after an iteration is the next one, and no end of it was said. */
  lemma NewlySending(n: Node, env: Env, ev: Event, s: nat)
    requires Step(n, env, ev).More? && !(n.role.Sending? && n.role.session == s)
    requires var f := Step(n, env, ev); f.n.role.Sending? && f.n.role.session == s
    ensures s == n.nextSession && Preamble(n, env).More? && !ev.Received?
    ensures n.sent <= Preamble(n, env).n.sent <= Step(n, env, ev).n.sent
    ensures n.role.Session().Some? ==> EndSaid(n.sent, Step(n, env, ev).n.sent, n.role.Session().value)
    ensures var f, ready := Step(n, env, ev), Preamble(n, env);
            && ready.n.role.Local?
            && forall k :: |ready.n.sent| <= k < |f.n.sent| ==> !IsEnd(f.n.sent[k], s)
    ensures var ready := Preamble(n, env);
            forall k :: |n.sent| <= k < |ready.n.sent| ==> !IsBegin(ready.n.sent[k], s)
  {
    hide Preamble, Branch;
    PreambleTurns(n, env);
    var ready := Preamble(n, env);
    BranchTurns(ready.n, env, ev);
    if n.role.Session().Some? {
      EndStaysSaid(n.sent, ready.n.sent, Branch(ready.n, env, ev).n.sent, n.role.Session().value);
    }
  }

  /** Becoming a receiver takes that session's beginning, and nothing else is said in that part of the iteration. */
  lemma NewlyReceiving(n: Node, env: Env, ev: Event, s: nat)
    requires Step(n, env, ev).More? && Step(n, env, ev).n.role == Receiving(s)
    ensures Preamble(n, env).More?
    ensures var f, ready := Step(n, env, ev), Preamble(n, env);
            || (n.role == Receiving(s) && ready.n.role == Receiving(s)
                && forall k :: |n.sent| <= k < |f.n.sent| && IsEnd(f.n.sent[k], s) ==>
                     |ready.n.sent| <= k && ev.Received? && IsBegin(ev.message, s))
            || (ev.Received? && IsBegin(ev.message, s) && ready.n.role.Local? && f.n.sent == ready.n.sent)
  {
    hide Preamble, Branch;
    PreambleTurns(n, env);
    var ready := Preamble(n, env);
    BranchTurns(ready.n, env, ev);
    var f := Branch(ready.n, env, ev);
    SaidBefore(n.sent, ready.n.sent, f.n.sent);
  }

  lemma SaidBefore(was: seq<Message>, mid: seq<Message>, now: seq<Message>)
    requires was <= mid <= now
    ensures forall k :: |was| <= k < |mid| ==> now[k] == mid[k]
  {
  }

  /** A beginning that is taken is accepted or refused. */
  lemma TakenBeginning(n: Node, env: Env, ev: Event, s: nat)
    requires Step(n, env, ev).More? && ev.Received? && IsBegin(ev.message, s)
    ensures Preamble(n, env).More?
    ensures var f, ready := Step(n, env, ev), Preamble(n, env);
            f.n.role == Receiving(s) || EndSaid(ready.n.sent, f.n.sent, s)
  {
    hide Preamble, Branch, OnlyEnds, EndSaid;
    var ready := Preamble(n, env);
    BranchTurns(ready.n, env, ev);
  }

  /** An end that is said ends the session of the role at that moment, or refuses a beginning just taken. */
  lemma EndsSaid(n: Node, env: Env, ev: Event, s: nat, k: nat)
    requires |n.sent| <= k < |Step(n, env, ev).n.sent| && IsEnd(Step(n, env, ev).n.sent[k], s)
    ensures var ready := Preamble(n, env);
            && n.sent <= ready.n.sent <= Step(n, env, ev).n.sent
            && if k < |ready.n.sent| || ready.Halt? then n.role.Session() == Some(s)
               else (SameRole(n.role, ready.n.role) && ready.n.role.Session() == Some(s))
                    || (ev.Received? && IsBegin(ev.message, s))
  {
    hide Preamble, Branch;
    PreambleTurns(n, env);
    var ready := Preamble(n, env);
    if ready.More? {
      BranchTurns(ready.n, env, ev);
      var f := Branch(ready.n, env, ev);
      assert k < |ready.n.sent| ==> f.n.sent[k] == ready.n.sent[k];
    }
  }
}
