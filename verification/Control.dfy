// When sharing begins and ends, exactly, and where the pointer is put then (src/bridge.rs).
module Control {
  import opened ControlSafety
  import opened Coordination
  import opened Geometry
  import opened Injection
  import opened Ordered
  import opened Protocol
  import opened Speech
  import opened Turns
  import Keyboard

  // ---- Edges ----

  /** The edges over which the pointer may leave: those that have an output here and lead to an edge of the same name
      that has an output there. */
  lemma {:induction false} AvailableExactly(local: Desktop, peer: Option<Desktop>, upTo: nat)
    requires upTo <= |local.edges|
    ensures forall i: nat :: i in ActiveEdges(local, peer, upTo)
              <==> i < upTo && local.edges[i].output in local.outputs && peer.Some?
                   && exists j :: 0 <= j < |peer.value.edges| && peer.value.edges[j].id == local.edges[i].id
                                  && peer.value.edges[j].output in peer.value.outputs
    decreases upTo
  {
    if upTo > 0 {
      AvailableExactly(local, peer, upTo - 1);
    }
  }

  /** The edge found for a name is the first available one that bears it. */
  lemma {:induction false} EdgeNamedIsFirst(n: Node, id: string, available: seq<nat>, from: nat)
    requires from <= |n.desktop.edges|
    ensures var edge := EdgeNamed(n, id, available, from);
            match edge
            case Some(i) =>
              && from <= i < |n.desktop.edges| && n.desktop.edges[i].id == id && i in available
              && forall k: nat :: from <= k < i ==> !(n.desktop.edges[k].id == id && k in available)
            case None =>
              forall k: nat :: from <= k < |n.desktop.edges| ==> !(n.desktop.edges[k].id == id && k in available)
    decreases |n.desktop.edges| - from
  {
    if from < |n.desktop.edges| {
      EdgeNamedIsFirst(n, id, available, from + 1);
    }
  }

  // ---- Positions that are said ----

  /** The capture worker in charge announces in this iteration that the pointer crossed there. */
  predicate CrossedThere(n: Node, env: Env, ev: Event, at: Position) {
    && Preamble(n, env).More? && ev.CaptureEvent? && ev.report.Started?
    && var ready := Preamble(n, env).n;
       && ev.generation == ready.capture.generation && ready.capture.live
       && ev.report.edge < |ready.capture.edges| && ready.capture.edges[ev.report.edge] < |ready.desktop.edges|
       && at == Position(ready.desktop.edges[ready.capture.edges[ev.report.edge]].id, ev.report.fraction)
  }

  /** A position that is said, with the beginning of a session or its end, is that of the crossing just announced: the
      name of the edge and the fraction of its span. */
  lemma PositionsAreCrossings(n: Node, env: Env, ev: Event, k: nat)
    requires |n.sent| <= k < |Step(n, env, ev).n.sent|
    ensures var m := Step(n, env, ev).n.sent[k];
            && (m.Begin? ==> CrossedThere(n, env, ev, m.entry))
            && (m.End? && m.exit.Some? ==> CrossedThere(n, env, ev, m.exit.value))
  {
    hide Preamble, Branch, EndSaid;
    PreambleTurns(n, env);
    var ready := Preamble(n, env);
    if ready.More? {
      BranchTurns(ready.n, env, ev);
      var f := Branch(ready.n, env, ev);
      assert k < |ready.n.sent| ==> f.n.sent[k] == ready.n.sent[k];
    }
  }

  // ---- Where the pointer is put ----

  /** The backend has since placed the pointer at this fraction of this edge, on its output, and done nothing else; or
      just nothing. */
  ghost predicate Put(n: Node, after: Node, env: Env, at: Option<(nat, real)>) {
    match at
    case None => after.recv.sink.log == n.recv.sink.log && after.recv.sink.output == n.recv.sink.output
    case Some((index, fraction)) =>
      && index < |n.desktop.edges| && Placement(env.outputs, n.desktop.edges[index], fraction).Ok?
      && after.recv.sink.log == n.recv.sink.log + [Placement(env.outputs, n.desktop.edges[index], fraction).value]
      && after.recv.sink.output == n.desktop.edges[index].output
  }

  lemma PlacePuts(n: Node, env: Env, index: nat, fraction: real)
    ensures var f := Place(n, env, index, fraction);
            && f.n == n.(recv := f.n.recv) && f.n.recv.session == n.recv.session && f.n.recv.pending == n.recv.pending
            && (f.More? ==> Put(n, f.n, env, Some((index, fraction))))
  {
    hide Placement, InputEvent.Valid, LeavesPaper, Letters, Effect;
  }

  /** Where the pointer left, if it comes back. */
  function Home(role: Role, allowed: bool): Option<(nat, real)> {
    if role.Sending? && allowed then Some((role.edge, role.fraction)) else None
  }

  lemma PlaceBackPuts(n: Node, env: Env, role: Role, allowed: bool)
    ensures var f := PlaceBack(n, env, role, allowed);
            f.n == n.(recv := f.n.recv) && (f.More? ==> Put(n, f.n, env, Home(role, allowed)))
  {
    hide Place, Put;
    if role.Sending? && allowed {
      PlacePuts(n, env, role.edge, role.fraction);
    } else {
      NothingPut(n, env);
    }
  }

  lemma NothingPut(n: Node, env: Env)
    ensures Put(n, n, env, None)
  {
  }

  /** Steps before that leave the receiver and the desktop alone do not matter. */
  lemma PutAfter(n: Node, m: Node, after: Node, env: Env, at: Option<(nat, real)>)
    requires Put(m, after, env, at) && m.recv.sink.log == n.recv.sink.log && m.desktop == n.desktop
    requires m.recv.sink.output == n.recv.sink.output
    ensures Put(n, after, env, at)
  {
    hide Placement;
  }

  /** Nothing but what was said, the luck and the capture differs. */
  predicate Aside(n: Node, after: Node) {
    after == n.(sent := after.sent, luck := after.luck, capture := after.capture)
  }

  lemma TellsAside(n: Node, exit: Option<Position>)
    ensures Aside(n, SayEnd(n, exit).n) && Aside(n, StopCapture(n).n)
    ensures StopCapture(n).More? ==> !StopCapture(n).n.capture.live
  {
    hide LeavesPaper, Letters;
  }

  lemma EndSessionAside(n: Node, exit: Option<Position>)
    requires !n.role.Receiving? && n.recv.session.None?
    ensures Aside(n, EndSession(n, exit).n)
  {
    hide Send, LeavesPaper, Letters, Stop;
    if n.role.Session().Some? {
      SendAside(n, End(n.role.Session().value, exit));
    }
  }

  lemma SendAside(n: Node, m: Message)
    ensures Send(n, m).n == n.(sent := Send(n, m).n.sent, luck := Send(n, m).n.luck)
  {
    hide LeavesPaper, Letters;
  }

  /** The sender gives everything back. */
  lemma SurrenderPuts(n: Node, env: Env, allowed: bool)
    requires n.role.Sending? && n.recv.session.None?
    ensures var f := Surrender(n, env, allowed);
            f.More? ==> Put(n, f.n, env, Home(n.role, allowed)) && f.n.role == n.role
  {
    hide EndSession, StopCapture, PlaceBack, Put;
    EndSessionAside(n, None);
    var ended := EndSession(n, None);
    if ended.More? {
      TellsAside(ended.n, None);
      var stopped := StopCapture(ended.n);
      if stopped.More? {
        PlaceBackPuts(stopped.n, env, n.role, allowed);
        if PlaceBack(stopped.n, env, n.role, allowed).More? {
          PutAfter(n, stopped.n, PlaceBack(stopped.n, env, n.role, allowed).n, env, Home(n.role, allowed));
        }
      }
    }
  }

  // ---- The chord among the keys that are forwarded ----

  /** The keys down after some events, if these were down before. */
  function PressedFrom(keys: set<int>, events: seq<InputEvent>): set<int> {
    if events == [] then keys else PressedAfter(PressedFrom(keys, events[..|events| - 1]), events[|events| - 1])
  }

  /** Ctrl, Alt and Shift are among the keys, each from either side, by their key codes. */
  predicate Modifiers(down: set<int>) {
    (29 in down || 97 in down) && (56 in down || 100 in down) && (42 in down || 54 in down)
  }

  /** The event presses Escape while Ctrl, Alt and Shift are down. */
  predicate ChordAt(keys: set<int>, events: seq<InputEvent>, k: nat) {
    && k < |events| && events[k] == KeyInput(1, true)
    && Modifiers(PressedFrom(keys, events[..k + 1]))
  }

  predicate ChordIn(keys: set<int>, events: seq<InputEvent>) {
    exists k: nat :: k < |events| && ChordAt(keys, events, k)
  }

  lemma ChordNext(keys: set<int>, events: seq<InputEvent>)
    requires events != []
    ensures ChordIn(keys, events)
       <==> ChordIn(keys, events[..|events| - 1]) || Chord(PressedFrom(keys, events), events[|events| - 1])
  {
    hide PressedFrom;
    var front := events[..|events| - 1];
    assert events[..|events|] == events;
    forall k: nat | k < |front| ensures ChordAt(keys, events, k) <==> ChordAt(keys, front, k) {
      assert events[..k + 1] == front[..k + 1];
    }
    if ChordIn(keys, front) {
      var k: nat :| k < |front| && ChordAt(keys, front, k);
      assert ChordAt(keys, events, k);
    }
    if Chord(PressedFrom(keys, events), events[|front|]) {
      assert ChordAt(keys, events, |front|);
    }
  }

  /** A sender after some keys: still sending, with the keys noted, or the chord ended the session and the pointer is
      back where it left. */
  ghost predicate Relayed(n: Node, f: Flow, env: Env, events: seq<InputEvent>) {
    f.More? ==>
      && f.n.recv.session == n.recv.session && f.n.desktop == n.desktop
      && if ChordIn(n.sourceKeys, events)
         then f.n.role.Local? && Put(n, f.n, env, Home(n.role, true)) && !f.n.capture.live
         else SameRole(n.role, f.n.role) && Put(n, f.n, env, None)
              && f.n.sourceKeys == PressedFrom(n.sourceKeys, events)
              && f.n.capture == n.capture
  }

  lemma SendInputAside(n: Node, e: InputEvent)
    ensures var f := SendInput(n, e);
            && f.n == n.(sent := f.n.sent, luck := f.n.luck, role := f.n.role)
            && (f.More? ==> SameRole(n.role, f.n.role))
  {
    hide Send;
    if n.role.Sending? {
      SendAside(n, Input(n.role.session, n.role.sequence, e));
    }
  }

  lemma EscapePuts(n: Node, env: Env)
    requires n.role.Sending?
    ensures var f := Escape(n, env);
            f.More? ==> && f.n.role.Local? && Put(n, f.n, env, Home(n.role, true)) && !f.n.capture.live
                        && f.n.recv.session == n.recv.session && f.n.desktop == n.desktop
  {
    hide SayEnd, StopCapture, PlaceBack, Put;
    TellsAside(n, None);
    var told := SayEnd(n, None);
    if told.More? {
      TellsAside(told.n, None);
      var stopped := StopCapture(told.n);
      if stopped.More? {
        PlaceBackPuts(stopped.n, env, n.role, true);
        PlaceBackSession(stopped.n, env, n.role, true);
        if PlaceBack(stopped.n, env, n.role, true).More? {
          PutAfter(n, stopped.n, PlaceBack(stopped.n, env, n.role, true).n, env, Home(n.role, true));
          PutLater(n, PlaceBack(stopped.n, env, n.role, true).n, Escape(n, env).n, env, Home(n.role, true));
        }
      }
    }
  }

  lemma PlaceBackSession(n: Node, env: Env, role: Role, allowed: bool)
    ensures PlaceBack(n, env, role, allowed).n.recv.session == n.recv.session
  {
    hide Place;
    if role.Sending? {
      PlacePuts(n, env, role.edge, role.fraction);
    }
  }

  lemma PutLater(n: Node, m: Node, after: Node, env: Env, at: Option<(nat, real)>)
    requires Put(n, m, env, at) && after.recv.sink.log == m.recv.sink.log
    requires after.recv.sink.output == m.recv.sink.output
    ensures Put(n, after, env, at)
  {
    hide Placement;
  }

  lemma {:induction false} ForwardAllRelays(n: Node, env: Env, events: seq<InputEvent>)
    requires n.role.Sending? && forall i :: 0 <= i < |events| ==> events[i].KeyInput?
    ensures Relayed(n, ForwardAll(n, env, events), env, events)
    decreases |events|
  {
    hide Forward, ChordIn, Put, PressedFrom;
    if events == [] {
      NothingRelayed(n, env);
    } else {
      var front, last := events[..|events| - 1], events[|events| - 1];
      ForwardAllRelays(n, env, front);
      var before := ForwardAll(n, env, front);
      ChordNext(n.sourceKeys, events);
      PressedNext(n.sourceKeys, events);
      if before.More? {
        ForwardRelays(before.n, env, last);
        var f := Forward(before.n, env, last);
        if f.More? {
          if ChordIn(n.sourceKeys, front) {
            PutLater(n, before.n, f.n, env, Home(n.role, true));
          } else if Chord(PressedFrom(n.sourceKeys, events), last) {
            SameHome(n, before.n, f.n, env);
          } else {
            PutLater(n, before.n, f.n, env, None);
          }
        }
      }
    }
  }

  lemma NothingRelayed(n: Node, env: Env)
    ensures !ChordIn(n.sourceKeys, []) && PressedFrom(n.sourceKeys, []) == n.sourceKeys && Put(n, n, env, None)
  {
  }

  lemma PressedNext(keys: set<int>, events: seq<InputEvent>)
    requires events != []
    ensures PressedFrom(keys, events) == PressedAfter(PressedFrom(keys, events[..|events| - 1]), events[|events| - 1])
  {
  }

  lemma SameHome(n: Node, m: Node, after: Node, env: Env)
    requires n.role.Sending? && SameRole(n.role, m.role) && m.desktop == n.desktop
    requires Put(n, m, env, None) && Put(m, after, env, Home(m.role, true))
    ensures Put(n, after, env, Home(n.role, true))
  {
    hide Placement;
  }

  /** One key. */
  lemma ForwardRelays(n: Node, env: Env, e: InputEvent)
    requires e.KeyInput?
    ensures var f := Forward(n, env, e);
            f.More? ==>
              && f.n.recv.session == n.recv.session && f.n.desktop == n.desktop
              && if !n.role.Sending? then f.n == n
                 else if Chord(PressedAfter(n.sourceKeys, e), e)
                 then f.n.role.Local? && Put(n, f.n, env, Home(n.role, true)) && !f.n.capture.live
                 else SameRole(n.role, f.n.role) && f.n.recv == n.recv && f.n.capture == n.capture
                      && f.n.sourceKeys == PressedAfter(n.sourceKeys, e)
  {
    hide SendInput, Escape, Put, LeavesPaper, Letters, Chord;
    if n.role.Sending? {
      var keyed := WithKey(n, e);
      if Completes(n, e) {
        EscapePuts(keyed, env);
        if Escape(keyed, env).More? {
          PutAfter(n, keyed, Escape(keyed, env).n, env, Home(n.role, true));
        }
      } else {
        SendInputAside(keyed, e);
      }
    }
  }

  // ---- When a sender stops ----

  /** The sender goes on; or it has given up the role, with the pointer where this says. */
  ghost predicate Parted(n: Node, f: Flow, env: Env, stops: bool, at: Option<(nat, real)>) {
    f.More? ==>
      if stops then f.n.role.Local? && Put(n, f.n, env, at)
      else SameRole(n.role, f.n.role) && Put(n, f.n, env, None)
  }

  /** A message that concerns the session of this role, or that ends all sharing. */
  predicate MessageStops(n: Node, env: Env, m: Message) {
    match m
    case End(session, _) => n.role.Session() == Some(session)
    case LockState(locked) => locked
    case Layout(Prepare(_, edges, revision)) => CanPrepare(n, env, edges, revision)
    case Input(session, _, _) => n.role == Receiving(session) && env.active
    case _ => false
  }

  /** The keys that a tick reads. */
  function TickKeys(n: Node, env: Env): seq<InputEvent> {
    match Keyboard.AbsorbAll(n.keys, env.changes)
    case Ok(keys) => keys.pending
    case Failed => []
  }

  /** What ends the session of a sender: the user or the session manager, a layout change, the emergency chord among the
      keys that a tick reads, a capture that is over, or the peer. */
  predicate SendingStops(n: Node, env: Env, ev: Event) {
    match ev
    case ReleaseCommand => true
    case StatusChanged(unlocked) => !unlocked
    case ApplyCommand(request) => CanApply(n, env, request)
    case Tick => ChordIn(n.sourceKeys, TickKeys(n, env)) || env.captureDone
    case CaptureEvent(generation, report) => generation == n.capture.generation && report.Finished?
    case Received(message) => MessageStops(n, env, message)
    case _ => false
  }

  /** And where the pointer is put then: back where it left, unless the peer says where it comes back, or nowhere, if
      the computer was locked here, is about to change its layout, or the capture just ended. */
  function PutBackAt(n: Node, env: Env, ev: Event): Option<(nat, real)>
    requires n.role.Sending?
  {
    var home := Some((n.role.edge, n.role.fraction));
    match ev
    case ReleaseCommand => home
    case Tick => if ChordIn(n.sourceKeys, TickKeys(n, env)) then home else None
    case CaptureEvent(_, Finished(escape)) => if escape then home else None
    case Received(LockState(_)) => home
    case Received(End(_, exit)) =>
      (match exit
       case None => home
       case Some(at) =>
         match EdgeNamed(n, at.edge, Indices(|n.desktop.edges|), 0)
         case Some(index) => Some((index, at.fraction))
         case None => None)
    case _ => None
  }

  lemma ReleaseParts(n: Node, env: Env)
    requires n.role.Sending? && n.recv.session.None?
    ensures Parted(n, OnRelease(n, env), env, true, Home(n.role, true))
  {
    hide Surrender, Put;
    SurrenderPuts(n, env, true);
    var placed := Surrender(n, env, true);
    if placed.More? {
      PutLater(n, placed.n, OnRelease(n, env).n, env, Home(n.role, true));
    }
  }

  lemma ClearedParts(n: Node, env: Env)
    requires n.role.Sending? && n.recv.session.None?
    ensures var f := Cleared(n); f.More? ==> f.n.role.Local? && f.n.recv == n.recv && f.n.desktop == n.desktop
  {
    hide EndSession, StopCapture;
    EndSessionAside(n, None);
    var ended := EndSession(n, None);
    if ended.More? {
      TellsAside(ended.n, None);
    }
  }

  lemma LeaveRoleParts(n: Node)
    ensures var f := LeaveRole(n); f.More? ==> f.n.role.Local? && f.n.recv == n.recv && f.n.desktop == n.desktop
  {
    hide SayEnd, StopCapture;
    TellsAside(n, None);
    var told := SayEnd(n, None);
    if told.More? {
      TellsAside(GoLocal(told.n), None);
    }
  }

  /** With nothing held and nothing owed, a lock notification makes the backend do nothing but reset its touchpads. */
  lemma LockQuiet(r: Receiver, locked: bool)
    requires Calm(r) && r.session.None?
    ensures LocalLock(r, locked).r.sink.log == r.sink.log && PeerLock(r, locked).r.sink.log == r.sink.log
    ensures LocalLock(r, locked).r.sink.output == PeerLock(r, locked).r.sink.output == r.sink.output
    ensures LocalLock(r, locked).r.session.None? && PeerLock(r, locked).r.session.None?
  {
    NoCodes();
    assert r.pending + {} == {} && r.pending + r.state.held == {};
  }

  lemma StatusParts(n: Node, env: Env, unlocked: bool)
    requires Core(n) && n.role.Sending?
    ensures Parted(n, OnStatus(n, unlocked), env, !unlocked, None)
  {
    hide Injection.LocalLock, LeaveRole, Calm, LeavesPaper, Letters;
    LockQuiet(n.recv, !unlocked);
    var locked := Receive(n.(localReady := unlocked), Injection.LocalLock(n.recv, !unlocked));
    if locked.More? {
      var told := Send(locked.n, LockState(!unlocked));
      SendAside(locked.n, LockState(!unlocked));
      if told.More? {
        LeaveRoleParts(Suspended(told.n));
      }
    }
  }

  lemma ApplyParts(n: Node, env: Env, r: LayoutRequest)
    requires n.role.Sending? && n.recv.session.None?
    ensures Parted(n, OnApply(n, env, r), env, CanApply(n, env, r), None)
  {
    hide Cleared, CanApply, LeavesPaper, Letters;
    ClearedParts(n, env);
    var cleared := Cleared(n);
    if CanApply(n, env, r) && cleared.More? {
      var drawn := Try(cleared.n, NoTransaction);
      SendAside(WithPrepared(drawn.n, env.id, r.localEdges, true, r.peerEdges),
                Layout(Prepare(env.id, r.peerEdges, r.peerRevision)));
    }
  }

  lemma PrepareParts(n: Node, env: Env, id: nat, edges: seq<EdgeConfig>, revision: Document)
    requires n.role.Sending? && n.recv.session.None?
    ensures Parted(n, OnPrepare(n, env, id, edges, revision), env, CanPrepare(n, env, edges, revision), None)
  {
    hide Cleared, CanPrepare, Send, LeavesPaper, Letters;
    ClearedParts(n, env);
    SendAside(n, Layout(Prepared(id, false)));
    var cleared := Cleared(n);
    if cleared.More? {
      SendAside(WithPrepared(cleared.n, id, edges, false, []), Layout(Prepared(id, true)));
    }
  }

  lemma FinishedParts(n: Node, env: Env, escape: bool)
    requires n.role.Sending? && n.recv.session.None? && n.localReady
    ensures Parted(n, OnFinished(n, env, escape), env, true, Home(n.role, escape))
  {
    hide EndSession, StopCapture, PlaceBack, Put;
    EndSessionAside(n, None);
    var ended := EndSession(n, None);
    if ended.More? {
      TellsAside(GoLocal(ended.n), None);
      var stopped := StopCapture(GoLocal(ended.n));
      if stopped.More? {
        PlaceBackPuts(stopped.n, env, n.role, escape);
        if PlaceBack(stopped.n, env, n.role, escape).More? {
          PutAfter(n, stopped.n, PlaceBack(stopped.n, env, n.role, escape).n, env, Home(n.role, escape));
        }
      }
    }
  }

  lemma PeerLockParts(n: Node, env: Env, locked: bool)
    requires Core(n) && n.role.Sending?
    ensures Parted(n, OnPeerLock(n, env, locked), env, locked, Home(n.role, true))
  {
    hide Injection.PeerLock, PeerLockedAway, Calm, Put;
    LockQuiet(n.recv, locked);
    var noted := Receive(n.(peerReady := !locked), Injection.PeerLock(n.recv, locked));
    if n.padsConfigured && noted.More? {
      NothingPut(n, env);
      if locked {
        LockedAwayParts(noted.n, env);
        if PeerLockedAway(noted.n, env).More? {
          PutAfter(n, noted.n, PeerLockedAway(noted.n, env).n, env, Home(n.role, true));
        }
      } else {
        PutLater(n, n, noted.n, env, None);
      }
    }
  }

  lemma LockedAwayParts(n: Node, env: Env)
    requires n.role.Sending? && n.localReady
    ensures var f := PeerLockedAway(n, env); f.More? ==> f.n.role.Local? && Put(n, f.n, env, Home(n.role, true))
  {
    hide SayEnd, StopCapture, PlaceBack, Put;
    var quiet := Suspended(n);
    TellsAside(quiet, None);
    var told := SayEnd(quiet, None);
    if told.More? {
      TellsAside(told.n, None);
      var stopped := StopCapture(told.n);
      if stopped.More? {
        PlaceBackPuts(stopped.n, env, n.role, true);
        var placed := PlaceBack(stopped.n, env, n.role, true);
        if placed.More? {
          PutAfter(n, stopped.n, placed.n, env, Home(n.role, true));
          TellsAside(GoLocal(placed.n), None);
          PutLater(n, placed.n, PeerLockedAway(n, env).n, env, Home(n.role, true));
        }
      }
    }
  }

  lemma EndParts(n: Node, env: Env, session: nat, exit: Option<Position>)
    requires n.role.Sending? && n.recv.session.None? && n.localReady
    ensures Parted(n, OnEnd(n, env, session, exit), env, n.role.session == session,
                   PutBackAt(n, env, Received(End(0, exit))))
  {
    hide StopCapture, ComeBack, Put, Stop, PutBackAt, LeavesPaper, Letters;
    NothingPut(n, env);
    if n.role.session == session {
      TellsAside(n, None);
      var stopped := StopCapture(n);
      if stopped.More? {
        ComeBackPuts(n, stopped.n, env, exit);
        if ComeBack(stopped.n, env, n.role, exit).More? {
          PutLater(n, ComeBack(stopped.n, env, n.role, exit).n, OnEnd(n, env, session, exit).n, env,
                   PutBackAt(n, env, Received(End(0, exit))));
        }
      }
    }
  }

  lemma ComeBackPuts(n: Node, m: Node, env: Env, exit: Option<Position>)
    requires n.role.Sending? && n.localReady && Aside(n, m)
    ensures var f := ComeBack(m, env, n.role, exit);
            f.More? ==> Put(n, f.n, env, PutBackAt(n, env, Received(End(0, exit))))
  {
    hide Place, EdgeNamed, ActiveEdges, Put;
    SameEdgeNamed(n, m);
    if exit.None? {
      PlacePuts(m, env, n.role.edge, n.role.fraction);
      if Place(m, env, n.role.edge, n.role.fraction).More? {
        PutAfter(n, m, Place(m, env, n.role.edge, n.role.fraction).n, env, Some((n.role.edge, n.role.fraction)));
      }
    } else {
      var named := EdgeNamed(m, exit.value.edge, Indices(|m.desktop.edges|), 0);
      if named.Some? {
        PlacePuts(m, env, named.value, exit.value.fraction);
        if Place(m, env, named.value, exit.value.fraction).More? {
          PutAfter(n, m, Place(m, env, named.value, exit.value.fraction).n, env,
                   Some((named.value, exit.value.fraction)));
        }
      }
    }
  }

  lemma SameEdgeNamed(n: Node, m: Node)
    requires m.desktop == n.desktop
    ensures forall id, available, from: nat :: from <= |n.desktop.edges| ==>
              EdgeNamed(m, id, available, from) == EdgeNamed(n, id, available, from)
  {
    forall id, available, from: nat | from <= |n.desktop.edges|
      ensures EdgeNamed(m, id, available, from) == EdgeNamed(n, id, available, from)
    {
      SameEdgeFrom(n, m, id, available, from);
    }
  }

  lemma {:induction false} SameEdgeFrom(n: Node, m: Node, id: string, available: seq<nat>, from: nat)
    requires m.desktop == n.desktop && from <= |n.desktop.edges|
    ensures EdgeNamed(m, id, available, from) == EdgeNamed(n, id, available, from)
    decreases |n.desktop.edges| - from
  {
    if from < |n.desktop.edges| {
      SameEdgeFrom(n, m, id, available, from + 1);
    }
  }

  lemma {:induction false} SendInputsAside(n: Node, events: seq<InputEvent>)
    ensures var f := SendInputs(n, events);
            && f.n == n.(sent := f.n.sent, luck := f.n.luck, role := f.n.role)
            && (f.More? ==> SameRole(n.role, f.n.role))
    decreases |events|
  {
    hide SendInput;
    if events != [] {
      SendInputsAside(n, events[..|events| - 1]);
      var before := SendInputs(n, events[..|events| - 1]);
      if before.More? {
        SendInputAside(before.n, events[|events| - 1]);
      }
    }
  }

  /** The end of the capture ends a session that is being sent. */
  lemma CaptureOverAside(n: Node, env: Env)
    ensures var f := CaptureOver(n, env);
            && f.n.recv == n.recv && f.n.desktop == n.desktop
            && (f.More? ==> if n.capture.live && env.captureDone && n.role.Sending? then f.n.role.Local?
                            else f.n.role == n.role)
  {
    hide StopCapture, SayEnd;
    TellsAside(n, None);
    TellsAside(StopCapture(n).n, None);
  }

  lemma WatchedAside(n: Node, env: Env)
    ensures var f := Watched(n, env);
            && f.n.recv == n.recv && f.n.desktop == n.desktop
            && (f.More? ==> if n.capture.live && env.captureDone && n.role.Sending? then f.n.role.Local?
                            else f.n.role == n.role)
  {
    hide CaptureOver, Send, LeavesPaper, Letters;
    CaptureOverAside(n, env);
    var watched := CaptureOver(n, env);
    if watched.More? {
      SendAside(watched.n, Ping(watched.n.heartbeat));
    }
  }

  lemma ActParts(n: Node, env: Env, keys: seq<InputEvent>)
    requires n.role.Sending? && n.capture.live && ValidKeys(keys)
    ensures Parted(n, Act(n, env, keys), env, ChordIn(n.sourceKeys, keys) || env.captureDone,
                   if ChordIn(n.sourceKeys, keys) then Home(n.role, true) else None)
  {
    hide ForwardAll, SendInputs, Watched, Put, ChordIn, InputEvent.Valid, LeavesPaper, Letters, PressedFrom;
    ForwardAllRelays(n, env, keys);
    var typed := ForwardAll(n, env, keys);
    if typed.More? {
      SendInputsAside(typed.n, env.touch);
      var touched := SendInputs(typed.n, env.touch);
      if touched.More? {
        WatchedAside(touched.n, env);
        PutLater(n, typed.n, Watched(touched.n, env).n, env,
                 if ChordIn(n.sourceKeys, keys) then Home(n.role, true) else None);
      }
    }
  }

  lemma TickParts(n: Node, env: Env)
    requires Core(n) && Settled(n) && n.role.Sending?
    ensures Parted(n, OnTick(n, env), env, SendingStops(n, env, Tick), PutBackAt(n, env, Tick))
  {
    hide Act, Put, ChordIn, ValidKeys, Calm, LeavesPaper, Letters, HearAll, Keyboard.AbsorbAll;
    var sampled := Refresh(n, env);
    TickReads(n, env);
    if sampled.More? {
      var ready, keys := Drained(sampled.n), TickKeys(n, env);
      ActParts(ready, env, keys);
      if Act(ready, env, keys).More? {
        PutAfter(n, ready, Act(ready, env, keys).n, env,
                 if SendingStops(n, env, Tick) then PutBackAt(n, env, Tick) else None);
      }
    }
  }

  lemma TickReads(n: Node, env: Env)
    requires Core(n) && Settled(n) && n.role.Sending?
    ensures var f := Refresh(n, env);
            f.More? ==> f.n == n.(keys := f.n.keys, luck := f.n.luck) && f.n.keys.pending == TickKeys(n, env)
                        && ValidKeys(TickKeys(n, env))
  {
    hide HearAll, Keyboard.Observes, Keyboard.Mirrors, Calm, LeavesPaper, Letters;
    var taken: seq<InputEvent> :| Keyboard.Mirrors(taken + n.keys.pending, n.keys);
    Keyboard.AbsorbAllMirrors(taken, n.keys, env.changes);
    if Keyboard.AbsorbAll(n.keys, env.changes).Ok? {
      PendingValid(taken, TickKeys(n, env), Keyboard.AbsorbAll(n.keys, env.changes).value);
    }
  }

  lemma CaptureParts(n: Node, env: Env, generation: nat, report: Report)
    requires Core(n) && n.role.Sending? && Legal(n, env, CaptureEvent(generation, report))
    ensures var ev := CaptureEvent(generation, report);
            Parted(n, OnCapture(n, env, generation, report), env, SendingStops(n, env, ev), PutBackAt(n, env, ev))
  {
    hide OnStarted, SendInput, OnFinished, Put, Calm, TouchFrames, InputEvent.Valid;
    NothingPut(n, env);
    match report
    case Captured(e) =>
      SendInputAside(n, e);
      PutLater(n, n, SendInput(n, e).n, env, None);
    case Finished(escape) => FinishedParts(n, env, escape);
    case Armed => PutLater(n, n, n.(capture := n.capture.(armed := true)), env, None);
    case _ =>
  }

  lemma LayoutParts(n: Node, env: Env, m: LayoutMessage)
    requires Core(n) && n.role.Sending?
    ensures Parted(n, OnLayout(n, env, m), env, MessageStops(n, env, Layout(m)), None)
  {
    hide OnPrepare, Put, Calm, CanPrepare;
    NothingPut(n, env);
    if m.Prepare? {
      PrepareParts(n, env, m.id, m.edges, m.revision);
    }
  }

  lemma MessageParts(n: Node, env: Env, m: Message)
    requires Core(n) && n.role.Sending?
    ensures Parted(n, OnMessage(n, env, m), env, MessageStops(n, env, m), PutBackAt(n, env, Received(m)))
  {
    hide OnLayout, OnEnd, OnPeerLock, Put, Send, Calm, CanPrepare, EdgeNamed, ActiveEdges, LeavesPaper, Letters;
    NothingPut(n, env);
    match m
    case DesktopInfo(info) =>
      PutLater(n, n, n.(desktopEpoch := Wrapped(n.desktopEpoch), peer := Some(info)), env, None);
    case Layout(letter) => LayoutParts(n, env, letter);
    case Touchpads(count) => PutLater(n, n, OnTouchpads(n, count).n, env, None);
    case Begin(session, entry) =>
      SendAside(n, End(session, None));
      PutLater(n, n, Send(n, End(session, None)).n, env, None);
    case End(session, exit) => EndParts(n, env, session, exit);
    case Ping(nonce) =>
      SendAside(n, Pong(nonce));
      PutLater(n, n, Send(n, Pong(nonce)).n, env, None);
    case LockState(locked) => PeerLockParts(n, env, locked);
    case _ =>
  }

  /** A sender stops sending exactly for one of the listed causes, and then the pointer is put exactly where that cause
      says, or nowhere; otherwise it goes on sending from the same crossing, and the pointer is not placed. */
  lemma SendingEndsExactlyWhen(n: Node, env: Env, ev: Event)
    requires Core(n) && Settled(n) && Legal(n, env, ev) && n.role.Sending?
    ensures Parted(n, Branch(n, env, ev), env, SendingStops(n, env, ev), PutBackAt(n, env, ev))
  {
    hide OnRelease, OnApply, OnStatus, OnTick, OnCapture, OnMessage, Put, Calm, Settled, Send, ChordIn, TouchFrames,
         InputEvent.Valid, CanApply, MessageStops;
    NothingPut(n, env);
    match ev
    case OutputsChanged(outputs) =>
      var desktop := n.desktop.(outputs := outputs);
      var changed := n.(desktopEpoch := Wrapped(n.desktopEpoch), desktop := desktop);
      SendAside(changed, DesktopInfo(desktop));
      PutLater(n, n, Send(changed, DesktopInfo(desktop)).n, env, None);
    case ReleaseCommand => ReleaseParts(n, env);
    case ApplyCommand(request) => ApplyParts(n, env, request);
    case StatusChanged(unlocked) => StatusParts(n, env, unlocked);
    case Tick => TickParts(n, env);
    case CaptureEvent(generation, report) => CaptureParts(n, env, generation, report);
    case Received(message) => MessageParts(n, env, message);
    case _ =>
  }

  // ---- When a receiver stops ----

  /** What ends the session of a receiver: the user or the session manager, physical input here, a layout change, a
      crossing or the end of the capture that watches for one, or the peer. */
  predicate ReceivingStops(n: Node, env: Env, ev: Event) {
    match ev
    case ReleaseCommand => true
    case StatusChanged(unlocked) => !unlocked
    case ApplyCommand(request) => CanApply(n, env, request)
    case Tick => env.active
    case CaptureEvent(generation, report) =>
      generation == n.capture.generation && n.capture.live && (report.Started? || report.Finished?)
    case Received(message) => MessageStops(n, env, message)
    case _ => false
  }

  /** The receiver goes on with its session, or has given it up here and at its backend. */
  ghost predicate Yields(n: Node, f: Flow, stops: bool) {
    f.More? ==> if stops then f.n.role.Local? && f.n.recv.session.None? else f.n.role == n.role
  }

  /** A receiver whose backend has its session. */
  ghost predicate Hosting(n: Node) {
    Calm(n.recv) && n.role.Receiving? && n.recv.session == Some(n.role.session)
  }

  lemma TakeOverYields(n: Node)
    requires Core(n) && n.role.Receiving?
    ensures Yields(n, TakeOver(n), true)
  {
    hide PhysicalActivity, Calm, LeaveRole;
    ActivityCalm(n.recv);
    var freed := Receive(n, PhysicalActivity(n.recv));
    if freed.More? {
      LeaveRoleParts(freed.n);
    }
  }

  /** Ending the session, stopping the capture and placing the pointer, in whatever order they follow. */
  lemma EndSessionYields(n: Node, exit: Option<Position>)
    requires Hosting(n)
    ensures var f := EndSession(n, exit);
            f.More? ==> f.n.recv.session.None? && f.n.role == n.role && f.n.desktop == n.desktop && Calm(f.n.recv)
  {
    hide Injection.End, Calm, LeavesPaper, Letters;
    EndCalm(n.recv, n.role.session);
    var ended := Receive(n, Injection.End(n.recv, n.role.session));
    if ended.More? {
      SendAside(ended.n, End(n.role.session, exit));
    }
  }

  lemma SurrenderYields(n: Node, env: Env, allowed: bool)
    requires Hosting(n)
    ensures var f := Surrender(n, env, allowed); f.More? ==> f.n.recv.session.None? && f.n.role == n.role
  {
    hide EndSession, StopCapture, Calm;
    EndSessionYields(n, None);
    var ended := EndSession(n, None);
    if ended.More? {
      TellsAside(ended.n, None);
    }
  }

  lemma ClearedYields(n: Node)
    requires Hosting(n)
    ensures Yields(n, Cleared(n), true)
  {
    hide EndSession, StopCapture, Calm;
    EndSessionYields(n, None);
    var ended := EndSession(n, None);
    if ended.More? {
      TellsAside(ended.n, None);
    }
  }

  lemma FinishedYields(n: Node, env: Env, escape: bool)
    requires Hosting(n)
    ensures Yields(n, OnFinished(n, env, escape), true)
  {
    hide EndSession, StopCapture, Calm;
    EndSessionYields(n, None);
    var ended := EndSession(n, None);
    if ended.More? {
      TellsAside(GoLocal(ended.n), None);
    }
  }

  /** The pointer leaves the receiving computer: the session is over, and the pointer stays at that crossing. */
  lemma ReturnYields(n: Node, env: Env, index: nat, fraction: real)
    requires Hosting(n) && index < |n.desktop.edges|
    ensures var f := Return(n, env, index, fraction);
            Yields(n, f, true) && (f.More? ==> EndsAt(n, f.n, env, index, fraction))
  {
    hide EndSession, StopCapture, Place, Calm, Put;
    var exit := Some(Position(n.desktop.edges[index].id, fraction));
    EndSessionYields(n, exit);
    var ended := EndSession(n, exit);
    if ended.More? {
      TellsAside(GoLocal(ended.n), None);
      var stopped := StopCapture(GoLocal(ended.n));
      if stopped.More? {
        PlacePuts(stopped.n, env, index, fraction);
        if Place(stopped.n, env, index, fraction).More? {
          PutIsLast(n, stopped.n, Place(stopped.n, env, index, fraction).n, env, index, fraction);
        }
      }
    }
  }

  /** The last thing that the backend carried out was placing the pointer there. */
  ghost predicate EndsAt(n: Node, after: Node, env: Env, index: nat, fraction: real) {
    && index < |n.desktop.edges| && Placement(env.outputs, n.desktop.edges[index], fraction).Ok?
    && after.recv.sink.log != []
    && after.recv.sink.output == n.desktop.edges[index].output
    && after.recv.sink.log[|after.recv.sink.log| - 1] == Placement(env.outputs, n.desktop.edges[index], fraction).value
  }

  lemma PutIsLast(n: Node, m: Node, after: Node, env: Env, index: nat, fraction: real)
    requires m.desktop == n.desktop && Put(m, after, env, Some((index, fraction)))
    ensures EndsAt(n, after, env, index, fraction)
  {
    hide Placement;
  }

  lemma StatusYields(n: Node, unlocked: bool)
    requires Core(n) && n.role.Receiving?
    ensures Yields(n, OnStatus(n, unlocked), !unlocked)
  {
    hide Injection.LocalLock, LeaveRole, Calm, LeavesPaper, Letters;
    LockCalm(n.recv, !unlocked);
    var locked := Receive(n.(localReady := unlocked), Injection.LocalLock(n.recv, !unlocked));
    if locked.More? {
      SendAside(locked.n, LockState(!unlocked));
      var told := Send(locked.n, LockState(!unlocked));
      if told.More? && !unlocked {
        LeaveRoleParts(Suspended(told.n));
        LockedDiffers(n.recv, !unlocked);
      }
    }
  }

  /** A lock that comes while a session is received is new. */
  lemma LockedDiffers(r: Receiver, locked: bool)
    requires Calm(r) && r.session.Some? && locked
    ensures r.state.LocalLock(locked) != r.state && r.state.PeerLock(locked) != r.state
  {
  }

  lemma PeerLockYields(n: Node, env: Env, locked: bool)
    requires Core(n) && n.role.Receiving?
    ensures Yields(n, OnPeerLock(n, env, locked), locked)
  {
    hide Injection.PeerLock, PeerLockedAway, Calm;
    LockCalm(n.recv, locked);
    var noted := Receive(n.(peerReady := !locked), Injection.PeerLock(n.recv, locked));
    if n.padsConfigured && noted.More? && locked {
      LockedDiffers(n.recv, locked);
      LockedAwayYields(noted.n, env);
    }
  }

  lemma LockedAwayYields(n: Node, env: Env)
    requires n.role.Receiving? && n.recv.session.None?
    ensures var f := PeerLockedAway(n, env); f.More? ==> f.n.role.Local? && f.n.recv.session.None?
  {
    hide SayEnd, StopCapture;
    var quiet := Suspended(n);
    TellsAside(quiet, None);
    var told := SayEnd(quiet, None);
    if told.More? {
      TellsAside(GoLocal(told.n), None);
    }
  }

  lemma EndYields(n: Node, env: Env, session: nat, exit: Option<Position>)
    requires Core(n) && n.role.Receiving?
    ensures Yields(n, OnEnd(n, env, session, exit), n.role.session == session)
  {
    hide Injection.End, StopCapture, Calm;
    if n.role.session == session {
      EndCalm(n.recv, session);
      var ended := Receive(n, Injection.End(n.recv, session));
      if ended.More? {
        TellsAside(ended.n, None);
      }
    }
  }

  lemma PrepareYields(n: Node, env: Env, id: nat, edges: seq<EdgeConfig>, revision: Document)
    requires Core(n) && n.role.Receiving?
    ensures Yields(n, OnPrepare(n, env, id, edges, revision), CanPrepare(n, env, edges, revision))
  {
    hide Cleared, CanPrepare, Send, Calm, LeavesPaper, Letters;
    ClearedYields(n);
    SendAside(n, Layout(Prepared(id, false)));
    var cleared := Cleared(n);
    if cleared.More? {
      SendAside(WithPrepared(cleared.n, id, edges, false, []), Layout(Prepared(id, true)));
    }
  }

  lemma ApplyYields(n: Node, env: Env, r: LayoutRequest)
    requires Core(n) && n.role.Receiving?
    ensures Yields(n, OnApply(n, env, r), CanApply(n, env, r))
  {
    hide Cleared, CanApply, Send, Calm, LeavesPaper, Letters;
    ClearedYields(n);
    var cleared := Cleared(n);
    if cleared.More? {
      var drawn := Try(cleared.n, NoTransaction);
      SendAside(WithPrepared(drawn.n, env.id, r.localEdges, true, r.peerEdges),
                Layout(Prepare(env.id, r.peerEdges, r.peerRevision)));
    }
  }

  lemma InputYields(n: Node, env: Env, session: nat, sequence: nat, e: InputEvent)
    requires Core(n) && n.role.Receiving?
    ensures Yields(n, OnInput(n, env, session, sequence, e), session == n.role.session && env.active)
  {
    hide TakeOver, Injection.Input, Calm, Core, Sample, LeavesPaper, Letters;
    SampleKeeps(n, env);
    var sampled := Sample(n, env);
    if sampled.More? && n.role.session == session {
      AsideKeeps(n, sampled.n);
      TakeOverYields(sampled.n);
    }
  }

  lemma ActYields(n: Node, env: Env, keys: seq<InputEvent>)
    requires Core(n) && n.role.Receiving?
    ensures Yields(n, Act(n, env, keys), env.active)
  {
    hide TakeOver, ForwardAll, SendInputs, Watched, Calm, LeavesPaper, Letters;
    CoreReady(n);
    TakeOverYields(n);
    var kept := Yielded(n, env);
    if kept.More? {
      ForwardAllIdle(kept.n, env, keys);
      var typed := ForwardAll(kept.n, env, keys);
      if typed.More? {
        SendInputsAside(typed.n, env.touch);
        var touched := SendInputs(typed.n, env.touch);
        if touched.More? {
          WatchedAside(touched.n, env);
        }
      }
    }
  }

  lemma CoreReady(n: Node)
    requires Core(n) && !n.role.Local?
    ensures n.BothReady() && n.paper.layout.None?
  {
  }

  lemma {:induction false} ForwardAllIdle(n: Node, env: Env, events: seq<InputEvent>)
    requires !n.role.Sending?
    ensures ForwardAll(n, env, events) == More(n)
    decreases |events|
  {
    hide LeavesPaper, Letters;
    if events != [] {
      ForwardAllIdle(n, env, events[..|events| - 1]);
    }
  }

  lemma TickYields(n: Node, env: Env)
    requires Core(n) && n.role.Receiving?
    ensures Yields(n, OnTick(n, env), env.active)
  {
    hide Act, Calm, Core, Keyboard.AbsorbAll, LeavesPaper, Letters;
    CoreReady(n);
    var sampled := Refresh(n, env);
    if sampled.More? {
      AsideKeeps(n, Drained(sampled.n));
      ActYields(Drained(sampled.n), env, sampled.n.keys.pending);
    }
  }

  lemma CaptureYields(n: Node, env: Env, generation: nat, report: Report)
    requires Core(n) && n.role.Receiving?
    ensures Yields(n, OnCapture(n, env, generation, report), ReceivingStops(n, env, CaptureEvent(generation, report)))
    ensures ReturnsAt(n, OnCapture(n, env, generation, report), env, CaptureEvent(generation, report))
  {
    hide Return, SendInput, OnFinished, Calm, ActiveEdges, Placement;
    match report
    case Started(edge, fraction) =>
      if edge < |n.capture.edges| && n.capture.edges[edge] < |n.desktop.edges| {
        ReturnYields(n.(capture := n.capture.(started := true)), env, n.capture.edges[edge], fraction);
      }
    case Finished(escape) => FinishedYields(n, env, escape);
    case _ =>
  }

  /** A crossing on the receiving computer leaves the pointer there. */
  ghost predicate ReturnsAt(n: Node, f: Flow, env: Env, ev: Event) {
    f.More? && ev.CaptureEvent? && ev.report.Started? && ev.generation == n.capture.generation && n.capture.live ==>
      ev.report.edge < |n.capture.edges| && EndsAt(n, f.n, env, n.capture.edges[ev.report.edge], ev.report.fraction)
  }

  lemma LayoutYields(n: Node, env: Env, m: LayoutMessage)
    requires Core(n) && n.role.Receiving?
    ensures Yields(n, OnLayout(n, env, m), MessageStops(n, env, Layout(m)))
  {
    hide OnPrepare, Calm, CanPrepare;
    if m.Prepare? {
      PrepareYields(n, env, m.id, m.edges, m.revision);
    }
  }

  lemma MessageYields(n: Node, env: Env, m: Message)
    requires Core(n) && n.role.Receiving?
    ensures Yields(n, OnMessage(n, env, m), MessageStops(n, env, m))
  {
    hide OnLayout, OnEnd, OnInput, OnPeerLock, Send, Calm, CanPrepare, EdgeNamed, ActiveEdges, LeavesPaper, Letters;
    match m
    case Layout(letter) => LayoutYields(n, env, letter);
    case Input(session, sequence, event) => InputYields(n, env, session, sequence, event);
    case End(session, exit) => EndYields(n, env, session, exit);
    case Ping(nonce) => SendAside(n, Pong(nonce));
    case LockState(locked) => PeerLockYields(n, env, locked);
    case _ =>
  }

  /** A receiver stops receiving exactly for one of the listed causes, and its backend has no session then; otherwise it
      goes on with that session. If the pointer crossed an edge, it stays there. */
  lemma ReceivingEndsExactlyWhen(n: Node, env: Env, ev: Event)
    requires Core(n) && Legal(n, env, ev) && n.role.Receiving?
    ensures Yields(n, Branch(n, env, ev), ReceivingStops(n, env, ev)) && ReturnsAt(n, Branch(n, env, ev), env, ev)
  {
    hide Surrender, OnApply, OnStatus, OnTick, OnCapture, OnMessage, Calm, Send, TouchFrames, InputEvent.Valid,
         CanApply, MessageStops, EndsAt;
    match ev
    case OutputsChanged(outputs) =>
      var desktop := n.desktop.(outputs := outputs);
      SendAside(n.(desktopEpoch := Wrapped(n.desktopEpoch), desktop := desktop), DesktopInfo(desktop));
    case ReleaseCommand => SurrenderYields(n, env, true);
    case ApplyCommand(request) => ApplyYields(n, env, request);
    case StatusChanged(unlocked) => StatusYields(n, unlocked);
    case Tick => TickYields(n, env);
    case CaptureEvent(generation, report) => CaptureYields(n, env, generation, report);
    case Received(message) => MessageYields(n, env, message);
    case _ =>
  }

  // ---- When a session starts ----

  /** The edge leads to an edge of the peer of the same name, and both have an output. */
  ghost predicate Leads(n: Node, i: nat) {
    && i < |n.desktop.edges| && n.desktop.edges[i].output in n.desktop.outputs && n.peer.Some?
    && exists j :: 0 <= j < |n.peer.value.edges| && n.peer.value.edges[j].id == n.desktop.edges[i].id
                   && n.peer.value.edges[j].output in n.peer.value.outputs
  }

  lemma AvailableLeads(n: Node)
    ensures forall i: nat :: i in Available(n) <==> Leads(n, i)
  {
    AvailableExactly(n.desktop, n.peer, |n.desktop.edges|);
  }

  /** The first edge of this name that leads over. */
  ghost predicate Entry(n: Node, id: string, i: nat) {
    && Leads(n, i) && n.desktop.edges[i].id == id
    && forall k: nat :: k < i && Leads(n, k) ==> n.desktop.edges[k].id != id
  }

  lemma EntryIsNamed(n: Node, id: string)
    ensures var edge := EdgeNamed(n, id, Available(n), 0);
            if edge.Some? then Entry(n, id, edge.value) else forall i: nat :: !Entry(n, id, i)
  {
    hide Leads, ActiveEdges;
    AvailableLeads(n);
    EdgeNamedIsFirst(n, id, Available(n), 0);
    forall i: nat | Leads(n, i) ensures i < |n.desktop.edges| {
      LeadsWithin(n, i);
    }
  }

  lemma LeadsWithin(n: Node, i: nat)
    requires Leads(n, i)
    ensures i < |n.desktop.edges|
  {
  }

  /** The peer may come in there: both computers are unlocked, no layout change is pending, nobody is at work here, and
      an edge of that name leads over. */
  ghost predicate Welcome(n: Node, env: Env, id: string) {
    n.BothReady() && n.paper.layout.None? && !env.active && exists i: nat :: Entry(n, id, i)
  }

  /** The session is received, with the pointer at that fraction of the first such edge. */
  ghost predicate Enters(n: Node, after: Node, env: Env, session: nat, entry: Position) {
    && after.role == Receiving(session) && after.recv.session == Some(session) && after.sent == n.sent
    && exists i: nat :: Entry(n, entry.edge, i) && Put(n, after, env, Some((i, entry.fraction)))
  }

  /** A free computer receives a session that the peer begins exactly if the peer is welcome; if not, it answers that
      the session is over. */
  lemma ReceivingStartsExactlyWhen(n: Node, env: Env, session: nat, entry: Position)
    requires Core(n) && n.role.Local? && session != 0
    ensures var f := Branch(n, env, Received(Begin(session, entry)));
            f.More? ==>
              if Welcome(n, env, entry.edge) then Enters(n, f.n, env, session, entry)
              else f.n.role.Local? && f.n.recv == n.recv && f.n.sent == n.sent + [End(session, None)]
  {
    hide Sample, Accept, Entry, Put, EdgeNamed, ActiveEdges, Calm, LeavesPaper, Letters;
    EntryIsNamed(n, entry.edge);
    SampleKeeps(n, env);
    var edge := EdgeNamed(n, entry.edge, Available(n), 0);
    if Welcome(n, env, entry.edge) && Sample(n, env).More? {
      AcceptEnters(n, Sample(n, env).n, env, session, edge.value, entry);
    }
  }

  lemma AcceptEnters(n: Node, m: Node, env: Env, session: nat, index: nat, entry: Position)
    requires Core(n) && n.role.Local? && session != 0 && n.BothReady() && Entry(n, entry.edge, index)
    requires m == n.(keys := m.keys, luck := m.luck)
    ensures var f := Accept(m, env, session, index, entry.fraction); f.More? ==> Enters(n, f.n, env, session, entry)
  {
    hide Place, Put, Entry, Calm;
    BeginCalm(m.recv, session);
    BeginPlacesNothing(m.recv, session);
    var begun := Receive(m, Injection.Begin(m.recv, session));
    PlacePuts(begun.n, env, index, entry.fraction);
    if Accept(m, env, session, index, entry.fraction).More? {
      var placed := Place(begun.n, env, index, entry.fraction);
      PutAfter(n, begun.n, placed.n, env, Some((index, entry.fraction)));
      PutLater(n, placed.n, Accept(m, env, session, index, entry.fraction).n, env, Some((index, entry.fraction)));
    }
  }

  lemma BeginPlacesNothing(r: Receiver, session: nat)
    ensures Injection.Begin(r, session).r.sink == r.sink
  {
  }

  /** A session is announced, the next one of this side, at that crossing, and this computer sends in it. */
  predicate Departs(n: Node, after: Node, index: nat, fraction: real) {
    && index < |n.desktop.edges| && n.sent < after.sent
    && after.sent[|n.sent|] == Begin(n.nextSession, Position(n.desktop.edges[index].id, fraction))
    && after.role.Sending? && after.role.session == n.nextSession && after.nextSession == n.nextSession + 1
    && after.role.edge == index && after.role.fraction == fraction
  }

  /** A free computer whose pointer crossed an edge starts to send, unless the devices say that the emergency chord is
      held: then the capture ends. The pointer is not placed. */
  lemma SendingStartsExactlyWhen(n: Node, env: Env, edge: nat, fraction: real)
    requires Core(n) && Settled(n) && n.role.Local? && n.capture.live
    ensures var f := Branch(n, env, CaptureEvent(n.capture.generation, Started(edge, fraction)));
            var held := Keyboard.PhysicallyHeld(n.keys.seen + env.changes);
            f.More? ==>
              && edge < |n.capture.edges| && Leads(n, n.capture.edges[edge]) && f.n.recv == n.recv
              && if 1 in held && Modifiers(held) then f.n.role.Local? && !f.n.capture.live && f.n.sent == n.sent
                 else Departs(n, f.n, n.capture.edges[edge], fraction)
  {
    hide Leads, StartSending, ActiveEdges, Calm, Settled, Keyboard.PhysicallyHeld, Modifiers;
    AvailableLeads(n);
    if edge < |n.capture.edges| && n.capture.edges[edge] in Available(n) {
      LeadsWithin(n, n.capture.edges[edge]);
      SettledObserves(n);
      StartDeparts(n.(capture := n.capture.(started := true)), env, n.capture.edges[edge], fraction);
    }
  }

  lemma SettledObserves(n: Node)
    requires Settled(n)
    ensures Keyboard.Observes(n.keys)
  {
    hide Keyboard.Observes, HearAll;
  }

  lemma StartDeparts(n: Node, env: Env, index: nat, fraction: real)
    requires n.role.Local? && index < |n.desktop.edges| && Keyboard.Observes(n.keys)
    ensures var f := StartSending(n, env, index, fraction);
            var held := Keyboard.PhysicallyHeld(n.keys.seen + env.changes);
            f.More? ==>
              && f.n.recv == n.recv
              && if 1 in held && Modifiers(held) then f.n.role.Local? && !f.n.capture.live && f.n.sent == n.sent
                 else Departs(n, f.n, index, fraction)
  {
    hide BeginSending, Keyboard.Observes, Keyboard.PhysicallyHeld, Keyboard.Held, Keyboard.AbsorbAll;
    SampleKeeps(n, env);
    Keyboard.AbsorbAllObserves(n.keys, env.changes);
    if Sample(n, env).More? {
      var sampled := Sample(n, env).n;
      Keyboard.ObservedHeld(sampled.keys);
      BeginDeparts(Drained(sampled), index, fraction, Keyboard.Held(sampled.keys.devices));
    }
  }

  lemma BeginDeparts(n: Node, index: nat, fraction: real, held: set<int>)
    requires n.role.Local? && index < |n.desktop.edges|
    ensures var f := BeginSending(n, index, fraction, held);
            f.More? ==> f.n.recv == n.recv && Departs(n, f.n, index, fraction)
  {
    hide PressAll, Codes, Presses, LeavesPaper, Letters;
    var begun := Begun(n, index, fraction);
    if begun.More? {
      PressAllAside(begun.n, Presses(Codes(held)));
    }
  }

  lemma {:induction false} PressAllAside(n: Node, events: seq<InputEvent>)
    ensures var f := PressAll(n, events);
            && f.n == n.(sent := f.n.sent, luck := f.n.luck, role := f.n.role, sourceKeys := f.n.sourceKeys)
            && (f.More? ==> SameRole(n.role, f.n.role))
    decreases |events|
  {
    hide SendInput, Completes, LeavesPaper, Letters;
    if events != [] {
      PressAllAside(n, events[..|events| - 1]);
      var before := PressAll(n, events[..|events| - 1]);
      if before.More? {
        SendInputAside(WithKey(before.n, events[|events| - 1]), events[|events| - 1]);
      }
    }
  }

  // ---- What an iteration starts with ----

  /** Nothing can be shared any more, or the capture watches edges of an outdated desktop. */
  ghost predicate Outdated(n: Node) {
    (!n.role.Local? && forall i: nat :: !Leads(n, i)) || (n.capture.live && n.capture.epoch != n.desktopEpoch)
  }

  /** Both computers are unlocked, an edge leads over and no layout change is pending. */
  ghost predicate Ripe(n: Node) {
    n.BothReady() && n.paper.layout.None? && exists i: nat :: Leads(n, i)
  }

  /** The role is given up exactly if it is outdated, and the pointer then comes back to where it left if that edge
      still has an output; a capture runs afterwards exactly if it was kept, or may be started, and a new one watches
      exactly the edges that lead over. */
  lemma PreambleExactly(n: Node, env: Env)
    requires Core(n)
    ensures var f := Preamble(n, env);
            f.More? ==>
              && f.n.desktop == n.desktop && f.n.peer == n.peer && f.n.keys == n.keys
              && (if Outdated(n)
                  then f.n.role.Local? && f.n.recv.session.None?
                       && (n.role.Sending? ==> Put(n, f.n, env, Home(n.role, CanComeBack(n))))
                  else SameRole(n.role, f.n.role) && f.n.recv == n.recv)
              && Captures(n, f.n, env)
  {
    hide Retired, Routed, Watching, Put, Calm, Leads, ActiveEdges, Outdated, Ripe, CanComeBack, LeavesPaper, Letters;
    RetiredGives(n, env);
    var kept := Retired(n, env);
    if kept.More? {
      RoutedAside(kept.n, env);
      var routed := Routed(kept.n, env);
      if routed.More? {
        WatchingCaptures(routed.n, env);
        SameLeads(n, routed.n);
        if n.role.Sending? && Outdated(n) {
          PutLater(n, kept.n, Preamble(n, env).n, env, Home(n.role, CanComeBack(n)));
        }
      }
    }
  }

  ghost predicate Captures(n: Node, after: Node, env: Env) {
    && (after.capture.live <==> (n.capture.live && !Outdated(n)) || (Ripe(n) && env.mayArm))
    && if n.capture.live && !Outdated(n) then after.capture == n.capture
       else after.capture.live ==>
         && !after.capture.started && after.capture.epoch == n.desktopEpoch
         && forall i: nat :: i in after.capture.edges <==> Leads(n, i)
  }

  lemma SameLeads(n: Node, m: Node)
    requires m.desktop == n.desktop && m.peer == n.peer
    requires m.localReady == n.localReady && m.peerReady == n.peerReady && m.paper == n.paper
    ensures (forall i: nat :: Leads(m, i) <==> Leads(n, i)) && (Ripe(m) <==> Ripe(n))
  {
    assert forall i: nat :: Leads(m, i) <==> Leads(n, i);
  }

  lemma RetiresOutdated(n: Node)
    ensures MustRetire(n) <==> Outdated(n)
  {
    hide Leads, ActiveEdges;
    AvailableLeads(n);
    if Available(n) != [] {
      assert Available(n)[0] in Available(n);
    }
  }

  /** The computer is as before, but for its capture, its role and its receiver. */
  predicate SameComputer(n: Node, after: Node) {
    && after.desktop == n.desktop && after.peer == n.peer && after.desktopEpoch == n.desktopEpoch
    && after.localReady == n.localReady && after.peerReady == n.peerReady && after.paper == n.paper
    && after.keys == n.keys
  }

  lemma RetiredGives(n: Node, env: Env)
    requires Core(n)
    ensures var f := Retired(n, env);
            f.More? ==>
              && SameComputer(n, f.n) && f.n.capture == n.capture.(live := n.capture.live && !Outdated(n))
              && if Outdated(n)
                 then f.n.role.Local? && f.n.recv.session.None?
                      && (n.role.Sending? ==> Put(n, f.n, env, Home(n.role, CanComeBack(n))))
                 else f.n == n
  {
    hide Retire, Put, Outdated, ActiveEdges, MustRetire, CanComeBack, LeavesPaper, Letters, Core;
    RetiresOutdated(n);
    if Outdated(n) {
      RetireGives(n, env);
    }
  }

  lemma RetireGives(n: Node, env: Env)
    requires Core(n)
    ensures var f := Retire(n, env);
            f.More? ==>
              && SameComputer(n, f.n) && f.n.capture == n.capture.(live := false)
              && f.n.role.Local? && f.n.recv.session.None?
              && (n.role.Sending? ==> Put(n, f.n, env, Home(n.role, CanComeBack(n))))
  {
    hide Surrender, Put, Calm, CanComeBack, LeavesPaper, Letters;
    SurrenderGives(n, env, CanComeBack(n));
    if n.role.Sending? {
      SurrenderPuts(n, env, CanComeBack(n));
      if Surrender(n, env, CanComeBack(n)).More? {
        PutLater(n, Surrender(n, env, CanComeBack(n)).n, Retire(n, env).n, env, Home(n.role, CanComeBack(n)));
      }
    }
  }

  lemma SurrenderGives(n: Node, env: Env, allowed: bool)
    requires Core(n)
    ensures var f := Surrender(n, env, allowed);
            f.More? ==>
              && f.n == n.(sent := f.n.sent, luck := f.n.luck, recv := f.n.recv, capture := f.n.capture)
              && f.n.recv.session.None? && f.n.capture == n.capture.(live := false)
  {
    hide EndSession, StopCapture, PlaceBack, Injection.Inv;
    EndSessionQuiet(n, None);
    var ended := EndSession(n, None);
    if ended.More? {
      StopCaptureKeeps(ended.n);
      if StopCapture(ended.n).More? {
        PlaceBackQuiet(StopCapture(ended.n).n, env, n.role, allowed);
      }
    }
  }

  lemma RoutedAside(n: Node, env: Env)
    ensures var f := Routed(n, env);
            && f.n == n.(sent := f.n.sent, luck := f.n.luck, role := f.n.role)
            && (f.More? ==> SameRole(n.role, f.n.role))
  {
    hide SendInputs;
    SendInputsAside(n.(luck := Rest(n.luck)), env.routed);
  }

  lemma WatchingCaptures(n: Node, env: Env)
    ensures var after := Watching(n, env);
            && after == n.(capture := after.capture)
            && if n.capture.live || !Ripe(n) || !env.mayArm then after.capture == n.capture
               else after.capture.live && !after.capture.started && after.capture.epoch == n.desktopEpoch
                    && forall i: nat :: i in after.capture.edges <==> Leads(n, i)
  {
    hide Leads, ActiveEdges;
    AvailableLeads(n);
    if Available(n) != [] {
      assert Available(n)[0] in Available(n);
    }
  }
}
