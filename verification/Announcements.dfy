// What each computer says about its own lock and desktop is true, and what the other one knows is what was said last
// (the lock and desktop messages of src/bridge.rs).
module Announcements {
  import opened ControlSafety
  import opened Coordination
  import opened Injection
  import opened Link
  import opened Protocol
  import opened Turns

  /** The lock state said last. */
  function LastLock(sent: seq<Message>): Option<bool> {
    if sent == [] then None
    else
      var last := sent[|sent| - 1];
      if last.LockState? then Some(last.locked) else LastLock(sent[..|sent| - 1])
  }

  /** The desktop said last. */
  function LastDesktop(sent: seq<Message>): Option<Desktop> {
    if sent == [] then None
    else
      var last := sent[|sent| - 1];
      if last.DesktopInfo? then Some(last.info) else LastDesktop(sent[..|sent| - 1])
  }

  lemma SaidLast(sent: seq<Message>, m: Message)
    ensures LastLock(sent + [m]) == if m.LockState? then Some(m.locked) else LastLock(sent)
    ensures LastDesktop(sent + [m]) == if m.DesktopInfo? then Some(m.info) else LastDesktop(sent)
  {
    assert (sent + [m])[..|sent|] == sent;
  }

  lemma {:induction false} NothingNew(was: seq<Message>, now: seq<Message>, exit: Option<Position>)
    requires NoNewsBut(was, now, exit)
    ensures LastLock(now) == LastLock(was) && LastDesktop(now) == LastDesktop(was)
    decreases |now|
  {
    if |was| == |now| {
      assert was == now;
    } else {
      NothingNew(was, now[..|now| - 1], exit);
    }
  }

  /** What was said last is true. */
  predicate Truthful(n: Node) {
    LastLock(n.sent) == Some(!n.localReady) && LastDesktop(n.sent) == Some(n.desktop)
  }

  /** What is known of the other side is what it said last, of the messages taken so far; before it said that it is
      unlocked, it counts as locked. */
  predicate Informed(n: Node, heard: seq<Message>) {
    (n.peerReady <==> LastLock(heard) == Some(false)) && n.peer == LastDesktop(heard)
  }

  lemma DiscreetKeeps(n: Node, f: Flow, exit: Option<Position>)
    requires SameView(n, f.n) && NoNewsBut(n.sent, f.n.sent, exit)
    ensures Truthful(n) ==> Truthful(f.n)
    ensures forall heard :: Informed(n, heard) ==> Informed(f.n, heard)
  {
    NothingNew(n.sent, f.n.sent, exit);
  }

  lemma AnnouncedKeeps(n: Node, after: Node, m: Message)
    requires Truthful(n) && Turns.Announces(n.sent, after.sent, m)
    requires (m.LockState? && SameView(n.(localReady := !m.locked), after))
             || (m.DesktopInfo? && SameView(n.(desktop := m.info), after))
    ensures Truthful(after)
  {
    SaidLast(n.sent, m);
    NothingNew(n.sent + [m], after.sent, None);
  }

  lemma UsualIsDiscreet(n: Node, f: Flow)
    requires Usual(n, f)
    ensures SameView(n, f.n) && NoNews(n.sent, f.n.sent)
  {
  }

  lemma CrossingIsDiscreet(n: Node, f: Flow, edge: nat, fraction: real) returns (exit: Option<Position>)
    requires Crosses(n, f, edge, fraction)
    ensures SameView(n, f.n) && NoNewsBut(n.sent, f.n.sent, exit)
  {
    exit := None;
    if edge < |n.capture.edges| && n.capture.edges[edge] < |n.desktop.edges| {
      var at := Position(n.desktop.edges[n.capture.edges[edge]].id, fraction);
      if Returns(n, f, at) {
        exit := Some(at);
      }
    }
  }

  /** What one message adds to what is known. */
  function HeardAfter(heard: seq<Message>, ev: Event): seq<Message> {
    if ev.Received? then heard + [ev.message] else heard
  }

  lemma BranchAnnounces(n: Node, env: Env, ev: Event, heard: seq<Message>)
    requires Truthful(n) && Informed(n, heard) && Branch(n, env, ev).More?
    ensures var f := Branch(n, env, ev); Truthful(f.n) && Informed(f.n, HeardAfter(heard, ev))
  {
    hide Branch, Usual, Crosses, NoNewsBut, Truthful, Informed, UsualRole;
    BranchTurns(n, env, ev);
    var f := Branch(n, env, ev);
    if ev.StatusChanged? {
      AnnouncedKeeps(n, f.n, LockState(!ev.unlocked));
      Unchanged(n, f.n, heard);
    } else if ev.OutputsChanged? {
      AnnouncedKeeps(n, f.n, DesktopInfo(n.desktop.(outputs := ev.outputs)));
      Unchanged(n, f.n, heard);
    } else if ev.Received? {
      ReceivedAnnounces(n, f, ev, heard);
    } else if ev.CaptureEvent? && ev.report.Started? && ev.generation == n.capture.generation && n.capture.live {
      var exit := CrossingIsDiscreet(n, f, ev.report.edge, ev.report.fraction);
      DiscreetKeeps(n, f, exit);
    } else {
      UsualIsDiscreet(n, f);
      DiscreetKeeps(n, f, None);
    }
  }

  lemma Unchanged(n: Node, after: Node, heard: seq<Message>)
    requires Informed(n, heard) && after.peerReady == n.peerReady && after.peer == n.peer
    ensures Informed(after, heard)
  {
  }

  lemma ReceivedAnnounces(n: Node, f: Flow, ev: Event, heard: seq<Message>)
    requires Truthful(n) && Informed(n, heard) && f.More? && ev.Received? && Turned(n, f, ev)
    ensures Truthful(f.n) && Informed(f.n, heard + [ev.message])
  {
    hide UsualRole, OnlyEnds, EndSaid, KeepsRole, LeavesRole;
    SaidLast(heard, ev.message);
    NothingNew(n.sent, f.n.sent, None);
  }

  lemma StepAnnounces(n: Node, env: Env, ev: Event, heard: seq<Message>)
    requires Truthful(n) && Informed(n, heard) && Step(n, env, ev).More?
    ensures var f := Step(n, env, ev); Truthful(f.n) && Informed(f.n, HeardAfter(heard, ev))
  {
    hide Preamble, Branch, Usual, Truthful, Informed, SameView, NoNewsBut;
    PreambleTurns(n, env);
    var ready := Preamble(n, env);
    UsualIsDiscreet(n, ready);
    DiscreetKeeps(n, ready, None);
    BranchAnnounces(ready.n, env, ev, heard);
  }

  /** Every connection opens by saying both. */
  lemma OpenAnnounces(e: Entry)
    requires Entered(e).More?
    ensures Truthful(Entered(e).n) && Informed(Entered(e).n, [])
  {
    hide Injection.LocalLock, LeavesPaper, Letters, LastLock, LastDesktop;
    var n := Fresh(e.desktop, e.physical, e.unlocked, e.luck, e.fate);
    var locked := Receive(n, Injection.LocalLock(n.recv, !n.localReady));
    var desktop, pads, lock := DesktopInfo(e.desktop), Message.Touchpads(e.pads), LockState(!e.unlocked);
    SaidLast([], desktop);
    SaidLast([] + [desktop], pads);
    SaidLast([] + [desktop] + [pads], lock);
    NothingHeard();
  }

  lemma NothingHeard()
    ensures LastLock([]) == None && LastDesktop([]) == None
  {
  }

  // ---- Two computers ----

  /** One side's half: while it goes on, it has said the truth and knows what it was told. */
  ghost predicate Knows(me: Flow, peer: Flow, taken: nat) {
    && taken <= |peer.n.sent|
    && (me.More? ==> Truthful(me.n) && Informed(me.n, peer.n.sent[..taken]))
  }

  lemma MoverKnows(me: Flow, peer: Flow, taken: nat, env: Env, ev: Event)
    requires Knows(me, peer, taken) && Allowed(me, peer, taken, env, ev)
    ensures Knows(Step(me.n, env, ev), peer, Taken(me, taken, env, ev))
  {
    hide Truthful, Informed, Step, LegalStep, Preamble;
    var f := Step(me.n, env, ev);
    HeardTaken(me, peer, taken, env, ev);
    if f.More? {
      StepAnnounces(me.n, env, ev, peer.n.sent[..taken]);
      MoreNeedsPreamble(me.n, env, ev);
    }
  }

  /** What is taken in a move is what the peer said next. */
  lemma HeardTaken(me: Flow, peer: Flow, taken: nat, env: Env, ev: Event)
    requires Allowed(me, peer, taken, env, ev) && taken <= |peer.n.sent|
    ensures Taken(me, taken, env, ev) <= |peer.n.sent|
    ensures Preamble(me.n, env).More? ==>
              peer.n.sent[..Taken(me, taken, env, ev)] == HeardAfter(peer.n.sent[..taken], ev)
  {
    hide LegalStep, Preamble, Step;
    if ev.Received? && Preamble(me.n, env).More? {
      assert peer.n.sent[..taken + 1] == peer.n.sent[..taken] + [ev.message];
    }
  }

  lemma OtherKnows(me: Flow, peer: Flow, after: Flow, taken: nat)
    requires Knows(me, peer, taken) && peer.n.sent <= after.n.sent
    ensures Knows(me, after, taken)
  {
    assert after.n.sent[..taken] == peer.n.sent[..taken];
  }

  lemma {:induction false} AlwaysKnown(a: Entry, b: Entry, moves: seq<Move>)
    ensures var w := Played(Together(a, b), moves); Knows(w.a, w.b, w.takenByA) && Knows(w.b, w.a, w.takenByB)
    decreases |moves|
  {
    hide Knows, Allowed, Step, Open, Taken;
    if moves == [] {
      OpeningKnown(a, b);
      OpeningKnown(b, a);
    } else {
      AlwaysKnown(a, b, moves[..|moves| - 1]);
      var p, m := Played(Together(a, b), moves[..|moves| - 1]), moves[|moves| - 1];
      if m.byA {
        if Allowed(p.a, p.b, p.takenByA, m.env, m.ev) {
          MoverKnows(p.a, p.b, p.takenByA, m.env, m.ev);
          OtherKnows(p.b, p.a, Step(p.a.n, m.env, m.ev), p.takenByB);
        }
      } else if Allowed(p.b, p.a, p.takenByB, m.env, m.ev) {
        MoverKnows(p.b, p.a, p.takenByB, m.env, m.ev);
        OtherKnows(p.a, p.b, Step(p.b.n, m.env, m.ev), p.takenByA);
      }
    }
  }

  lemma OpeningKnown(e: Entry, peer: Entry)
    ensures Knows(Entered(e), Entered(peer), 0)
  {
    hide Open, Truthful, Informed;
    if Entered(e).More? {
      OpenAnnounces(e);
      assert Entered(peer).n.sent[..0] == [];
    }
  }

  /** Whether A's session is unlocked, by what its session manager has reported since A entered. */
  ghost function Unlocked(a: Entry, b: Entry, moves: seq<Move>): bool {
    if moves == [] then a.unlocked
    else
      var p, m := Played(Together(a, b), moves[..|moves| - 1]), moves[|moves| - 1];
      if m.byA && Allowed(p.a, p.b, p.takenByA, m.env, m.ev) && m.ev.StatusChanged? then m.ev.unlocked
      else Unlocked(a, b, moves[..|moves| - 1])
  }

  lemma StepReadies(n: Node, env: Env, ev: Event)
    requires Step(n, env, ev).More?
    ensures Step(n, env, ev).n.localReady == if ev.StatusChanged? then ev.unlocked else n.localReady
  {
    hide Preamble, Branch, UsualRole, OnlyEnds, EndSaid, KeepsRole, LeavesRole, NoNews;
    PreambleTurns(n, env);
    BranchTurns(Preamble(n, env).n, env, ev);
  }

  lemma {:induction false} ReadyWhenUnlocked(a: Entry, b: Entry, moves: seq<Move>)
    requires Played(Together(a, b), moves).a.More?
    ensures Played(Together(a, b), moves).a.n.localReady == Unlocked(a, b, moves)
    decreases |moves|
  {
    hide Allowed, Step, Open, Taken;
    if moves == [] {
      OpensReady(a);
    } else {
      var p, m := Played(Together(a, b), moves[..|moves| - 1]), moves[|moves| - 1];
      if m.byA && Allowed(p.a, p.b, p.takenByA, m.env, m.ev) {
        AllowedGoesOn(p.a, p.b, p.takenByA, m.env, m.ev);
        StepReadies(p.a.n, m.env, m.ev);
      }
      ReadyWhenUnlocked(a, b, moves[..|moves| - 1]);
    }
  }

  lemma AllowedGoesOn(me: Flow, peer: Flow, taken: nat, env: Env, ev: Event)
    requires Allowed(me, peer, taken, env, ev)
    ensures me.More?
  {
  }

  lemma OpensReady(e: Entry)
    requires Entered(e).More?
    ensures Entered(e).n.localReady == e.unlocked
  {
    hide Injection.LocalLock, LeavesPaper, Letters;
  }

  /** Over every run of two computers, what a side said last of its lock is what its session manager reported last, and
      what it said last of its desktop is its desktop; what the other side knows of them is what it was told last. So
      once everything has arrived, it knows them. */
  lemma LocksAndDesktopsAreKnown(a: Entry, b: Entry, moves: seq<Move>)
    ensures var w := Played(Together(a, b), moves);
            && (w.a.More? ==> LastLock(w.a.n.sent) == Some(!Unlocked(a, b, moves))
                              && LastDesktop(w.a.n.sent) == Some(w.a.n.desktop))
            && (w.b.More? ==>
                  && w.takenByB <= |w.a.n.sent|
                  && (w.b.n.peerReady <==> LastLock(w.a.n.sent[..w.takenByB]) == Some(false))
                  && w.b.n.peer == LastDesktop(w.a.n.sent[..w.takenByB]))
            && (w.a.More? && w.b.More? && w.takenByB == |w.a.n.sent| ==>
                  w.b.n.peerReady == Unlocked(a, b, moves) && w.b.n.peer == Some(w.a.n.desktop))
  {
    hide Played, Together, LastLock, LastDesktop;
    AlwaysKnown(a, b, moves);
    var w := Played(Together(a, b), moves);
    if w.a.More? {
      ReadyWhenUnlocked(a, b, moves);
    }
    if w.takenByB == |w.a.n.sent| {
      assert w.a.n.sent[..w.takenByB] == w.a.n.sent;
    }
  }

  /** What every side says first, in every run: its desktop, how many touchpads it shares, and whether it is locked. */
  lemma {:induction false} OpensTruthfully(a: Entry, b: Entry, moves: seq<Move>)
    requires Entered(a).More?
    ensures var opening := [DesktopInfo(a.desktop), Message.Touchpads(a.pads), LockState(!a.unlocked)];
            opening <= Played(Together(a, b), moves).a.n.sent
    decreases |moves|
  {
    hide Allowed, Step, Open, Taken;
    if moves == [] {
      OpeningSaid(a);
    } else {
      OpensTruthfully(a, b, moves[..|moves| - 1]);
    }
  }

  lemma OpeningSaid(e: Entry)
    requires Entered(e).More?
    ensures Entered(e).n.sent == [DesktopInfo(e.desktop), Message.Touchpads(e.pads), LockState(!e.unlocked)]
  {
    hide Injection.LocalLock, LeavesPaper, Letters;
  }
}
