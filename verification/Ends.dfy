// Which end of a session a computer takes for its own: both number their sessions from 1, and an end says neither whose
// session it means nor what it answers (src/bridge.rs). Everything here is about a session of A and the ends B says.
module Endings {
  import opened ControlSafety
  import opened Coordination
  import opened Injection
  import opened Link
  import opened Ordered
  import opened Protocol
  import opened Speech
  import opened Turns
  import Keyboard

  /** Where in a log a session begins; the length of the log if nowhere. */
  function BeginAt(sent: seq<Message>, s: nat): (i: nat)
    ensures i <= |sent|
    ensures i < |sent| ==> IsBegin(sent[i], s)
    ensures forall k :: 0 <= k < i ==> !IsBegin(sent[k], s)
  {
    if sent == [] then 0 else if IsBegin(sent[0], s) then 0 else 1 + BeginAt(sent[1..], s)
  }

  /** Longer logs begin the session at the same place, or beyond the shorter one. */
  lemma BeginStays(sent: seq<Message>, longer: seq<Message>, s: nat)
    requires sent <= longer
    ensures if BeginAt(sent, s) < |sent| then BeginAt(longer, s) == BeginAt(sent, s) else |sent| <= BeginAt(longer, s)
  {
    hide BeginAt;
    var i, j := BeginAt(sent, s), BeginAt(longer, s);
    assert forall k :: 0 <= k < |sent| ==> sent[k] == longer[k];
  }

  /** A session that was heard was begun. */
  lemma {:induction false} HeardWasBegun(physical: bool, sent: seq<Message>, s: nat)
    requires s in HearAll(physical, sent).inputs
    ensures BeginAt(sent, s) < |sent|
    decreases |sent|
  {
    hide BeginAt, InputEvent.Valid, Chord;
    var before, last := sent[..|sent| - 1], sent[|sent| - 1];
    if IsBegin(last, s) {
      assert sent[|sent| - 1] == last;
    } else {
      HeardWasBegun(physical, before, s);
      BeginStays(before, sent, s);
    }
  }

  lemma {:induction false} BegunIsHeard(physical: bool, sent: seq<Message>, i: nat)
    requires i < |sent| && sent[i].Begin? && HearAll(physical, sent).ok
    ensures sent[i].session in HearAll(physical, sent).inputs && sent[i].session <= HearAll(physical, sent).last
    decreases |sent|
  {
    hide InputEvent.Valid, Chord;
    if i < |sent| - 1 {
      BegunIsHeard(physical, sent[..|sent| - 1], i);
    }
  }

  /** In a well-formed log a session begins once. */
  lemma {:induction false} BeginsOnce(physical: bool, sent: seq<Message>, i: nat, s: nat)
    requires i < |sent| && IsBegin(sent[i], s) && HearAll(physical, sent).ok
    ensures BeginAt(sent, s) == i
    decreases |sent|
  {
    hide BeginAt, InputEvent.Valid, Chord;
    var before := sent[..|sent| - 1];
    var j := BeginAt(sent, s);
    if i < |sent| - 1 {
      BeginsOnce(physical, before, i, s);
      BeginStays(before, sent, s);
    } else if j < i {
      assert before[j] == sent[j];
      BegunIsHeard(physical, before, j);
    }
  }

  // ---- When a message was said ----

  /** The moment at which a message was said: the speaker's role just before that part of its iteration, how many of the
      other side's messages it had taken by then, and the one it took last, if it took one just before. */
  datatype Moment = Moment(role: Role, taken: nat, answered: Option<Message>)

  /** The iteration's beginning comes before anything is taken, its branch after. */
  function MomentOf(n: Node, taken: nat, env: Env, ev: Event, k: nat): Moment {
    var ready := Preamble(n, env);
    if k < |ready.n.sent| || ready.Halt? then Moment(n.role, taken, None)
    else if ev.Received? then Moment(ready.n.role, taken + 1, Some(ev.message))
    else Moment(ready.n.role, taken, None)
  }

  /** A run with the moment of every message of both sides. */
  datatype History = History(w: World, byA: seq<Moment>, byB: seq<Moment>)

  function NewMoments(me: Flow, taken: nat, env: Env, ev: Event): seq<Moment> {
    seq(|Step(me.n, env, ev).n.sent| - |me.n.sent|,
        k requires 0 <= k => MomentOf(me.n, taken, env, ev, |me.n.sent| + k))
  }

  ghost function Recorded(h: History, m: Move): History {
    var w := h.w;
    if m.byA then
      if Allowed(w.a, w.b, w.takenByA, m.env, m.ev)
      then History(Moved(w, m), h.byA + NewMoments(w.a, w.takenByA, m.env, m.ev), h.byB) else h
    else
      if Allowed(w.b, w.a, w.takenByB, m.env, m.ev)
      then History(Moved(w, m), h.byA, h.byB + NewMoments(w.b, w.takenByB, m.env, m.ev)) else h
  }

  /** What opens a connection was said before anything was taken. */
  function Opening(f: Flow): seq<Moment> {
    seq(|f.n.sent|, _ => Moment(Local, 0, None))
  }

  ghost function HistoryOf(w: World, moves: seq<Move>): History {
    if moves == [] then History(w, Opening(w.a), Opening(w.b))
    else Recorded(HistoryOf(w, moves[..|moves| - 1]), moves[|moves| - 1])
  }

  lemma {:induction false} HistoryPlays(w: World, moves: seq<Move>)
    ensures HistoryOf(w, moves).w == Played(w, moves)
    decreases |moves|
  {
    hide Allowed, Step, Taken, NewMoments;
    if moves != [] {
      HistoryPlays(w, moves[..|moves| - 1]);
    }
  }

  /** The end was said by a computer that received the session, or that had just been offered it. */
  predicate GivesUp(c: Moment, s: nat) {
    c.role == Receiving(s) || (c.answered.Some? && IsBegin(c.answered.value, s))
  }

  /** The end was said by a computer that sent in a session of its own with this number. */
  predicate EndsOwn(c: Moment, s: nat) {
    c.role.Sending? && c.role.session == s
  }

  // ---- The invariant ----

  /** One moment for every message, none ahead of what has been taken, and no two messages each said after the other
      was taken. */
  ghost predicate Timed(h: History) {
    && |h.byA| == |h.w.a.n.sent| && |h.byB| == |h.w.b.n.sent|
    && h.w.takenByA <= |h.byB| && h.w.takenByB <= |h.byA|
    && (forall i :: 0 <= i < |h.byA| ==> h.byA[i].taken <= h.w.takenByA)
    && (forall j :: 0 <= j < |h.byB| ==> h.byB[j].taken <= h.w.takenByB)
    && forall i, j :: 0 <= i < |h.byA| && 0 <= j < |h.byB| ==> !(i < h.byB[j].taken && j < h.byA[i].taken)
  }

  /** B said this end after taking the beginning of A's session. */
  ghost predicate After(h: History, s: nat, p: nat) {
    p < |h.byB| == |h.w.b.n.sent| && IsEnd(h.w.b.n.sent[p], s) && BeginAt(h.w.a.n.sent, s) < h.byB[p].taken
  }

  /** One of the first `limit` messages of B is such an end. */
  ghost predicate AnyAfter(h: History, s: nat, limit: nat) {
    exists p :: 0 <= p < limit && After(h, s, p)
  }

  /** A itself said an end of the session's number after beginning it, among its first `t` messages. */
  ghost predicate Withdrawn(h: History, s: nat, t: nat) {
    exists e :: BeginAt(h.w.a.n.sent, s) < e < t && e < |h.w.a.n.sent| && IsEnd(h.w.a.n.sent[e], s)
  }

  /** Once B has taken the beginning: it receives the session, or has said an end since, or has taken one. */
  ghost predicate Answered(h: History, s: nat) {
    h.w.b.More? && BeginAt(h.w.a.n.sent, s) < h.w.takenByB ==>
      h.w.b.n.role == Receiving(s) || AnyAfter(h, s, |h.byB|) || Withdrawn(h, s, h.w.takenByB)
  }

  /** When B began its own session of that number. */
  ghost predicate WithdrawnBefore(h: History, s: nat) {
    var own := BeginAt(h.w.b.n.sent, s);
    own < |h.byB| && Withdrawn(h, s, h.byB[own].taken)
  }

  /** A B that sends in its own session of that number and has taken the beginning has said an end since, or had taken
      A's end before its own session began. */
  ghost predicate OwnAnswered(h: History, s: nat) {
    h.w.b.More? && EndsOwn(Moment(h.w.b.n.role, 0, None), s) && BeginAt(h.w.a.n.sent, s) < h.w.takenByB ==>
      AnyAfter(h, s, |h.byB|) || WithdrawnBefore(h, s)
  }

  /** Ends that give up A's session come after its beginning; ends after it that do not were not the first. */
  ghost predicate Placed(h: History, s: nat) {
    |h.byB| == |h.w.b.n.sent| &&
    forall p :: 0 <= p < |h.byB| && IsEnd(h.w.b.n.sent[p], s) ==>
      && (GivesUp(h.byB[p], s) || EndsOwn(h.byB[p], s))
      && (GivesUp(h.byB[p], s) ==> After(h, s, p))
      && (After(h, s, p) && !GivesUp(h.byB[p], s) ==> AnyAfter(h, s, p) || WithdrawnBefore(h, s))
  }

  /** Whoever said such an end does not receive the session any more. */
  ghost predicate Released(h: History, s: nat) {
    h.w.b.More? && AnyAfter(h, s, |h.byB|) ==> h.w.b.n.role != Receiving(s)
  }

  /** While A sends in the session, it has taken no such end, and every end it said itself refused B's own session. */
  ghost predicate Standing(h: History, s: nat) {
    h.w.a.More? && EndsOwn(Moment(h.w.a.n.role, 0, None), s) && |h.byA| == |h.w.a.n.sent| ==>
      && BeginAt(h.w.a.n.sent, s) < |h.w.a.n.sent|
      && !AnyAfter(h, s, h.w.takenByA)
      && forall e :: BeginAt(h.w.a.n.sent, s) < e < |h.w.a.n.sent| && IsEnd(h.w.a.n.sent[e], s) ==>
           BeginAt(h.w.b.n.sent, s) < h.byA[e].taken
  }

  ghost predicate Sorted(h: History, s: nat) {
    && Connected(h.w) && Timed(h) && Answered(h, s) && OwnAnswered(h, s) && Placed(h, s) && Released(h, s)
    && Standing(h, s)
  }

  // ---- The main argument ----

  /** An end of A that only refused B's own session was not taken by B before that session began. */
  lemma NotWithdrawnBefore(h: History, s: nat)
    requires Timed(h) && Standing(h, s) && h.w.a.More? && EndsOwn(Moment(h.w.a.n.role, 0, None), s)
    ensures !WithdrawnBefore(h, s)
  {
    hide BeginAt;
    var own := BeginAt(h.w.b.n.sent, s);
    if own < |h.byB| {
      forall e | BeginAt(h.w.a.n.sent, s) < e < h.byB[own].taken && e < |h.w.a.n.sent|
        ensures !IsEnd(h.w.a.n.sent[e], s) {
        assert !(e < h.byB[own].taken && own < h.byA[e].taken);
      }
    }
  }

  /** In a sorted history an end that A takes while it sends in the session gives that session up exactly when B said it
      after taking the session's beginning. */
  lemma SortedDecides(h: History, s: nat)
    requires Sorted(h, s) && h.w.a.More? && EndsOwn(Moment(h.w.a.n.role, 0, None), s)
    requires h.w.takenByA < |h.w.b.n.sent| && IsEnd(h.w.b.n.sent[h.w.takenByA], s)
    ensures var p := h.w.takenByA;
            && (GivesUp(h.byB[p], s) <==> BeginAt(h.w.a.n.sent, s) < h.byB[p].taken)
            && (!GivesUp(h.byB[p], s) ==> EndsOwn(h.byB[p], s))
            && (GivesUp(h.byB[p], s) && h.w.b.More? ==> h.w.b.n.role != Receiving(s))
  {
    hide BeginAt, Connected, GivesUp, WithdrawnBefore, EndsOwn;
    NotWithdrawnBefore(h, s);
  }

  // ---- What a move of B keeps ----

  lemma FollowsBeginning(w: World, s: nat)
    requires Connected(w) && w.b.More? && w.b.n.role == Receiving(s)
    ensures BeginAt(w.a.n.sent, s) < w.takenByB
  {
    hide BeginAt, HearAll;
    HeardWasBegun(w.a.n.physical, w.a.n.sent[..w.takenByB], s);
    BeginStays(w.a.n.sent[..w.takenByB], w.a.n.sent, s);
  }

  lemma BeginningIsOne(w: World, i: nat, s: nat)
    requires Connected(w) && i < |w.a.n.sent| && IsBegin(w.a.n.sent[i], s)
    ensures BeginAt(w.a.n.sent, s) == i
  {
    hide BeginAt, HearAll;
    LoggedOk(w.a.n);
    BeginsOnce(w.a.n.physical, w.a.n.sent, i, s);
  }

  /** B's move `m` in the history `h`, and what it says. */
  ghost predicate MoveOfB(h: History, m: Move) {
    && Connected(h.w) && Timed(h) && !m.byA && Allowed(h.w.b, h.w.a, h.w.takenByB, m.env, m.ev)
  }

  lemma MomentsAdded(before: seq<Moment>, me: Flow, taken: nat, env: Env, ev: Event)
    requires |before| == |me.n.sent|
    ensures var all := before + NewMoments(me, taken, env, ev);
            && |all| == |Step(me.n, env, ev).n.sent|
            && forall k :: |before| <= k < |all| ==> all[k] == MomentOf(me.n, taken, env, ev, k)
  {
    hide Step, MomentOf;
  }

  lemma RecordedB(h: History, m: Move)
    requires MoveOfB(h, m)
    ensures var g, w := Recorded(h, m), h.w;
            && g.w.a == w.a && g.w.takenByA == w.takenByA && g.byA == h.byA
            && g.w.b == Step(w.b.n, m.env, m.ev) && g.w.takenByB == Taken(w.b, w.takenByB, m.env, m.ev)
            && w.b.n.sent <= g.w.b.n.sent && h.byB <= g.byB && |g.byB| == |g.w.b.n.sent|
            && (forall k :: |h.byB| <= k < |g.byB| ==> g.byB[k] == MomentOf(w.b.n, w.takenByB, m.env, m.ev, k))
            && (m.ev.Received? ==> w.takenByB < |w.a.n.sent| && m.ev.message == w.a.n.sent[w.takenByB])
            && w.takenByB <= g.w.takenByB <= w.takenByB + 1
            && (m.ev.Received? && Preamble(w.b.n, m.env).More? ==> g.w.takenByB == w.takenByB + 1)
            && (!m.ev.Received? ==> g.w.takenByB == w.takenByB)
  {
    hide Connected, Step, Preamble, MomentOf, NewMoments;
    MomentsAdded(h.byB, h.w.b, h.w.takenByB, m.env, m.ev);
  }

  lemma TimedB(h: History, m: Move)
    requires MoveOfB(h, m)
    ensures Timed(Recorded(h, m))
  {
    hide Connected, Step, Preamble, Recorded, Allowed;
    RecordedB(h, m);
  }

  /** Nothing that was after the beginning before B's move stops being so. */
  lemma AfterStaysB(h: History, m: Move, s: nat, limit: nat)
    requires MoveOfB(h, m) && limit <= |h.byB|
    ensures forall p :: 0 <= p < |h.byB| ==> (After(Recorded(h, m), s, p) <==> After(h, s, p))
    ensures AnyAfter(Recorded(h, m), s, limit) <==> AnyAfter(h, s, limit)
    ensures AnyAfter(h, s, limit) ==> AnyAfter(Recorded(h, m), s, |Recorded(h, m).byB|)
    ensures Withdrawn(h, s, h.w.takenByB) ==>
              Withdrawn(Recorded(h, m), s, h.w.takenByB) && Withdrawn(Recorded(h, m), s, Recorded(h, m).w.takenByB)
    ensures WithdrawnBefore(h, s) ==> WithdrawnBefore(Recorded(h, m), s)
  {
    hide Connected, Step, Preamble, Recorded, Allowed, BeginAt, MomentOf;
    RecordedB(h, m);
    var g := Recorded(h, m);
    BeginStays(h.w.b.n.sent, g.w.b.n.sent, s);
    assert forall p :: 0 <= p < |h.byB| ==> g.byB[p] == h.byB[p] && g.w.b.n.sent[p] == h.w.b.n.sent[p];
    if AnyAfter(h, s, limit) {
      var p :| 0 <= p < limit && After(h, s, p);
      assert After(g, s, p);
    }
  }

  /** An end of the session that B says after taking its beginning. */
  lemma SaidAfter(h: History, m: Move, s: nat)
    requires MoveOfB(h, m) && BeginAt(h.w.a.n.sent, s) < h.w.takenByB
    requires EndSaid(h.w.b.n.sent, Step(h.w.b.n, m.env, m.ev).n.sent, s)
    ensures AnyAfter(Recorded(h, m), s, |Recorded(h, m).byB|)
  {
    hide Connected, Step, Preamble, Recorded, Allowed, BeginAt;
    RecordedB(h, m);
    var g := Recorded(h, m);
    var k :| |h.w.b.n.sent| <= k < |g.w.b.n.sent| && IsEnd(g.w.b.n.sent[k], s);
    assert After(g, s, k);
  }

  /** A refusal of the beginning. */
  lemma RefusedAfter(h: History, m: Move, s: nat)
    requires MoveOfB(h, m) && m.ev.Received? && IsBegin(m.ev.message, s) && Preamble(h.w.b.n, m.env).More?
    requires EndSaid(Preamble(h.w.b.n, m.env).n.sent, Step(h.w.b.n, m.env, m.ev).n.sent, s)
    ensures AnyAfter(Recorded(h, m), s, |Recorded(h, m).byB|)
  {
    hide Connected, Step, Preamble, Recorded, Allowed, BeginAt;
    RecordedB(h, m);
    BeginningIsOne(h.w, h.w.takenByB, s);
    var g := Recorded(h, m);
    var k :| |Preamble(h.w.b.n, m.env).n.sent| <= k < |g.w.b.n.sent| && IsEnd(g.w.b.n.sent[k], s);
    assert After(g, s, k);
  }

  lemma AnsweredB(h: History, m: Move, s: nat)
    requires MoveOfB(h, m) && Answered(h, s)
    ensures Answered(Recorded(h, m), s)
  {
    hide Connected, Step, Preamble, Recorded, Allowed, BeginAt, MomentOf;
    RecordedB(h, m);
    AfterStaysB(h, m, s, |h.byB|);
    BranchNeedsMore(h.w.b, h.w.a, h.w.takenByB, m);
    var g, w := Recorded(h, m), h.w;
    var o := BeginAt(w.a.n.sent, s);
    if g.w.b.More? && o < g.w.takenByB {
      if o < w.takenByB {
        if w.b.n.role == Receiving(s) {
          StaysReceiving(w.b.n, m.env, m.ev, s);
          if EndSaid(w.b.n.sent, g.w.b.n.sent, s) {
            SaidAfter(h, m, s);
          } else if m.ev.Received? && IsEnd(m.ev.message, s) {
            MoreNeedsPreamble(w.b.n, m.env, m.ev);
            assert g.w.b.n.role == Receiving(s) || IsEnd(g.w.a.n.sent[w.takenByB], s);
          }
        }
      } else {
        TakenBeginning(w.b.n, m.env, m.ev, s);
        if g.w.b.n.role != Receiving(s) {
          RefusedAfter(h, m, s);
        }
      }
    }
  }

  /** What the moment of a computer's own new session tells. */
  lemma OwnBegins(h: History, m: Move, s: nat)
    requires MoveOfB(h, m) && Recorded(h, m).w.b.More?
    requires !EndsOwn(Moment(h.w.b.n.role, 0, None), s) && EndsOwn(Moment(Recorded(h, m).w.b.n.role, 0, None), s)
    ensures var g := Recorded(h, m);
            var own := BeginAt(g.w.b.n.sent, s);
            own < |g.byB| && g.byB[own].taken == h.w.takenByB == g.w.takenByB
  {
    hide Connected, Step, Preamble, Recorded, Allowed, BeginAt, Half;
    RecordedB(h, m);
    var g, n := Recorded(h, m), h.w.b.n;
    NewlySending(n, m.env, m.ev, s);
    StillConnected(h, m);
    HalfOfB(g.w);
    HalfOfB(h.w);
    SendingWasBegun(g.w.b, g.w.a, g.w.takenByB, s);
    LoggedSide(h.w.b, h.w.a, h.w.takenByB);
    NextIsNew(n);
    BeginStays(n.sent, g.w.b.n.sent, s);
    BeginStays(n.sent, Preamble(n, m.env).n.sent, s);
    BeginStays(Preamble(n, m.env).n.sent, g.w.b.n.sent, s);
  }

  lemma StillConnected(h: History, m: Move)
    requires Connected(h.w)
    ensures Connected(Recorded(h, m).w)
  {
    hide Half, Allowed, Step;
    MoveKeeps(h.w, m);
  }

  lemma SendingWasBegun(me: Flow, peer: Flow, taken: nat, s: nat)
    requires Half(me, peer, taken) && me.More? && EndsOwn(Moment(me.n.role, 0, None), s)
    ensures BeginAt(me.n.sent, s) < |me.n.sent| && s < me.n.nextSession
  {
    hide BeginAt, HearAll;
    HeardWasBegun(me.n.physical, me.n.sent, s);
  }

  lemma LoggedSide(me: Flow, peer: Flow, taken: nat)
    requires Half(me, peer, taken)
    ensures Logged(me.n)
  {
  }

  lemma NextIsNew(n: Node)
    requires Logged(n)
    ensures BeginAt(n.sent, n.nextSession) == |n.sent|
  {
    hide BeginAt, HearAll;
    var i := BeginAt(n.sent, n.nextSession);
    if i < |n.sent| {
      BegunIsHeard(n.physical, n.sent, i);
      assert false;
    }
  }

  lemma OwnAnsweredB(h: History, m: Move, s: nat)
    requires MoveOfB(h, m) && Answered(h, s) && OwnAnswered(h, s)
    ensures OwnAnswered(Recorded(h, m), s)
  {
    hide Connected, Step, Preamble, Recorded, Allowed, BeginAt, MomentOf;
    RecordedB(h, m);
    AfterStaysB(h, m, s, |h.byB|);
    BranchNeedsMore(h.w.b, h.w.a, h.w.takenByB, m);
    var g, w := Recorded(h, m), h.w;
    var o := BeginAt(w.a.n.sent, s);
    if g.w.b.More? && EndsOwn(Moment(g.w.b.n.role, 0, None), s) && o < g.w.takenByB {
      if !EndsOwn(Moment(w.b.n.role, 0, None), s) {
        OwnBegins(h, m, s);
        NewlySending(w.b.n, m.env, m.ev, s);
        if w.b.n.role == Receiving(s) {
          SaidAfter(h, m, s);
        }
      } else if o == w.takenByB {
        TakenBeginning(w.b.n, m.env, m.ev, s);
        RefusedAfter(h, m, s);
      }
    }
  }

  /** An end that B says now. */
  lemma PlacedNew(h: History, m: Move, s: nat, p: nat)
    requires MoveOfB(h, m) && OwnAnswered(h, s)
    requires |h.byB| <= p < |Recorded(h, m).byB| && IsEnd(Recorded(h, m).w.b.n.sent[p], s)
    ensures var g := Recorded(h, m);
            && (GivesUp(g.byB[p], s) || EndsOwn(g.byB[p], s))
            && (GivesUp(g.byB[p], s) ==> After(g, s, p))
            && (After(g, s, p) && !GivesUp(g.byB[p], s) ==> AnyAfter(g, s, p) || WithdrawnBefore(g, s))
  {
    hide Connected, Step, Preamble, Recorded, Allowed, BeginAt, WithdrawnBefore;
    RecordedB(h, m);
    AfterStaysB(h, m, s, |h.byB|);
    var g, w := Recorded(h, m), h.w;
    EndsSaid(w.b.n, m.env, m.ev, s, p);
    var ready := Preamble(w.b.n, m.env);
    if w.b.n.role == Receiving(s) {
      BranchNeedsMore(w.b, w.a, w.takenByB, m);
      FollowsBeginning(w, s);
    }
    if m.ev.Received? && IsBegin(m.ev.message, s) {
      BeginningIsOne(w, w.takenByB, s);
    }
    if EndsOwn(g.byB[p], s) && After(g, s, p) && !GivesUp(g.byB[p], s) {
      BranchNeedsMore(w.b, w.a, w.takenByB, m);
      assert BeginAt(w.a.n.sent, s) < w.takenByB;
      assert AnyAfter(g, s, |h.byB|) || WithdrawnBefore(g, s);
    }
  }

  lemma BranchNeedsMore(me: Flow, peer: Flow, taken: nat, m: Move)
    requires Allowed(me, peer, taken, m.env, m.ev)
    ensures me.More?
  {
  }

  lemma PlacedB(h: History, m: Move, s: nat)
    requires MoveOfB(h, m) && OwnAnswered(h, s) && Placed(h, s)
    ensures Placed(Recorded(h, m), s)
  {
    hide Connected, Step, Preamble, Recorded, Allowed, BeginAt, MomentOf, GivesUp, EndsOwn, After, AnyAfter,
         WithdrawnBefore, OwnAnswered;
    RecordedB(h, m);
    var g := Recorded(h, m);
    forall p | 0 <= p < |g.byB| && IsEnd(g.w.b.n.sent[p], s)
      ensures GivesUp(g.byB[p], s) || EndsOwn(g.byB[p], s)
      ensures GivesUp(g.byB[p], s) ==> After(g, s, p)
      ensures After(g, s, p) && !GivesUp(g.byB[p], s) ==> AnyAfter(g, s, p) || WithdrawnBefore(g, s) {
      if p < |h.byB| {
        AfterStaysB(h, m, s, p);
        assert g.byB[p] == h.byB[p] && g.w.b.n.sent[p] == h.w.b.n.sent[p];
      } else {
        PlacedNew(h, m, s, p);
      }
    }
  }

  lemma ReleasedB(h: History, m: Move, s: nat)
    requires MoveOfB(h, m) && Released(h, s)
    ensures Released(Recorded(h, m), s)
  {
    hide Connected, Step, Preamble, Recorded, Allowed, BeginAt;
    RecordedB(h, m);
    AfterStaysB(h, m, s, |h.byB|);
    var g, w := Recorded(h, m), h.w;
    if g.w.b.More? && g.w.b.n.role == Receiving(s) {
      NewlyReceiving(w.b.n, m.env, m.ev, s);
      if m.ev.Received? && IsBegin(m.ev.message, s) {
        BeginningIsOne(w, w.takenByB, s);
      }
      if w.b.n.role == Receiving(s) {
        BranchNeedsMore(w.b, w.a, w.takenByB, m);
        FollowsBeginning(w, s);
      }
      forall p | 0 <= p < |g.byB| ensures !After(g, s, p) {
        if p < |h.byB| {
          assert After(g, s, p) <==> After(h, s, p);
        }
      }
    }
  }

  lemma StandingB(h: History, m: Move, s: nat)
    requires MoveOfB(h, m) && Standing(h, s)
    ensures Standing(Recorded(h, m), s)
  {
    hide Connected, Step, Preamble, Recorded, Allowed, BeginAt, MomentOf, After;
    RecordedB(h, m);
    AfterStaysB(h, m, s, h.w.takenByA);
    BeginStays(h.w.b.n.sent, Recorded(h, m).w.b.n.sent, s);
  }

  lemma SortedB(h: History, m: Move, s: nat)
    requires Sorted(h, s) && MoveOfB(h, m)
    ensures Sorted(Recorded(h, m), s)
  {
    hide Connected, Recorded, Allowed, MoveOfB, Timed, Answered, OwnAnswered, Placed, Released, Standing;
    StillConnected(h, m);
    TimedB(h, m);
    AnsweredB(h, m, s);
    OwnAnsweredB(h, m, s);
    PlacedB(h, m, s);
    ReleasedB(h, m, s);
    StandingB(h, m, s);
  }

  // ---- What a move of A keeps ----

  ghost predicate MoveOfA(h: History, m: Move) {
    && Connected(h.w) && Timed(h) && m.byA && Allowed(h.w.a, h.w.b, h.w.takenByA, m.env, m.ev)
  }

  lemma RecordedA(h: History, m: Move)
    requires MoveOfA(h, m)
    ensures var g, w := Recorded(h, m), h.w;
            && g.w.b == w.b && g.w.takenByB == w.takenByB && g.byB == h.byB
            && g.w.a == Step(w.a.n, m.env, m.ev) && g.w.takenByA == Taken(w.a, w.takenByA, m.env, m.ev)
            && w.a.n.sent <= g.w.a.n.sent && h.byA <= g.byA && |g.byA| == |g.w.a.n.sent|
            && (forall k :: |h.byA| <= k < |g.byA| ==> g.byA[k] == MomentOf(w.a.n, w.takenByA, m.env, m.ev, k))
            && (m.ev.Received? ==> w.takenByA < |w.b.n.sent| && m.ev.message == w.b.n.sent[w.takenByA])
            && w.takenByA <= g.w.takenByA <= w.takenByA + 1
            && (g.w.takenByA > w.takenByA ==> m.ev.Received?)
  {
    hide Connected, Step, Preamble, MomentOf, NewMoments;
    MomentsAdded(h.byA, h.w.a, h.w.takenByA, m.env, m.ev);
  }

  lemma TimedA(h: History, m: Move)
    requires MoveOfA(h, m)
    ensures Timed(Recorded(h, m))
  {
    hide Connected, Step, Preamble, Recorded, Allowed;
    RecordedA(h, m);
  }

  /** What A says now changes nothing about what B said and took before. */
  lemma AfterStaysA(h: History, m: Move, s: nat)
    requires MoveOfA(h, m)
    ensures var g := Recorded(h, m);
            && (forall p :: After(g, s, p) <==> After(h, s, p))
            && (forall limit :: AnyAfter(g, s, limit) <==> AnyAfter(h, s, limit))
            && (Withdrawn(h, s, h.w.takenByB) ==> Withdrawn(g, s, h.w.takenByB))
            && (WithdrawnBefore(h, s) ==> WithdrawnBefore(g, s))
  {
    hide Connected, Step, Preamble, Recorded, Allowed, BeginAt, MomentOf;
    RecordedA(h, m);
    var g := Recorded(h, m);
    BeginStays(h.w.a.n.sent, g.w.a.n.sent, s);
    assert forall e :: 0 <= e < |h.byA| ==> g.w.a.n.sent[e] == h.w.a.n.sent[e];
    forall limit ensures AnyAfter(g, s, limit) <==> AnyAfter(h, s, limit) {
      assert forall p :: After(g, s, p) <==> After(h, s, p);
    }
  }

  lemma PeerOfA(h: History, m: Move, s: nat)
    requires MoveOfA(h, m) && Answered(h, s) && OwnAnswered(h, s) && Placed(h, s) && Released(h, s)
    ensures var g := Recorded(h, m); Answered(g, s) && OwnAnswered(g, s) && Placed(g, s) && Released(g, s)
  {
    hide Connected, Step, Preamble, Recorded, Allowed, BeginAt, MomentOf, After, AnyAfter, WithdrawnBefore, Withdrawn;
    RecordedA(h, m);
    AfterStaysA(h, m, s);
    BeginStays(h.w.a.n.sent, Recorded(h, m).w.a.n.sent, s);
  }

  lemma StandingA(h: History, m: Move, s: nat)
    requires MoveOfA(h, m) && Standing(h, s)
    ensures Standing(Recorded(h, m), s)
  {
    hide Connected, Recorded, Allowed, Step, BeginAt;
    RecordedA(h, m);
    var g := Recorded(h, m);
    if g.w.a.More? && EndsOwn(Moment(g.w.a.n.role, 0, None), s) {
      BranchNeedsMore(h.w.a, h.w.b, h.w.takenByA, m);
      if EndsOwn(Moment(h.w.a.n.role, 0, None), s) {
        StandsOn(h, m, s);
      } else {
        StandsNewly(h, m, s);
      }
    }
  }

  lemma StandsOn(h: History, m: Move, s: nat)
    requires MoveOfA(h, m) && Standing(h, s) && h.w.a.More? && Recorded(h, m).w.a.More?
    requires EndsOwn(Moment(h.w.a.n.role, 0, None), s) && EndsOwn(Moment(Recorded(h, m).w.a.n.role, 0, None), s)
    ensures Standing(Recorded(h, m), s)
  {
    hide Half, Step, Preamble, Recorded, Allowed, BeginAt, After;
    RecordedA(h, m);
    AfterStaysA(h, m, s);
    var g, w := Recorded(h, m), h.w;
    SendingWasBegun(w.a, w.b, w.takenByA, s);
    StaysSending(w.a.n, m.env, m.ev, s);
    BeginStays(w.a.n.sent, g.w.a.n.sent, s);
    forall p | 0 <= p < g.w.takenByA ensures !After(g, s, p) {
      AfterIsEnd(h, s, p);
    }
    forall e | BeginAt(g.w.a.n.sent, s) < e < |g.w.a.n.sent| && IsEnd(g.w.a.n.sent[e], s)
      ensures BeginAt(g.w.b.n.sent, s) < g.byA[e].taken {
      if e < |w.a.n.sent| {
        assert g.byA[e] == h.byA[e] && g.w.a.n.sent[e] == w.a.n.sent[e];
      } else {
        assert g.byA[e] == MomentOf(w.a.n, w.takenByA, m.env, m.ev, e);
      }
    }
  }

  lemma AfterIsEnd(h: History, s: nat, p: nat)
    ensures After(h, s, p) ==> p < |h.w.b.n.sent| && IsEnd(h.w.b.n.sent[p], s)
  {
  }

  lemma StandsNewly(h: History, m: Move, s: nat)
    requires MoveOfA(h, m) && h.w.a.More? && Recorded(h, m).w.a.More?
    requires !EndsOwn(Moment(h.w.a.n.role, 0, None), s) && EndsOwn(Moment(Recorded(h, m).w.a.n.role, 0, None), s)
    ensures Standing(Recorded(h, m), s)
  {
    hide Connected, Half, Step, Preamble, Recorded, Allowed, BeginAt, MomentOf;
    RecordedA(h, m);
    var g, n := Recorded(h, m), h.w.a.n;
    NewlySending(n, m.env, m.ev, s);
    StillConnected(h, m);
    HalfOfA(g.w);
    SendingWasBegun(g.w.a, g.w.b, g.w.takenByA, s);
    HalfOfA(h.w);
    LoggedSide(h.w.a, h.w.b, h.w.takenByA);
    NextIsNew(n);
    BeginStays(n.sent, Preamble(n, m.env).n.sent, s);
    BeginStays(Preamble(n, m.env).n.sent, g.w.a.n.sent, s);
  }

  lemma HalfOfA(w: World)
    requires Connected(w)
    ensures Half(w.a, w.b, w.takenByA)
  {
  }

  lemma HalfOfB(w: World)
    requires Connected(w)
    ensures Half(w.b, w.a, w.takenByB)
  {
  }

  lemma SortedA(h: History, m: Move, s: nat)
    requires Sorted(h, s) && MoveOfA(h, m)
    ensures Sorted(Recorded(h, m), s)
  {
    hide Connected, Recorded, Allowed, MoveOfA, Timed, Answered, OwnAnswered, Placed, Released, Standing;
    StillConnected(h, m);
    TimedA(h, m);
    PeerOfA(h, m, s);
    StandingA(h, m, s);
  }

  lemma SortedMove(h: History, m: Move, s: nat)
    requires Sorted(h, s)
    ensures Sorted(Recorded(h, m), s)
  {
    hide Connected, Allowed, Timed, Answered, OwnAnswered, Placed, Released, Standing;
    if MoveOfA(h, m) {
      SortedA(h, m, s);
    } else if MoveOfB(h, m) {
      SortedB(h, m, s);
    }
  }

  // ---- The main results ----

  /** What opens a connection ends no session. */
  lemma OpeningEndsNothing(e: Entry)
    ensures var f := Entered(e);
            (f.More? ==> f.n.role.Local?) && forall k :: 0 <= k < |f.n.sent| ==> !f.n.sent[k].End?
  {
    hide Injection.LocalLock;
    var n := Fresh(e.desktop, e.physical, e.unlocked, e.luck, e.fate);
    var locked := Receive(n, Injection.LocalLock(n.recv, !n.localReady));
    ReceiveStill(n.(recv := locked.n.recv), Injection.LocalLock(n.recv, !n.localReady));
    if locked.More? {
      IntroduceEndsNothing(locked.n, e.pads);
    }
  }

  lemma IntroduceEndsNothing(n: Node, pads: nat)
    ensures KeepsRole(n, Introduce(n, pads))
  {
    hide Send;
    OpeningSays(n, DesktopInfo(n.desktop));
    var shown := Send(n, DesktopInfo(n.desktop));
    if shown.More? {
      OpeningSays(shown.n, Touchpads(pads));
      var listed := Send(shown.n, Touchpads(pads));
      if listed.More? {
        OpeningSays(listed.n, LockState(!n.localReady));
      }
    }
  }

  lemma OpeningSays(n: Node, m: Message)
    requires !m.Begin? && !m.End?
    ensures KeepsRole(n, Send(n, m)) && (Send(n, m).More? ==> Send(n, m).n.localReady == n.localReady)
  {
    hide LeavesPaper, Letters;
  }

  lemma StartIsSorted(a: Entry, b: Entry, s: nat)
    ensures Sorted(HistoryOf(Together(a, b), []), s)
  {
    hide Half, Entered, BeginAt;
    AlwaysConnected(a, b, []);
    OpeningEndsNothing(a);
    OpeningEndsNothing(b);
  }

  lemma {:induction false} AlwaysSorted(a: Entry, b: Entry, moves: seq<Move>, s: nat)
    ensures Sorted(HistoryOf(Together(a, b), moves), s)
    decreases |moves|
  {
    hide Sorted, Recorded, Entered;
    if moves == [] {
      StartIsSorted(a, b, s);
    } else {
      AlwaysSorted(a, b, moves[..|moves| - 1], s);
      SortedMove(HistoryOf(Together(a, b), moves[..|moves| - 1]), moves[|moves| - 1], s);
    }
  }

  /** A is about to take this end while it sends in the session. */
  ghost predicate TakesEnd(h: History, env: Env, s: nat, exit: Option<Position>) {
    && Allowed(h.w.a, h.w.b, h.w.takenByA, env, Received(End(s, exit)))
    && Preamble(h.w.a.n, env).More? && EndsOwn(Moment(Preamble(h.w.a.n, env).n.role, 0, None), s)
  }

  /** Over every run of two connected computers: an end that A takes while it sends in a session was said to give up
      that session exactly when B said it after taking the session's beginning. Then B does not receive the session any
      more; otherwise B was ending a session of its own with the same number. */
  lemma EndGivesUpWhen(a: Entry, b: Entry, moves: seq<Move>, env: Env, s: nat, exit: Option<Position>)
    requires TakesEnd(HistoryOf(Together(a, b), moves), env, s, exit)
    ensures var h := HistoryOf(Together(a, b), moves);
            var p := h.w.takenByA;
            && h.w == Played(Together(a, b), moves) && p < |h.byB|
            && (GivesUp(h.byB[p], s) <==> BeginAt(h.w.a.n.sent, s) < h.byB[p].taken)
            && (GivesUp(h.byB[p], s) && h.w.b.More? ==> h.w.b.n.role != Receiving(s))
            && (!GivesUp(h.byB[p], s) ==> EndsOwn(h.byB[p], s))
  {
    hide Recorded, Preamble, LegalStep, BeginAt, Connected, HistoryOf, Played, GivesUp;
    var h := HistoryOf(Together(a, b), moves);
    HistoryPlays(Together(a, b), moves);
    AlwaysSorted(a, b, moves, s);
    PreambleTurns(h.w.a.n, env);
    SortedDecides(h, s);
  }

  /** Taking the end, a computer stops without a word. */
  ghost predicate StopsSilently(n: Node, env: Env, s: nat, exit: Option<Position>) {
    var ready, f := Preamble(n, env).n, Step(n, env, Received(End(s, exit)));
    f.n.sent == ready.sent && (f.More? ==> f.n.role.Local?)
  }

  lemma TakingEndIsSilent(n: Node, env: Env, s: nat, exit: Option<Position>)
    requires Preamble(n, env).More? && EndsOwn(Moment(Preamble(n, env).n.role, 0, None), s)
    ensures StopsSilently(n, env, s, exit)
  {
    hide Preamble, OnEnd;
    EndTurns(Preamble(n, env).n, env, s, exit);
  }

  /** A receiver that is offered another session ends the connection. */
  lemma OverlapEnds(n: Node, env: Env, next: nat, entry: Position)
    requires n.role.Receiving?
    ensures OnBegin(n, env, next, entry) == Halt(n, Overlap)
  {
    hide EdgeNamed, ActiveEdges;
  }

  /** Either way A stops without a word. When B still receives the session, which it does only if the end was said
      before its beginning was taken, the two roles disagree from then on and B is not told; A's next beginning then
      ends the connection. */
  lemma StaleEndIsSilent(a: Entry, b: Entry, moves: seq<Move>, env: Env, s: nat, exit: Option<Position>,
                         peerEnv: Env, next: nat, entry: Position)
    requires TakesEnd(HistoryOf(Together(a, b), moves), env, s, exit)
    requires var w := HistoryOf(Together(a, b), moves).w; w.b.More? && w.b.n.role == Receiving(s)
    ensures var h := HistoryOf(Together(a, b), moves);
            && h.w.takenByA < |h.byB|
            && h.byB[h.w.takenByA].taken <= BeginAt(h.w.a.n.sent, s) && EndsOwn(h.byB[h.w.takenByA], s)
            && StopsSilently(h.w.a.n, env, s, exit)
            && OnBegin(h.w.b.n, peerEnv, next, entry) == Halt(h.w.b.n, Overlap)
  {
    hide Preamble, LegalStep, BeginAt, Connected, HistoryOf, Played, GivesUp, StopsSilently, OnBegin, Allowed;
    EndGivesUpWhen(a, b, moves, env, s, exit);
    var h := HistoryOf(Together(a, b), moves);
    TakingEndIsSilent(h.w.a.n, env, s, exit);
    OverlapEnds(h.w.b.n, peerEnv, next, entry);
  }
}
