// Changing the layout on both computers at once: who has written what, and what may be reported (the layout messages
// of src/bridge.rs and the prepared edits of src/manager.rs).
module LayoutSafety {
  import opened ControlSafety
  import opened Coordination
  import opened Geometry
  import opened Injection
  import opened Link
  import opened Protocol

  // ---- What one iteration can do to the configuration file ----

  /** A pending change is dropped: an uncommitted one leaves the file alone, a committed one is rolled back if the
      file still holds it and the write does not fail. */
  predicate Drops(p: Paper, after: Paper) {
    && p.layout.Some?
    && after == p.(layout := None, file := after.file, rollbackLost := after.rollbackLost, replies := after.replies)
    && var change := p.layout.value;
       if !change.committed || p.file != change.next then after.file == p.file && after.rollbackLost == p.rollbackLost
       else (after.file == change.before && after.rollbackLost == p.rollbackLost)
            || (after.file == p.file && after.rollbackLost)
  }

  /** What was said about it: at most the one given letter, and that one unless the connection ended. */
  predicate Says(l: seq<LayoutMessage>, after: seq<LayoutMessage>, m: LayoutMessage, halted: bool) {
    after == l + [m] || (halted && after == l)
  }

  predicate Answers(p: Paper, after: Paper) {
    after.replies == p.replies || after.replies == p.replies + [NotApplied] || after.replies == p.replies + [Released]
  }

  datatype Effect =
    | Nothing
    | Proposed(id: nat, edges: seq<EdgeConfig>, peerEdges: seq<EdgeConfig>, revision: Document)
    | Accepted(id: nat, edges: seq<EdgeConfig>, revision: Document)
    | Refused(id: nat)
    | Wrote(change: PendingLayout)
    | GaveUp(change: PendingLayout)
    | Adopted(change: PendingLayout)
    | Concluded(change: PendingLayout, told: Option<Document>)

  /** The letter that an effect answers, if any. */
  function Cause(ev: Event): Option<LayoutMessage> {
    if ev.Received? && ev.message.Layout? then Some(ev.message.letter) else None
  }

  /** The effect can follow from the event. */
  predicate Follows(e: Effect, ev: Event, id: nat) {
    match e
    case Nothing => true
    case Proposed(x, edges, peerEdges, revision) =>
      && ev.ApplyCommand? && x == id && edges == ev.request.localEdges && peerEdges == ev.request.peerEdges
      && revision == ev.request.peerRevision
    case Accepted(x, edges, revision) => Cause(ev) == Some(Prepare(x, edges, revision))
    case Refused(x) => Cause(ev).Some? && Cause(ev).value.Prepare?
    case Wrote(change) => Cause(ev) == Some(Prepared(change.id, true))
    case GaveUp(_) => true
    case Adopted(change) => Cause(ev) == Some(Commit(change.id))
    case Concluded(change, told) => Cause(ev) == Some(Result(change.id, true, told))
  }

  /** What the effect does to the file, the pending change and the letters. */
  predicate Effects(e: Effect, p: Paper, l: seq<LayoutMessage>, after: Paper, m: seq<LayoutMessage>, halted: bool) {
    match e
    case Nothing => after == p.(replies := after.replies) && Answers(p, after) && m == l
    case Proposed(id, edges, peerEdges, revision) =>
      && p.layout.None?
      && after == p.(layout := Some(PendingLayout(id, p.file, p.file.(edges := edges), false, true, peerEdges)))
      && Says(l, m, Prepare(id, peerEdges, revision), halted)
    case Accepted(id, edges, revision) =>
      && p.layout.None? && revision == p.file
      && after == p.(layout := Some(PendingLayout(id, p.file, p.file.(edges := edges), false, false, [])))
      && Says(l, m, Prepared(id, true), halted)
    case Refused(id) => after == p && Says(l, m, Prepared(id, false), halted)
    case Wrote(change) =>
      && p.layout == Some(change) && change.mine && p.file == change.before
      && after == p.(file := change.next, layout := Some(change.(committed := true)),
                     written := p.written[change.id := change.next])
      && Says(l, m, Commit(change.id), halted)
    case GaveUp(change) =>
      && p.layout == Some(change) && Drops(p, after) && Answers(p, after)
      && (m == l || m == l + [Abort(change.id)] || m == l + [Result(change.id, false, None)])
    case Adopted(change) =>
      && p.layout == Some(change) && !change.mine && p.file == change.before && halted
      && after == p.(file := change.next, layout := None, adopted := Some(change.(committed := true)),
                     written := p.written[change.id := change.next])
      && Says(l, m, Result(change.id, true, Some(change.next)), halted)
    case Concluded(change, told) =>
      && p.layout == Some(change) && change.mine && halted && m == l
      && after == p.(layout := None, adopted := Some(change),
                     replies := p.replies + [Applied(change.id, change.next, told)])
  }

  ghost predicate Explained(n: Node, f: Flow, ev: Event, id: nat) {
    exists e :: Follows(e, ev, id) && Effects(e, n.paper, Letters(n.sent), f.n.paper, Letters(f.n.sent), f.Halt?)
  }

  lemma Explain(e: Effect, n: Node, f: Flow, ev: Event, id: nat)
    requires Follows(e, ev, id)
    requires Effects(e, n.paper, Letters(n.sent), f.n.paper, Letters(f.n.sent), f.Halt?)
    ensures Explained(n, f, ev, id)
  {
  }

  lemma LeavesExplained(n: Node, f: Flow, ev: Event, id: nat)
    requires LeavesPaper(n, f.n)
    ensures Explained(n, f, ev, id)
  {
    Explain(Nothing, n, f, ev, id);
  }

  lemma ReleaseExplained(n: Node, env: Env)
    ensures Explained(n, OnRelease(n, env), ReleaseCommand, env.id)
  {
    hide EndSession, StopCapture, PlaceBack, Letters;
    Explain(Nothing, n, OnRelease(n, env), ReleaseCommand, env.id);
  }

  lemma ApplyExplained(n: Node, env: Env, r: LayoutRequest)
    ensures Explained(n, OnApply(n, env, r), ApplyCommand(r), env.id)
  {
    hide Cleared, Letters, Send, Try, ValidRequest, ValidEdges;
    var f, ev := OnApply(n, env, r), ApplyCommand(r);
    if f.n.paper.layout != n.paper.layout {
      Explain(Proposed(env.id, r.localEdges, r.peerEdges, r.peerRevision), n, f, ev, env.id);
    } else {
      Explain(Nothing, n, f, ev, env.id);
    }
  }

  lemma DroppedDrops(n: Node)
    requires n.paper.layout.Some?
    ensures Drops(n.paper, Dropped(n).paper) && Dropped(n).paper.replies == n.paper.replies
  {
    var p, freed := n.paper.layout.value, n.paper.(layout := None);
    if p.committed && n.paper.file == p.next && Next(n.luck) != FailedBefore {
      assert Dropped(n).paper == freed.(file := p.before);
    }
  }

  lemma AbandonExplained(n: Node, f: Flow, p: PendingLayout, ev: Event, id: nat)
    requires n.paper.layout == Some(p)
    requires f == Abandon(n, p) || f == Send(Dropped(n), Layout(Result(p.id, false, None)))
             || f == More(RepliedIf(Dropped(n), p.mine, NotApplied))
    ensures Explained(n, f, ev, id)
  {
    hide Dropped, Letters, Send;
    DroppedDrops(n);
    Explain(GaveUp(p), n, f, ev, id);
  }

  lemma PrepareExplained(n: Node, env: Env, id: nat, edges: seq<EdgeConfig>, revision: Document)
    ensures Explained(n, OnPrepare(n, env, id, edges, revision),
                      Received(Layout(Prepare(id, edges, revision))), env.id)
  {
    hide Cleared, Letters, Send, ValidEdges;
    var f, ev := OnPrepare(n, env, id, edges, revision), Received(Layout(Prepare(id, edges, revision)));
    if CanPrepare(n, env, edges, revision) {
      if Cleared(n).More? {
        Explain(Accepted(id, edges, revision), n, f, ev, env.id);
      } else {
        LeavesExplained(n, f, ev, env.id);
      }
    } else {
      Explain(Refused(id), n, f, ev, env.id);
    }
  }

  lemma PreparedExplained(n: Node, env: Env, p: PendingLayout, ok: bool)
    requires n.paper.layout == Some(p) && p.mine
    ensures Explained(n, OnPrepared(n, env, p, ok), Received(Layout(Prepared(p.id, ok))), env.id)
  {
    hide Abandon, Letters, Send;
    var f, ev := OnPrepared(n, env, p, ok), Received(Layout(Prepared(p.id, ok)));
    var (tried, written) := if ok then Committed(n, env, p) else (n, false);
    if written {
      Explain(Wrote(p), n, f, ev, env.id);
    } else {
      AbandonExplained(tried, f, p, ev, env.id);
    }
  }

  lemma CommitExplained(n: Node, env: Env, p: PendingLayout)
    requires n.paper.layout == Some(p) && !p.mine
    ensures Explained(n, OnCommit(n, env, p), Received(Layout(Commit(p.id))), env.id)
  {
    hide Letters, Send, Dropped;
    var f, ev := OnCommit(n, env, p), Received(Layout(Commit(p.id)));
    var (tried, written) := Committed(n, env, p);
    if written {
      Explain(Adopted(p), n, f, ev, env.id);
    } else {
      AbandonExplained(tried, f, p, ev, env.id);
    }
  }

  lemma LayoutExplained(n: Node, env: Env, m: LayoutMessage)
    ensures Explained(n, OnLayout(n, env, m), Received(Layout(m)), env.id)
  {
    hide OnPrepare, OnPrepared, OnCommit, Dropped, Letters, Explained, LeavesPaper;
    var f, ev := OnLayout(n, env, m), Received(Layout(m));
    if m.Prepare? {
      PrepareExplained(n, env, m.id, m.edges, m.revision);
    } else if !Concerns(n, m.id) {
      Unconcerned(n, f, ev, env.id);
    } else {
      var p := n.paper.layout.value;
      match m
      case Prepared(id, ok) =>
        if p.mine { PreparedExplained(n, env, p, ok); } else { Unconcerned(n, f, ev, env.id); }
      case Commit(id) =>
        if p.mine { Unconcerned(n, f, ev, env.id); } else { CommitExplained(n, env, p); }
      case Result(id, ok, adopted) =>
        if !p.mine {
          Unconcerned(n, f, ev, env.id);
        } else if ok {
          Explain(Concluded(p, adopted), n, f, ev, env.id);
        } else {
          AbandonExplained(n, f, p, ev, env.id);
        }
      case Abort(id) => AbandonExplained(n, f, p, ev, env.id);
    }
  }

  lemma Unconcerned(n: Node, f: Flow, ev: Event, id: nat)
    requires f == More(n)
    ensures Explained(n, f, ev, id)
  {
    LeavesExplained(n, f, ev, id);
  }

  lemma TickExplained(n: Node, env: Env)
    ensures Explained(n, OnTick(n, env), Tick, env.id)
  {
    hide Abandon, Letters, SampledIfReady, Act, Explained;
    var f := OnTick(n, env);
    var polled := Try(n, PollFailed);
    if polled.More? && polled.n.paper.layout.Some? && env.expired {
      TickAbandons(n, env, polled.n.paper.layout.value);
    } else {
      LeavesExplained(n, f, Tick, env.id);
    }
  }

  lemma TickAbandons(n: Node, env: Env, p: PendingLayout)
    requires Try(n, PollFailed).More? && n.paper.layout == Some(p) && env.expired
    ensures Explained(n, OnTick(n, env), Tick, env.id)
  {
    hide Letters, SampledIfReady, Act, Dropped, Send;
    var f := OnTick(n, env);
    DroppedDrops(Try(n, PollFailed).n);
    Explain(GaveUp(p), n, f, Tick, env.id);
  }

  /** Every iteration does one of these things to the configuration file, and only when its event calls for it. */
  lemma StepExplained(n: Node, env: Env, ev: Event)
    ensures Explained(n, Step(n, env, ev), ev, env.id)
  {
    hide Preamble, Branch, Letters, Explained;
    var ready := Preamble(n, env);
    if ready.More? {
      BranchExplained(ready.n, env, ev);
      ExplainedAfter(n, ready.n, Branch(ready.n, env, ev), ev, env.id);
    } else {
      LeavesExplained(n, ready, ev, env.id);
    }
  }

  lemma ExplainedAfter(n: Node, ready: Node, f: Flow, ev: Event, id: nat)
    requires LeavesPaper(n, ready) && Explained(ready, f, ev, id)
    ensures Explained(n, f, ev, id)
  {
  }

  lemma BranchExplained(n: Node, env: Env, ev: Event)
    ensures Explained(n, Branch(n, env, ev), ev, env.id)
  {
    hide Letters, Explained, OnOutputs, OnRelease, OnApply, OnStatus, OnTick, OnCapture, OnLayout, OnPeerLock, OnBegin,
         OnInput, OnEnd, Send, Try, LeavesPaper;
    var f := Branch(n, env, ev);
    match ev
    case ReleaseCommand => ReleaseExplained(n, env);
    case ApplyCommand(request) => ApplyExplained(n, env, request);
    case Tick => TickExplained(n, env);
    case Received(message) =>
      if message.Layout? {
        LayoutExplained(n, env, message.letter);
      } else {
        MessageLeaves(n, env, message);
        LeavesExplained(n, f, ev, env.id);
      }
    case _ =>
      OtherLeaves(n, env, ev);
      LeavesExplained(n, f, ev, env.id);
  }

  lemma MessageLeaves(n: Node, env: Env, m: Message)
    requires !m.Layout?
    ensures LeavesPaper(n, OnMessage(n, env, m).n)
  {
    hide Letters, OnLayout, OnPeerLock, OnBegin, OnInput, OnEnd, Send;
  }

  lemma OtherLeaves(n: Node, env: Env, ev: Event)
    requires !ev.ReleaseCommand? && !ev.ApplyCommand? && !ev.Tick? && !ev.Received?
    ensures LeavesPaper(n, Branch(n, env, ev).n)
  {
    hide Letters, OnOutputs, OnStatus, OnCapture;
  }

  // ---- What one computer's file and letters always satisfy ----

  /** No identifier is proposed twice. */
  predicate Unique(l: seq<LayoutMessage>) {
    forall i, j :: 0 <= i < j < |l| && l[i].Prepare? && l[j].Prepare? ==> l[i].id != l[j].id
  }

  ghost predicate ProposedIn(l: seq<LayoutMessage>, id: nat) {
    exists i :: 0 <= i < |l| && l[i].Prepare? && l[i].id == id
  }

  ghost predicate OffersIn(l: seq<LayoutMessage>, id: nat, edges: seq<EdgeConfig>) {
    exists i :: 0 <= i < |l| && l[i].Prepare? && l[i].id == id && l[i].edges == edges
  }

  /** The change that is prepared or written here. */
  predicate PendingSound(p: Paper, l: seq<LayoutMessage>, change: PendingLayout, original: Document) {
    && p.adopted.None?
    && (if change.committed
        then change.mine && p.file == change.next && change.id in p.written && p.written[change.id] == change.next
        else p.file == change.before && (change.mine ==> Commit(change.id) !in l))
    && (!p.rollbackLost ==> change.before == original)
  }

  /** The change that was finished here is what the file holds. */
  predicate AdoptedSound(p: Paper, l: seq<LayoutMessage>, change: PendingLayout) {
    && p.layout.None? && p.file == change.next
    && change.id in p.written && p.written[change.id] == change.next
  }

  ghost predicate Own(p: Paper, l: seq<LayoutMessage>, original: Document, ended: bool) {
    && Unique(l)
    && (p.layout.Some? ==> PendingSound(p, l, p.layout.value, original))
    && (p.layout.Some? && p.layout.value.mine && !ended ==> OffersIn(l, p.layout.value.id, p.layout.value.peerEdges))
    && (p.layout.None? && p.adopted.None? && !p.rollbackLost ==> p.file == original)
    && (p.adopted.Some? ==> ended && AdoptedSound(p, l, p.adopted.value))
    && (p.adopted.Some? && !p.rollbackLost ==> p.adopted.value.before == original)
    && (p.adopted.Some? && p.adopted.value.mine ==> OffersIn(l, p.adopted.value.id, p.adopted.value.peerEdges))
    && (forall m :: m in l && m.Commit? ==> m.id in p.written && ProposedIn(l, m.id))
    && (forall m :: m in l && m.Result? && m.ok ==>
          p.adopted.Some? && !p.adopted.value.mine && p.adopted.value.id == m.id
          && m.adopted == Some(p.adopted.value.next))
    && (forall r :: r in p.replies && r.Applied? ==>
          p.adopted.Some? && p.adopted.value.mine && p.adopted.value.id == r.id && r.local == p.adopted.value.next)
  }

  /** What one computer's state rests on in the other's letters: a prepared change was proposed there, a change taken
      over was committed there, and a reported success was confirmed there. */
  ghost predicate Rests(p: Paper, peer: seq<LayoutMessage>) {
    && (p.layout.Some? && !p.layout.value.mine ==> RestsOn(p.layout.value, peer))
    && (p.adopted.Some? && !p.adopted.value.mine ==>
          RestsOn(p.adopted.value, peer) && Commit(p.adopted.value.id) in peer)
    && (p.adopted.Some? && p.adopted.value.mine ==> ConfirmedIn(peer, p.adopted.value.id))
    && (forall r :: r in p.replies && r.Applied? ==> Result(r.id, true, r.peer) in peer)
  }

  ghost predicate ConfirmedIn(l: seq<LayoutMessage>, id: nat) {
    exists m :: m in l && m.Result? && m.ok && m.id == id
  }

  predicate RestsOn(change: PendingLayout, peer: seq<LayoutMessage>) {
    change.next == change.before.(edges := change.next.edges)
    && Prepare(change.id, change.next.edges, change.before) in peer
  }

  lemma OffersGrow(l: seq<LayoutMessage>, more: seq<LayoutMessage>, id: nat, edges: seq<EdgeConfig>)
    requires OffersIn(l, id, edges)
    ensures OffersIn(l + more, id, edges)
  {
    var i :| 0 <= i < |l| && l[i].Prepare? && l[i].id == id && l[i].edges == edges;
    assert (l + more)[i] == l[i];
  }

  lemma ProposedGrows(l: seq<LayoutMessage>, more: seq<LayoutMessage>, id: nat)
    requires ProposedIn(l, id)
    ensures ProposedIn(l + more, id)
  {
    var i :| 0 <= i < |l| && l[i].Prepare? && l[i].id == id;
    assert (l + more)[i] == l[i];
  }

  lemma OwnNothing(p: Paper, l: seq<LayoutMessage>, original: Document, after: Paper, ended: bool)
    requires Own(p, l, original, false) && after == p.(replies := after.replies) && Answers(p, after)
    ensures Own(after, l, original, ended)
  {
  }

  /** Anything said that is neither a proposal, a commit nor a confirmation leaves the letters sound. */
  lemma OwnSays(p: Paper, l: seq<LayoutMessage>, original: Document, m: LayoutMessage, ended: bool)
    requires Own(p, l, original, false) && !m.Prepare? && !m.Commit? && !(m.Result? && m.ok)
    ensures Own(p, l + [m], original, ended)
  {
    hide OffersIn, ProposedIn;
    if p.layout.Some? && p.layout.value.mine {
      OffersGrow(l, [m], p.layout.value.id, p.layout.value.peerEdges);
    }
    forall x | x in l + [m] && x.Commit? ensures x.id in p.written && ProposedIn(l + [m], x.id) {
      ProposedGrows(l, [m], x.id);
    }
  }

  lemma OwnProposed(p: Paper, l: seq<LayoutMessage>, original: Document, e: Effect, after: Paper,
                    m: seq<LayoutMessage>, halted: bool)
    requires Own(p, l, original, false) && e.Proposed? && Effects(e, p, l, after, m, halted) && !ProposedIn(l, e.id)
    ensures Own(after, m, original, halted)
  {
    hide ProposedIn;
    var said := Prepare(e.id, e.peerEdges, e.revision);
    assert Commit(e.id) !in l;
    forall i | 0 <= i < |l| && l[i].Prepare? ensures l[i].id != e.id {
      NotProposed(l, i, e.id);
    }
    assert (l + [said])[|l|] == said;
    forall x | x in l && x.Commit? ensures ProposedIn(l + [said], x.id) {
      ProposedGrows(l, [said], x.id);
    }
  }

  lemma NotProposed(l: seq<LayoutMessage>, i: nat, id: nat)
    requires !ProposedIn(l, id) && i < |l| && l[i].Prepare?
    ensures l[i].id != id
  {
  }

  lemma OwnWrote(p: Paper, l: seq<LayoutMessage>, original: Document, e: Effect, after: Paper,
                 m: seq<LayoutMessage>, halted: bool)
    requires Own(p, l, original, false) && e.Wrote? && Effects(e, p, l, after, m, halted)
    ensures Own(after, m, original, halted)
  {
    hide OffersIn, ProposedIn;
    var said := Commit(e.change.id);
    OffersGrow(l, [said], e.change.id, e.change.peerEdges);
    OffersProposed(l, e.change.id, e.change.peerEdges);
    ProposedGrows(l, [said], e.change.id);
    forall x | x in l && x.Commit? ensures ProposedIn(l + [said], x.id) {
      ProposedGrows(l, [said], x.id);
    }
  }

  lemma OffersProposed(l: seq<LayoutMessage>, id: nat, edges: seq<EdgeConfig>)
    requires OffersIn(l, id, edges)
    ensures ProposedIn(l, id)
  {
  }

  lemma OwnGaveUp(p: Paper, l: seq<LayoutMessage>, original: Document, e: Effect, after: Paper,
                  m: seq<LayoutMessage>, halted: bool)
    requires Own(p, l, original, false) && e.GaveUp? && Effects(e, p, l, after, m, halted)
    ensures Own(after, m, original, halted)
  {
    hide OffersIn, ProposedIn;
    assert Own(after, l, original, false);
    OwnNothing(after, l, original, after, halted);
    if m != l {
      OwnSays(after, l, original, m[|l|], halted);
      assert m == l + [m[|l|]];
    }
  }

  lemma OwnAdopted(p: Paper, l: seq<LayoutMessage>, original: Document, e: Effect, after: Paper,
                   m: seq<LayoutMessage>, halted: bool)
    requires Own(p, l, original, false) && e.Adopted? && Effects(e, p, l, after, m, halted)
    ensures Own(after, m, original, halted)
  {
    hide OffersIn, ProposedIn;
    var said := Result(e.change.id, true, Some(e.change.next));
    forall x | x in l && x.Commit? ensures ProposedIn(l + [said], x.id) {
      ProposedGrows(l, [said], x.id);
    }
  }

  /** Every effect keeps this side sound: a proposal must be under a new identifier, and a conclusion must concern a
      change that was written here. */
  lemma OwnKeeps(p: Paper, l: seq<LayoutMessage>, original: Document, e: Effect, after: Paper,
                 m: seq<LayoutMessage>, halted: bool)
    requires Own(p, l, original, false) && Effects(e, p, l, after, m, halted)
    requires e.Proposed? ==> !ProposedIn(l, e.id)
    requires e.Concluded? ==> e.change.committed
    ensures Own(after, m, original, halted)
  {
    match e
    case Nothing => OwnNothing(p, l, original, after, halted);
    case Proposed(_, _, _, _) => OwnProposed(p, l, original, e, after, m, halted);
    case Accepted(id, _, _) =>
      OwnSays(p, l, original, Prepared(id, true), halted);
    case Refused(id) =>
      OwnSays(p, l, original, Prepared(id, false), halted);
    case Wrote(_) => OwnWrote(p, l, original, e, after, m, halted);
    case GaveUp(_) => OwnGaveUp(p, l, original, e, after, m, halted);
    case Adopted(_) => OwnAdopted(p, l, original, e, after, m, halted);
    case Concluded(_, _) =>
  }

  lemma RestsKeeps(p: Paper, l: seq<LayoutMessage>, peer: seq<LayoutMessage>, e: Effect, after: Paper,
                   m: seq<LayoutMessage>, halted: bool, ev: Event, id: nat)
    requires Rests(p, peer) && Effects(e, p, l, after, m, halted) && Follows(e, ev, id)
    requires Cause(ev).Some? ==> Cause(ev).value in peer
    ensures Rests(after, peer)
  {
  }

  lemma RestsGrows(p: Paper, peer: seq<LayoutMessage>, more: seq<LayoutMessage>)
    requires Rests(p, peer)
    ensures Rests(p, peer + more)
  {
  }

  // ---- Both computers ----

  /** What each side's file and letters satisfy, given the files they started from. */
  ghost predicate Papers(w: World, originalA: Document, originalB: Document) {
    var a, b := Letters(w.a.n.sent), Letters(w.b.n.sent);
    && Own(w.a.n.paper, a, originalA, w.a.Halt?) && Own(w.b.n.paper, b, originalB, w.b.Halt?)
    && Rests(w.a.n.paper, b) && Rests(w.b.n.paper, a)
  }

  /** Transaction identifiers are drawn at random and never repeat. */
  ghost predicate FreshId(w: World, m: Move) {
    m.ev.ApplyCommand? ==>
      !ProposedIn(Letters(w.a.n.sent), m.env.id) && !ProposedIn(Letters(w.b.n.sent), m.env.id)
  }

  lemma {:induction false} LetterHeard(sent: seq<Message>, i: nat)
    requires i < |sent| && sent[i].Layout?
    ensures sent[i].letter in Letters(sent)
    decreases |sent|
  {
    if i < |sent| - 1 {
      LetterHeard(sent[..|sent| - 1], i);
    }
  }

  /** Letters are only added. */
  lemma {:induction false} LettersGrow(sent: seq<Message>, after: seq<Message>)
    requires sent <= after
    ensures Letters(sent) <= Letters(after)
    decreases |after|
  {
    if |sent| == |after| {
      assert sent == after;
    } else {
      LettersGrow(sent, after[..|after| - 1]);
    }
  }

  /** A confirmation from the other side means that the change was written here. */
  lemma ConfirmedIsWritten(p: Paper, l: seq<LayoutMessage>, original: Document, peerPaper: Paper,
                           peer: seq<LayoutMessage>, peerOriginal: Document, peerEnded: bool, change: PendingLayout,
                           told: Option<Document>)
    requires Own(p, l, original, false) && Own(peerPaper, peer, peerOriginal, peerEnded) && Rests(peerPaper, l)
    requires p.layout == Some(change) && change.mine && Result(change.id, true, told) in peer
    ensures change.committed
  {
    hide OffersIn, ProposedIn, Unique, AdoptedSound, RestsOn;
    var q := peerPaper.adopted.value;
    assert peerPaper.adopted.Some? && !q.mine && q.id == change.id;
    assert Commit(q.id) in l;
  }

  lemma SideKeeps(me: Flow, peer: Flow, taken: nat, original: Document, peerOriginal: Document, env: Env, ev: Event)
    requires Allowed(me, peer, taken, env, ev)
    requires ev.ApplyCommand? ==> !ProposedIn(Letters(me.n.sent), env.id)
    requires Own(me.n.paper, Letters(me.n.sent), original, false)
    requires Own(peer.n.paper, Letters(peer.n.sent), peerOriginal, peer.Halt?)
    requires Rests(me.n.paper, Letters(peer.n.sent)) && Rests(peer.n.paper, Letters(me.n.sent))
    ensures var f := Step(me.n, env, ev);
            && Own(f.n.paper, Letters(f.n.sent), original, f.Halt?)
            && Rests(f.n.paper, Letters(peer.n.sent)) && Rests(peer.n.paper, Letters(f.n.sent))
  {
    hide Own, Rests, Step, LegalStep, Letters, ProposedIn, Effects;
    StepExplained(me.n, env, ev);
    var f := Step(me.n, env, ev);
    var l, m, peerLetters := Letters(me.n.sent), Letters(f.n.sent), Letters(peer.n.sent);
    var e :| Follows(e, ev, env.id) && Effects(e, me.n.paper, l, f.n.paper, m, f.Halt?);
    if ev.Received? && ev.message.Layout? {
      LetterHeard(peer.n.sent, taken);
    }
    if e.Concluded? {
      ConcludesPending(e, me.n.paper, l, f.n.paper, m, f.Halt?);
      ConfirmedIsWritten(me.n.paper, l, original, peer.n.paper, peerLetters, peerOriginal, peer.Halt?, e.change,
                         e.told);
    }
    OwnKeeps(me.n.paper, l, original, e, f.n.paper, m, f.Halt?);
    RestsKeeps(me.n.paper, l, peerLetters, e, f.n.paper, m, f.Halt?, ev, env.id);
    LettersGrow(me.n.sent, f.n.sent);
    assert m == l + m[|l|..];
    RestsGrows(peer.n.paper, l, m[|l|..]);
  }

  lemma ConcludesPending(e: Effect, p: Paper, l: seq<LayoutMessage>, after: Paper, m: seq<LayoutMessage>, halted: bool)
    requires e.Concluded? && Effects(e, p, l, after, m, halted)
    ensures p.layout == Some(e.change) && e.change.mine
  {
  }

  lemma MoveKeepsPapers(w: World, m: Move, originalA: Document, originalB: Document)
    requires Papers(w, originalA, originalB) && FreshId(w, m)
    ensures Papers(Moved(w, m), originalA, originalB)
  {
    hide Own, Rests, Step, LegalStep, Letters, ProposedIn, Taken, TouchFrames;
    if m.byA {
      if Allowed(w.a, w.b, w.takenByA, m.env, m.ev) {
        SideKeeps(w.a, w.b, w.takenByA, originalA, originalB, m.env, m.ev);
      }
    } else if Allowed(w.b, w.a, w.takenByB, m.env, m.ev) {
      SideKeeps(w.b, w.a, w.takenByB, originalB, originalA, m.env, m.ev);
    }
  }

  // ---- The order of letters ----

  ghost predicate HeardIn(heard: seq<LayoutMessage>, id: nat, before: nat) {
    exists i :: 0 <= i < before <= |heard| && heard[i] == Prepared(id, true)
  }

  /** A change prepared for the other side was asked for after everything that was ever committed here was answered. */
  ghost predicate Late(l: seq<LayoutMessage>, heard: seq<LayoutMessage>, id: nat) {
    exists j :: 0 <= j < |heard| && heard[j].Prepare? && heard[j].id == id
                && forall m :: m in l && m.Commit? ==> HeardIn(heard, m.id, j)
  }

  /** No proposal was made here once this change had been prepared for the other side. */
  predicate SilentSince(l: seq<LayoutMessage>, id: nat) {
    forall i, j :: 0 <= i < |l| && 0 <= j < |l| && l[i] == Prepared(id, true) && l[j].Prepare? ==> j < i
  }

  /** What has been said here, `l`, against what has been heard, in order. */
  ghost predicate InOrder(p: Paper, l: seq<LayoutMessage>, heard: seq<LayoutMessage>) {
    && (forall m :: m in l && m.Prepared? && m.ok ==> ProposedIn(heard, m.id))
    && (forall m :: m in l && m.Commit? ==> HeardIn(heard, m.id, |heard|))
    && (p.layout.Some? && !p.layout.value.mine ==>
          SilentSince(l, p.layout.value.id) && Late(l, heard, p.layout.value.id))
    && (p.adopted.Some? && !p.adopted.value.mine ==>
          SilentSince(l, p.adopted.value.id) && Late(l, heard, p.adopted.value.id))
  }

  lemma LateGrows(l: seq<LayoutMessage>, heard: seq<LayoutMessage>, m: LayoutMessage, id: nat)
    requires Late(l, heard, id)
    ensures Late(l, heard + [m], id)
  {
    var j :| 0 <= j < |heard| && heard[j].Prepare? && heard[j].id == id
             && forall x :: x in l && x.Commit? ==> HeardIn(heard, x.id, j);
    forall x | x in l && x.Commit? ensures HeardIn(heard + [m], x.id, j) {
      HeardGrows1(heard, m, x.id, j);
    }
    assert (heard + [m])[j] == heard[j];
  }

  lemma HeardGrows1(heard: seq<LayoutMessage>, m: LayoutMessage, id: nat, before: nat)
    requires HeardIn(heard, id, before)
    ensures HeardIn(heard + [m], id, before)
  {
    var i :| 0 <= i < before <= |heard| && heard[i] == Prepared(id, true);
    assert (heard + [m])[i] == heard[i];
  }

  lemma HeardLater(heard: seq<LayoutMessage>, id: nat, before: nat, later: nat)
    requires HeardIn(heard, id, before) && before <= later <= |heard|
    ensures HeardIn(heard, id, later)
  {
  }

  /** Hearing one more letter disturbs nothing. */
  lemma InOrderHears(p: Paper, l: seq<LayoutMessage>, heard: seq<LayoutMessage>, m: LayoutMessage)
    requires InOrder(p, l, heard)
    ensures InOrder(p, l, heard + [m])
  {
    hide ProposedIn, HeardIn, Late, SilentSince;
    forall x | x in l && x.Prepared? && x.ok ensures ProposedIn(heard + [m], x.id) {
      ProposedGrows(heard, [m], x.id);
    }
    forall x | x in l && x.Commit? ensures HeardIn(heard + [m], x.id, |heard + [m]|) {
      HeardGrows1(heard, m, x.id, |heard|);
      HeardLater(heard + [m], x.id, |heard|, |heard| + 1);
    }
    if p.layout.Some? && !p.layout.value.mine {
      LateGrows(l, heard, m, p.layout.value.id);
    }
    if p.adopted.Some? && !p.adopted.value.mine {
      LateGrows(l, heard, m, p.adopted.value.id);
    }
  }

  /** Saying something that is neither a proposal, nor an acceptance, nor a commit disturbs nothing. */
  lemma InOrderSays(p: Paper, l: seq<LayoutMessage>, heard: seq<LayoutMessage>, m: LayoutMessage)
    requires InOrder(p, l, heard) && !m.Prepare? && !m.Commit? && !(m.Prepared? && m.ok)
    ensures InOrder(p, l + [m], heard)
  {
    hide ProposedIn, HeardIn;
    if p.layout.Some? && !p.layout.value.mine {
      LateSays(l, heard, m, p.layout.value.id);
    }
    if p.adopted.Some? && !p.adopted.value.mine {
      LateSays(l, heard, m, p.adopted.value.id);
    }
  }

  lemma LateSays(l: seq<LayoutMessage>, heard: seq<LayoutMessage>, m: LayoutMessage, id: nat)
    requires Late(l, heard, id) && !m.Commit?
    ensures Late(l + [m], heard, id)
  {
    hide HeardIn;
    var j :| 0 <= j < |heard| && heard[j].Prepare? && heard[j].id == id
             && forall x :: x in l && x.Commit? ==> HeardIn(heard, x.id, j);
    assert forall x :: x in l + [m] && x.Commit? ==> HeardIn(heard, x.id, j);
  }

  lemma NewProposal(heard: seq<LayoutMessage>, m: LayoutMessage)
    requires m.Prepare? && Unique(heard + [m])
    ensures !ProposedIn(heard, m.id)
  {
    forall i | 0 <= i < |heard| && heard[i].Prepare? ensures heard[i].id != m.id {
      assert (heard + [m])[i] == heard[i] && (heard + [m])[|heard|] == m;
    }
  }

  /** Accepting: the proposal is the last letter heard, so it was never accepted before, and it comes after every
      answer that led to a commit. */
  lemma InOrderAccepts(p: Paper, l: seq<LayoutMessage>, heard: seq<LayoutMessage>, m: LayoutMessage, after: Paper,
                       said: seq<LayoutMessage>, halted: bool)
    requires InOrder(p, l, heard) && m.Prepare? && Unique(heard + [m]) && p.adopted.None?
    requires Effects(Accepted(m.id, m.edges, m.revision), p, l, after, said, halted)
    ensures InOrder(after, said, heard + [m])
  {
    InOrderHears(p, l, heard, m);
    var all := heard + [m];
    assert all[|heard|] == m;
    NewProposal(heard, m);
    forall i | 0 <= i < |l| ensures l[i] != Prepared(m.id, true) {
      assert l[i] in l;
    }
    forall x | x in said && x.Commit? ensures HeardIn(all, x.id, |heard|) {
      assert x in l;
      HeardGrows1(heard, m, x.id, |heard|);
    }
    assert Late(said, all, m.id);
  }

  lemma InOrderWrites(p: Paper, l: seq<LayoutMessage>, heard: seq<LayoutMessage>, change: PendingLayout, after: Paper,
                      said: seq<LayoutMessage>, halted: bool)
    requires InOrder(p, l, heard) && p.adopted.None? && HeardIn(heard, change.id, |heard|)
    requires Effects(Wrote(change), p, l, after, said, halted)
    ensures InOrder(after, said, heard)
  {
    hide ProposedIn, HeardIn, Late, SilentSince;
  }

  /** An effect whose cause, if any, is the last letter heard keeps the order. */
  lemma InOrderKeeps(p: Paper, l: seq<LayoutMessage>, heard: seq<LayoutMessage>, e: Effect, after: Paper,
                     said: seq<LayoutMessage>, halted: bool)
    requires InOrder(p, l, heard) && Effects(e, p, l, after, said, halted) && p.adopted.None?
    requires !e.Accepted?
    requires e.Wrote? ==> HeardIn(heard, e.change.id, |heard|)
    ensures InOrder(after, said, heard)
  {
    hide ProposedIn, HeardIn, Late, SilentSince;
    match e
    case Nothing =>
    case Proposed(id, _, peerEdges, revision) => InOrderProposes(p, l, heard, e, after, said, halted);
    case Accepted(_, _, _) =>
    case Refused(id) => InOrderSays(p, l, heard, Prepared(id, false));
    case Wrote(change) => InOrderWrites(p, l, heard, change, after, said, halted);
    case GaveUp(change) =>
      InOrderSays(p, l, heard, Abort(change.id));
      InOrderSays(p, l, heard, Result(change.id, false, None));
    case Adopted(change) => InOrderSays(p, l, heard, Result(change.id, true, Some(change.next)));
    case Concluded(_, _) =>
  }

  lemma InOrderProposes(p: Paper, l: seq<LayoutMessage>, heard: seq<LayoutMessage>, e: Effect, after: Paper,
                        said: seq<LayoutMessage>, halted: bool)
    requires InOrder(p, l, heard) && e.Proposed? && Effects(e, p, l, after, said, halted) && p.adopted.None?
    ensures InOrder(after, said, heard)
  {
    hide ProposedIn, HeardIn, Late, SilentSince;
  }

  /** The letters of the other side that have been taken here. */
  function HeardLetters(peer: Flow, taken: nat): seq<LayoutMessage>
    requires taken <= |peer.n.sent|
  {
    Letters(peer.n.sent[..taken])
  }

  lemma HeardOneLetter(peer: Flow, taken: nat)
    requires taken < |peer.n.sent|
    ensures HeardLetters(peer, taken + 1)
         == HeardLetters(peer, taken)
            + if peer.n.sent[taken].Layout? then [peer.n.sent[taken].letter] else []
  {
    assert peer.n.sent[..taken + 1] == peer.n.sent[..taken] + [peer.n.sent[taken]];
    LettersNext(peer.n.sent[..taken], peer.n.sent[taken]);
  }

  lemma UniquePrefix(l: seq<LayoutMessage>, after: seq<LayoutMessage>)
    requires l <= after && Unique(after)
    ensures Unique(l)
  {
    forall i, j | 0 <= i < j < |l| && l[i].Prepare? && l[j].Prepare? ensures l[i].id != l[j].id {
      assert after[i] == l[i] && after[j] == l[j];
    }
  }

  lemma MoverInOrder(me: Flow, peer: Flow, taken: nat, env: Env, ev: Event)
    requires taken <= |peer.n.sent| && Allowed(me, peer, taken, env, ev)
    requires me.n.paper.adopted.None? && Unique(Letters(peer.n.sent))
    requires InOrder(me.n.paper, Letters(me.n.sent), HeardLetters(peer, taken))
    ensures var f, now := Step(me.n, env, ev), Taken(me, taken, env, ev);
            now <= |peer.n.sent| && InOrder(f.n.paper, Letters(f.n.sent), HeardLetters(peer, now))
  {
    hide InOrder, Step, LegalStep, Letters, ProposedIn, Effects, Preamble, Unique, HeardIn, Explained;
    var f := Step(me.n, env, ev);
    var heard := HeardLetters(peer, taken);
    if Preamble(me.n, env).Halt? {
      HaltedLeaves(me.n, env, ev);
      LeavesInOrder(me.n, f.n, heard);
    } else {
      StepExplained(me.n, env, ev);
      if ev.Received? {
        HeardOneLetter(peer, taken);
        LettersGrow(peer.n.sent[..taken + 1], peer.n.sent);
        UniquePrefix(HeardLetters(peer, taken + 1), Letters(peer.n.sent));
      }
      MoverExplained(me.n, f, ev, env.id, heard);
      assert HeardLetters(peer, Taken(me, taken, env, ev)) == HeardNow(heard, ev);
    }
  }

  function HeardNow(heard: seq<LayoutMessage>, ev: Event): seq<LayoutMessage> {
    if Cause(ev).Some? then heard + [Cause(ev).value] else heard
  }

  lemma HaltedLeaves(n: Node, env: Env, ev: Event)
    requires Preamble(n, env).Halt?
    ensures LeavesPaper(n, Step(n, env, ev).n)
  {
    hide Preamble, Branch;
  }

  lemma LeavesInOrder(n: Node, after: Node, heard: seq<LayoutMessage>)
    requires InOrder(n.paper, Letters(n.sent), heard) && LeavesPaper(n, after)
    ensures InOrder(after.paper, Letters(after.sent), heard)
  {
  }

  lemma MoverExplained(n: Node, f: Flow, ev: Event, id: nat, heard: seq<LayoutMessage>)
    requires Explained(n, f, ev, id) && n.paper.adopted.None? && InOrder(n.paper, Letters(n.sent), heard)
    requires Cause(ev).Some? ==> Unique(heard + [Cause(ev).value])
    ensures InOrder(f.n.paper, Letters(f.n.sent), HeardNow(heard, ev))
  {
    hide InOrder, Letters, ProposedIn, Effects, Unique;
    var l, said := Letters(n.sent), Letters(f.n.sent);
    var e :| Follows(e, ev, id) && Effects(e, n.paper, l, f.n.paper, said, f.Halt?);
    if e.Accepted? {
      InOrderAccepts(n.paper, l, heard, Cause(ev).value, f.n.paper, said, f.Halt?);
    } else {
      if Cause(ev).Some? {
        InOrderHears(n.paper, l, heard, Cause(ev).value);
      }
      if e.Wrote? {
        var now := HeardNow(heard, ev);
        assert now[|heard|] == Prepared(e.change.id, true);
      }
      InOrderKeeps(n.paper, l, HeardNow(heard, ev), e, f.n.paper, said, f.Halt?);
    }
  }

  // ---- Every run of two computers ----

  ghost predicate Orderly(w: World) {
    && w.takenByA <= |w.b.n.sent| && w.takenByB <= |w.a.n.sent|
    && InOrder(w.a.n.paper, Letters(w.a.n.sent), HeardLetters(w.b, w.takenByA))
    && InOrder(w.b.n.paper, Letters(w.b.n.sent), HeardLetters(w.a, w.takenByB))
  }

  ghost predicate Negotiated(w: World, originalA: Document, originalB: Document) {
    Papers(w, originalA, originalB) && Orderly(w)
  }

  lemma OwnFacts(p: Paper, l: seq<LayoutMessage>, original: Document, ended: bool)
    requires Own(p, l, original, ended)
    ensures Unique(l) && (!ended ==> p.adopted.None?)
  {
  }

  lemma MoveKeepsOrder(w: World, m: Move, originalA: Document, originalB: Document)
    requires Negotiated(w, originalA, originalB)
    ensures Orderly(Moved(w, m))
  {
    hide Own, Rests, Step, LegalStep, Letters, InOrder, TouchFrames, Unique, Taken, HeardLetters;
    OwnFacts(w.a.n.paper, Letters(w.a.n.sent), originalA, w.a.Halt?);
    OwnFacts(w.b.n.paper, Letters(w.b.n.sent), originalB, w.b.Halt?);
    if m.byA {
      if Allowed(w.a, w.b, w.takenByA, m.env, m.ev) {
        MoverInOrder(w.a, w.b, w.takenByA, m.env, m.ev);
        SameHeard(w.a, Step(w.a.n, m.env, m.ev), w.takenByB);
      }
    } else if Allowed(w.b, w.a, w.takenByB, m.env, m.ev) {
      MoverInOrder(w.b, w.a, w.takenByB, m.env, m.ev);
      SameHeard(w.b, Step(w.b.n, m.env, m.ev), w.takenByA);
    }
  }

  lemma SameHeard(peer: Flow, after: Flow, taken: nat)
    requires taken <= |peer.n.sent| && peer.n.sent <= after.n.sent
    ensures HeardLetters(after, taken) == HeardLetters(peer, taken)
  {
    assert after.n.sent[..taken] == peer.n.sent[..taken];
  }

  /** Every identifier is new when it is proposed. */
  ghost predicate FreshIds(start: World, moves: seq<Move>) {
    forall k :: 0 <= k < |moves| ==> FreshId(Played(start, moves[..k]), moves[k])
  }

  lemma StartNegotiated(a: Entry, b: Entry)
    ensures Negotiated(Together(a, b), a.desktop.revision, b.desktop.revision)
  {
    hide Open, Letters;
    EnteredPaper(a);
    EnteredPaper(b);
    assert Entered(b).n.sent[..0] == [] && Entered(a).n.sent[..0] == [];
    NoLetters();
  }

  lemma NoLetters()
    ensures Letters([]) == []
  {
  }

  lemma EnteredPaper(e: Entry)
    ensures var n := Entered(e).n;
            n.paper == Paper(e.desktop.revision, None, None, map[], false, []) && Letters(n.sent) == []
  {
    hide Injection.LocalLock, Letters, Send;
    NoLetters();
  }

  /** Over every run, with any delays, timeouts, aborts, refused writes, disconnects and simultaneous proposals. */
  lemma {:induction false} AlwaysNegotiated(a: Entry, b: Entry, moves: seq<Move>)
    requires FreshIds(Together(a, b), moves)
    ensures Negotiated(Played(Together(a, b), moves), a.desktop.revision, b.desktop.revision)
    decreases |moves|
  {
    hide Papers, Orderly, Moved, FreshId, Together, Entered;
    if moves == [] {
      StartNegotiated(a, b);
    } else {
      var shorter := moves[..|moves| - 1];
      assert forall k :: 0 <= k < |shorter| ==> shorter[..k] == moves[..k];
      AlwaysNegotiated(a, b, shorter);
      var w := Played(Together(a, b), shorter);
      MoveKeepsPapers(w, moves[|moves| - 1], a.desktop.revision, b.desktop.revision);
      MoveKeepsOrder(w, moves[|moves| - 1], a.desktop.revision, b.desktop.revision);
    }
  }

  // ---- The main results ----

  /** The luck left for rolling back when a connection is closed: stopping a live capture comes first. */
  function ClosingLuck(n: Node): seq<Luck> {
    if n.capture.live then Rest(n.luck) else n.luck
  }

  lemma CloseFrame(n: Node)
    ensures exists before: Node :: before.paper == n.paper && before.luck == ClosingLuck(n)
                                   && before.sent == n.sent && Close(n).n == Dropped(before)
  {
    hide Stop, Dropped;
    var before := StopCapture(Suspended(n.(recv := Stop(n.recv).r))).n;
    assert before.paper == n.paper && before.luck == ClosingLuck(n) && Close(n).n == Dropped(before);
  }

  lemma DroppedFile(n: Node, original: Document, ended: bool)
    requires Own(n.paper, Letters(n.sent), original, ended)
    ensures var p := Dropped(n).paper;
            && p.adopted == n.paper.adopted && p.replies == n.paper.replies && p.written == n.paper.written
            && (n.paper.adopted.Some? ==> p.file == n.paper.adopted.value.next == n.paper.file)
            && (n.paper.adopted.None? && !p.rollbackLost ==> p.file == original)
  {
    hide OffersIn, ProposedIn, Letters, Unique, Dropped;
    if n.paper.layout.Some? {
      DroppedDrops(n);
    } else {
      NothingDropped(n);
    }
  }

  lemma NothingDropped(n: Node)
    requires n.paper.layout.None?
    ensures Dropped(n) == n
  {
  }

  /** A connection that is closed, at whatever moment, leaves the finished change in the file, or else the file as it
      was found; unless the write that rolls a change back failed, which the program ignores. */
  lemma ClosedFile(n: Node, original: Document, ended: bool)
    requires Own(n.paper, Letters(n.sent), original, ended)
    ensures var p := Close(n).n.paper;
            && p.adopted == n.paper.adopted && p.replies == n.paper.replies && p.written == n.paper.written
            && (n.paper.adopted.Some? ==> p.file == n.paper.adopted.value.next == n.paper.file)
            && (n.paper.adopted.None? && !p.rollbackLost ==> p.file == original)
  {
    hide Close, Own, Letters, Dropped;
    CloseFrame(n);
    var before: Node :| before.paper == n.paper && before.luck == ClosingLuck(n) && before.sent == n.sent
                        && Close(n).n == Dropped(before);
    DroppedFile(before, original, ended);
  }

  /** A committed change that is still open when its connection is closed, in any run, is rolled back exactly when that
      last write does not fail before it takes effect; and that failure is what `rollbackLost` notes. */
  lemma RollbackExactly(a: Entry, b: Entry, moves: seq<Move>)
    requires FreshIds(Together(a, b), moves)
    requires var p := Played(Together(a, b), moves).a.n.paper;
             p.layout.Some? && p.layout.value.committed && p.layout.value.next != a.desktop.revision && !p.rollbackLost
    ensures var n := Played(Together(a, b), moves).a.n;
            && n.paper.file == n.paper.layout.value.next
            && (Close(n).n.paper.file == a.desktop.revision <==> Next(ClosingLuck(n)) != FailedBefore)
            && (Close(n).n.paper.rollbackLost <==> Next(ClosingLuck(n)) == FailedBefore)
  {
    hide Played, Together, Letters, InOrder, Close, OffersIn, ProposedIn, Unique;
    AlwaysNegotiated(a, b, moves);
    var n := Played(Together(a, b), moves).a.n;
    CloseFrame(n);
    var before: Node :| before.paper == n.paper && before.luck == ClosingLuck(n) && before.sent == n.sent
                        && Close(n).n == Dropped(before);
  }

  /** A committed change that is open when this event is handled is given up: at a tick past its deadline, or by a
      letter of the peer that refuses it, or that accepts it a second time, when it cannot be written again. */
  predicate GivesUp(n: Node, env: Env, ev: Event)
    requires n.paper.layout.Some?
  {
    var id := n.paper.layout.value.id;
    || (ev.Tick? && Next(n.luck) == Done && env.expired)
    || match Cause(ev)
       case Some(Abort(x)) => x == id
       case Some(Result(x, ok, _)) => x == id && !ok
       case Some(Prepared(x, _)) => x == id
       case _ => false
  }

  /** The luck left for rolling back then: polling the devices comes first in a tick, and the attempt to write first
      after an acceptance. */
  function RollbackLuck(n: Node, ev: Event): seq<Luck> {
    match Cause(ev)
    case Some(Prepared(_, ok)) => if ok then Rest(n.luck) else n.luck
    case _ => if ev.Tick? then Rest(n.luck) else n.luck
  }

  /** A change of this side that is written to the file. */
  predicate Standing(p: Paper) {
    && p.layout.Some? && p.adopted.None? && !p.rollbackLost
    && p.layout.value.committed && p.layout.value.mine && p.file == p.layout.value.next != p.layout.value.before
  }

  /** The change is given up, and its file rolled back exactly when the write does not fail before it takes effect. */
  predicate RollsBack(p: Paper, after: Paper, l: Luck)
    requires p.layout.Some?
  {
    && after.layout.None? && after.adopted.None?
    && (after.file == p.layout.value.before <==> l != FailedBefore)
    && (after.rollbackLost <==> l == FailedBefore)
  }

  /** After this event the change is either given up, or finished, or as it was; and it is given up exactly then. */
  predicate Resolves(p: Paper, after: Paper, givesUp: bool, l: Luck)
    requires Standing(p)
  {
    if givesUp then RollsBack(p, after, l)
    else after.file == p.file && !after.rollbackLost && (after.layout == p.layout || after.adopted == p.layout)
  }

  lemma DroppedRollsBack(n: Node)
    requires Standing(n.paper)
    ensures RollsBack(n.paper, Dropped(n).paper, Next(n.luck))
  {
  }

  lemma TickResolves(n: Node, env: Env)
    requires Standing(n.paper)
    ensures Resolves(n.paper, OnTick(n, env).n.paper, GivesUp(n, env, Tick), Next(RollbackLuck(n, Tick)))
  {
    hide Letters, SampledIfReady, Act, Dropped, Send;
    var polled := Try(n, PollFailed);
    if polled.More? {
      DroppedRollsBack(polled.n);
    }
  }

  lemma LetterResolves(n: Node, env: Env, m: LayoutMessage)
    requires Standing(n.paper)
    ensures var ev := Received(Layout(m));
            Resolves(n.paper, OnLayout(n, env, m).n.paper, GivesUp(n, env, ev), Next(RollbackLuck(n, ev)))
  {
    hide Letters, OnPrepare, Dropped, Send;
    DroppedRollsBack(n);
    DroppedRollsBack(n.(luck := Rest(n.luck)));
    if m.Prepare? {
      PrepareLeaves(n, env, m.id, m.edges, m.revision);
    }
  }

  lemma PrepareLeaves(n: Node, env: Env, id: nat, edges: seq<EdgeConfig>, revision: Document)
    requires n.paper.layout.Some?
    ensures OnPrepare(n, env, id, edges, revision).n.paper == n.paper
  {
    hide Letters, Send, ValidEdges;
  }

  lemma BranchResolves(n: Node, env: Env, ev: Event)
    requires Standing(n.paper)
    ensures Resolves(n.paper, Branch(n, env, ev).n.paper, GivesUp(n, env, ev), Next(RollbackLuck(n, ev)))
  {
    hide Letters, OnOutputs, OnRelease, OnApply, OnStatus, OnTick, OnCapture, OnLayout, OnPeerLock, OnBegin, OnInput,
         OnEnd, Send, Try;
    match ev
    case ReleaseCommand => ReleaseKeepsFile(n, env);
    case ApplyCommand(request) => ApplyKeepsFile(n, env, request);
    case Tick => TickResolves(n, env);
    case Received(message) =>
      if message.Layout? {
        LetterResolves(n, env, message.letter);
      } else {
        MessageLeaves(n, env, message);
      }
    case _ => OtherLeaves(n, env, ev);
  }

  lemma ReleaseKeepsFile(n: Node, env: Env)
    ensures OnRelease(n, env).n.paper == n.paper.(replies := OnRelease(n, env).n.paper.replies)
  {
    hide EndSession, StopCapture, PlaceBack, Letters;
  }

  lemma ApplyKeepsFile(n: Node, env: Env, r: LayoutRequest)
    requires n.paper.layout.Some?
    ensures OnApply(n, env, r).n.paper == n.paper.(replies := OnApply(n, env, r).n.paper.replies)
  {
    hide Letters, ValidEdges;
  }

  /** In any run, a move that meets a committed change of this side finishes it, gives it up or leaves it as it is; it
      is given up exactly in the cases listed, and then rolled back exactly when the write that does it does not fail
      before it takes effect. */
  lemma GivenUpExactly(a: Entry, b: Entry, moves: seq<Move>, env: Env, ev: Event)
    requires FreshIds(Together(a, b), moves)
    requires var w := Played(Together(a, b), moves);
             var p := w.a.n.paper;
             && Allowed(w.a, w.b, w.takenByA, env, ev)
             && p.layout.Some? && p.layout.value.committed && p.layout.value.next != a.desktop.revision
             && !p.rollbackLost
    ensures var n := Played(Together(a, b), moves).a.n;
            var after, ready := Step(n, env, ev).n.paper, Preamble(n, env);
            && n.paper.file == n.paper.layout.value.next && n.paper.layout.value.before == a.desktop.revision
            && if ready.More? && GivesUp(ready.n, env, ev)
               then RollsBack(n.paper, after, Next(RollbackLuck(ready.n, ev)))
               else after.file == n.paper.file && !after.rollbackLost
                    && (after.layout == n.paper.layout || after.adopted == n.paper.layout)
  {
    hide Played, Together, Letters, InOrder, Preamble, Branch, OffersIn, ProposedIn, Unique, GivesUp, RollsBack,
         RollbackLuck;
    AlwaysNegotiated(a, b, moves);
    var n := Played(Together(a, b), moves).a.n;
    assert Standing(n.paper);
    if Preamble(n, env).More? {
      BranchResolves(Preamble(n, env).n, env, ev);
    }
  }

  /** When success is reported, both files hold the layout that was asked for, and the reported revisions are those of
      the two files; closing the connections changes neither. */
  lemma SuccessIsTrue(a: Entry, b: Entry, moves: seq<Move>, id: nat, local: Document, told: Option<Document>)
    requires FreshIds(Together(a, b), moves)
    requires Applied(id, local, told) in Played(Together(a, b), moves).a.n.paper.replies
    ensures var w := Played(Together(a, b), moves);
            && w.a.n.paper.adopted.Some? && w.b.n.paper.adopted.Some?
            && w.a.n.paper.adopted.value.id == id == w.b.n.paper.adopted.value.id
            && Close(w.a.n).n.paper.file == w.a.n.paper.file == local
            && told == Some(w.b.n.paper.file) && Close(w.b.n).n.paper.file == w.b.n.paper.file
            && w.b.n.paper.file.edges == w.a.n.paper.adopted.value.peerEdges
  {
    hide Played, Together, Letters, ProposedIn, InOrder, Close;
    AlwaysNegotiated(a, b, moves);
    var w := Played(Together(a, b), moves);
    var la, lb := Letters(w.a.n.sent), Letters(w.b.n.sent);
    assert Result(id, true, told) in lb;
    var p, q := w.a.n.paper.adopted.value, w.b.n.paper.adopted.value;
    SameOffer(la, p.id, p.peerEdges, q);
    ClosedFile(w.a.n, a.desktop.revision, w.a.Halt?);
    ClosedFile(w.b.n, b.desktop.revision, w.b.Halt?);
  }

  /** The change is the one that a user of A asked for in this move, under this identifier. */
  ghost predicate AskedAt(moves: seq<Move>, k: nat, change: PendingLayout) {
    && k < |moves| && moves[k].byA && moves[k].ev.ApplyCommand? && moves[k].env.id == change.id
    && change.next == change.before.(edges := moves[k].ev.request.localEdges)
    && change.peerEdges == moves[k].ev.request.peerEdges
  }

  ghost predicate Asked(moves: seq<Move>, change: PendingLayout) {
    exists k: nat :: AskedAt(moves, k, change)
  }

  /** Every change of A's own that is pending or finished was asked for. */
  ghost predicate OwnAsked(p: Paper, moves: seq<Move>) {
    && (p.layout.Some? && p.layout.value.mine ==> Asked(moves, p.layout.value))
    && (p.adopted.Some? && p.adopted.value.mine ==> Asked(moves, p.adopted.value))
  }

  lemma AskedLater(moves: seq<Move>, change: PendingLayout, committed: bool)
    requires moves != [] && Asked(moves[..|moves| - 1], change)
    ensures Asked(moves, change) && Asked(moves, change.(committed := committed))
  {
    var k: nat :| AskedAt(moves[..|moves| - 1], k, change);
    assert AskedAt(moves, k, change) && AskedAt(moves, k, change.(committed := committed));
  }

  lemma EffectAsked(e: Effect, p: Paper, l: seq<LayoutMessage>, after: Paper, m: seq<LayoutMessage>, halted: bool,
                    moves: seq<Move>)
    requires moves != [] && moves[|moves| - 1].byA && OwnAsked(p, moves[..|moves| - 1])
    requires Effects(e, p, l, after, m, halted) && Follows(e, moves[|moves| - 1].ev, moves[|moves| - 1].env.id)
    ensures OwnAsked(after, moves)
  {
    hide AskedAt, Asked;
    if p.layout.Some? && p.layout.value.mine {
      AskedLater(moves, p.layout.value, true);
    }
    if p.adopted.Some? && p.adopted.value.mine {
      AskedLater(moves, p.adopted.value, true);
    }
    if e.Proposed? {
      ProposalAsked(e, p, moves);
    }
  }

  lemma ProposalAsked(e: Effect, p: Paper, moves: seq<Move>)
    requires moves != [] && moves[|moves| - 1].byA && e.Proposed?
    requires Follows(e, moves[|moves| - 1].ev, moves[|moves| - 1].env.id)
    ensures Asked(moves, PendingLayout(e.id, p.file, p.file.(edges := e.edges), false, true, e.peerEdges))
  {
    assert AskedAt(moves, |moves| - 1,
                   PendingLayout(e.id, p.file, p.file.(edges := e.edges), false, true, e.peerEdges));
  }

  lemma {:induction false} AlwaysAsked(a: Entry, b: Entry, moves: seq<Move>)
    ensures OwnAsked(Played(Together(a, b), moves).a.n.paper, moves)
    decreases |moves|
  {
    hide Allowed, Step, Letters, Open, Taken, Effects, OwnAsked, Asked, AskedAt;
    if moves == [] {
      EnteredPaper(a);
      NothingAsked(Entered(a).n.paper, moves);
    } else {
      var before, last := moves[..|moves| - 1], moves[|moves| - 1];
      AlwaysAsked(a, b, before);
      var p := Played(Together(a, b), before);
      if last.byA && Allowed(p.a, p.b, p.takenByA, last.env, last.ev) {
        StepExplained(p.a.n, last.env, last.ev);
        var f := Step(p.a.n, last.env, last.ev);
        var e :| Follows(e, last.ev, last.env.id)
                 && Effects(e, p.a.n.paper, Letters(p.a.n.sent), f.n.paper, Letters(f.n.sent), f.Halt?);
        EffectAsked(e, p.a.n.paper, Letters(p.a.n.sent), f.n.paper, Letters(f.n.sent), f.Halt?, moves);
      } else {
        StillAsked(p.a.n.paper, moves);
      }
    }
  }

  lemma NothingAsked(p: Paper, moves: seq<Move>)
    requires p.layout.None? && p.adopted.None?
    ensures OwnAsked(p, moves)
  {
  }

  lemma StillAsked(p: Paper, moves: seq<Move>)
    requires moves != [] && OwnAsked(p, moves[..|moves| - 1])
    ensures OwnAsked(p, moves)
  {
    hide Asked;
    if p.layout.Some? && p.layout.value.mine {
      AskedLater(moves, p.layout.value, p.layout.value.committed);
    }
    if p.adopted.Some? && p.adopted.value.mine {
      AskedLater(moves, p.adopted.value, p.adopted.value.committed);
    }
  }

  /** A reported success is the success of what was asked for: some move of A asked, under the reported identifier, for
      the edges that A's file and B's file now hold, and nothing else of A's file has changed since that was prepared.
      */
  lemma SuccessIsAskedFor(a: Entry, b: Entry, moves: seq<Move>, id: nat, local: Document, told: Option<Document>)
    requires FreshIds(Together(a, b), moves)
    requires Applied(id, local, told) in Played(Together(a, b), moves).a.n.paper.replies
    ensures var w := Played(Together(a, b), moves);
            exists k: nat, change ::
              && AskedAt(moves, k, change) && moves[k].env.id == id
              && w.a.n.paper.file == local == change.before.(edges := moves[k].ev.request.localEdges)
              && (!w.a.n.paper.rollbackLost ==> local.rest == a.desktop.revision.rest)
              && w.b.n.paper.file.edges == moves[k].ev.request.peerEdges
  {
    hide Played, Together, Close, AskedAt, Own, Rests, Orderly, OwnAsked;
    AlwaysNegotiated(a, b, moves);
    AlwaysAsked(a, b, moves);
    SuccessIsTrue(a, b, moves, id, local, told);
    var w := Played(Together(a, b), moves);
    var p := w.a.n.paper;
    AppliedIsOwn(p, Letters(w.a.n.sent), a.desktop.revision, w.a.Halt?, id, local, told);
    AdoptedAsked(p, moves);
    var k: nat :| AskedAt(moves, k, p.adopted.value);
    AskedSays(moves, k, p.adopted.value);
  }

  lemma AppliedIsOwn(p: Paper, l: seq<LayoutMessage>, original: Document, ended: bool, id: nat, local: Document,
                     told: Option<Document>)
    requires Own(p, l, original, ended) && Applied(id, local, told) in p.replies
    ensures p.adopted.Some? && p.adopted.value.mine && p.adopted.value.id == id && local == p.adopted.value.next
    ensures !p.rollbackLost ==> p.adopted.value.before == original
  {
    hide Unique, OffersIn, ProposedIn, AdoptedSound, PendingSound;
    assert Applied(id, local, told).Applied?;
  }

  lemma AdoptedAsked(p: Paper, moves: seq<Move>)
    requires OwnAsked(p, moves) && p.adopted.Some? && p.adopted.value.mine
    ensures Asked(moves, p.adopted.value)
  {
  }

  lemma AskedSays(moves: seq<Move>, k: nat, change: PendingLayout)
    requires AskedAt(moves, k, change)
    ensures k < |moves| && moves[k].ev.ApplyCommand? && moves[k].env.id == change.id
    ensures change.next == change.before.(edges := moves[k].ev.request.localEdges)
    ensures change.peerEdges == moves[k].ev.request.peerEdges
  {
  }

  lemma SameOffer(l: seq<LayoutMessage>, id: nat, edges: seq<EdgeConfig>, change: PendingLayout)
    requires Unique(l) && OffersIn(l, id, edges) && RestsOn(change, l) && change.id == id
    ensures change.next.edges == edges
  {
    var i :| 0 <= i < |l| && l[i].Prepare? && l[i].id == id && l[i].edges == edges;
    var j :| 0 <= j < |l| && l[j] == Prepare(change.id, change.next.edges, change.before);
    assert i == j;
  }

  /** The participant takes a change over only after the initiator has written its own file for it. */
  lemma ParticipantComesSecond(a: Entry, b: Entry, moves: seq<Move>)
    requires FreshIds(Together(a, b), moves)
    ensures var w := Played(Together(a, b), moves);
            w.b.n.paper.adopted.Some? && !w.b.n.paper.adopted.value.mine ==>
              w.b.n.paper.adopted.value.id in w.a.n.paper.written
  {
    hide Played, Together, Letters, ProposedIn, InOrder, OffersIn, RestsOn, Unique;
    AlwaysNegotiated(a, b, moves);
  }

  /** An initiator that did not finish, however its connection ends, has restored its own file. */
  lemma UnfinishedIsRestored(a: Entry, b: Entry, moves: seq<Move>)
    requires FreshIds(Together(a, b), moves)
    ensures var n := Played(Together(a, b), moves).a.n;
            n.paper.adopted.None? && !Close(n).n.paper.rollbackLost ==> Close(n).n.paper.file == a.desktop.revision
  {
    hide Played, Together, Letters, Own, InOrder, Close;
    AlwaysNegotiated(a, b, moves);
    var w := Played(Together(a, b), moves);
    ClosedFile(w.a.n, a.desktop.revision, w.a.Halt?);
  }

  /** What was heard before a proposal does not hold an acceptance that silenced all later proposals. */
  lemma NotHeard(lb: seq<LayoutMessage>, heard: seq<LayoutMessage>, id: nat, j: nat)
    requires heard <= lb && j < |heard| && heard[j].Prepare? && SilentSince(lb, id)
    ensures !HeardIn(heard, id, j)
  {
    forall i | 0 <= i < j ensures heard[i] != Prepared(id, true) {
      assert lb[i] == heard[i] && lb[j] == heard[j];
    }
  }

  /** A side that prepared a change of the other never committed one that the other prepared after proposing. */
  lemma NeverCommitted(la: seq<LayoutMessage>, lb: seq<LayoutMessage>, heard: seq<LayoutMessage>, prepared: nat,
                       id: nat)
    requires heard <= lb && Late(la, heard, prepared) && SilentSince(lb, id)
    ensures Commit(id) !in la
  {
    hide HeardIn, SilentSince;
    var j :| 0 <= j < |heard| && heard[j].Prepare? && heard[j].id == prepared
             && forall m :: m in la && m.Commit? ==> HeardIn(heard, m.id, j);
    NotHeard(lb, heard, id, j);
    forall m | m in la && m.Commit? ensures m.id != id {
    }
  }

  /** The two sides cannot each have taken over a change of the other. */
  lemma OneInitiator(w: World, originalA: Document, originalB: Document)
    requires Negotiated(w, originalA, originalB)
    requires w.a.n.paper.adopted.Some? && w.b.n.paper.adopted.Some?
    ensures w.a.n.paper.adopted.value.mine || w.b.n.paper.adopted.value.mine
  {
    hide Letters, Own, HeardIn, Late, SilentSince, RestsOn, ConfirmedIn;
    var pa, pb := w.a.n.paper.adopted.value, w.b.n.paper.adopted.value;
    LettersGrow(w.b.n.sent[..w.takenByA], w.b.n.sent);
    if !pa.mine && !pb.mine {
      NeverCommitted(Letters(w.a.n.sent), Letters(w.b.n.sent), HeardLetters(w.b, w.takenByA), pa.id, pb.id);
    }
  }

  /** What can be left behind when both connections are closed and no rollback failed: both files old; both new, by one
      and the same change; or only the participant's new, and then nobody was told of a success. */
  datatype Ending = BothOld | BothNew | OnlyNew(participantIsB: bool)

  ghost predicate EndsAs(o: Ending, a: Paper, b: Paper, originalA: Document, originalB: Document) {
    match o
    case BothOld => a.file == originalA && b.file == originalB && a.adopted.None? && b.adopted.None?
    case BothNew =>
      && a.adopted.Some? && b.adopted.Some? && a.adopted.value.id == b.adopted.value.id
      && a.adopted.value.mine != b.adopted.value.mine
      && a.file == a.adopted.value.next && b.file == b.adopted.value.next
    case OnlyNew(participantIsB) =>
      var (taker, asker, original) := if participantIsB then (b, a, originalA) else (a, b, originalB);
      && taker.adopted.Some? && !taker.adopted.value.mine && taker.file == taker.adopted.value.next
      && asker.adopted.None? && asker.file == original && taker.adopted.value.id in asker.written
      && forall r :: r in a.replies + b.replies ==> !r.Applied?
  }

  lemma OnlyDivergence(a: Entry, b: Entry, moves: seq<Move>)
    requires FreshIds(Together(a, b), moves)
    requires var w := Played(Together(a, b), moves);
             !Close(w.a.n).n.paper.rollbackLost && !Close(w.b.n).n.paper.rollbackLost
    ensures var w := Played(Together(a, b), moves);
            exists o :: EndsAs(o, Close(w.a.n).n.paper, Close(w.b.n).n.paper, a.desktop.revision, b.desktop.revision)
  {
    hide Played, Together, Letters, Close, InOrder, ProposedIn, OffersIn, Unique, RestsOn;
    AlwaysNegotiated(a, b, moves);
    var w := Played(Together(a, b), moves);
    ClosedFile(w.a.n, a.desktop.revision, w.a.Halt?);
    ClosedFile(w.b.n, b.desktop.revision, w.b.Halt?);
    var pa, pb := w.a.n.paper, w.b.n.paper;
    var o :=
      if pa.adopted.None? && pb.adopted.None? then BothOld
      else if pa.adopted.Some? && pb.adopted.Some? then BothNew
      else OnlyNew(pb.adopted.Some?);
    if pa.adopted.Some? && pb.adopted.Some? {
      OneInitiator(w, a.desktop.revision, b.desktop.revision);
    }
    assert EndsAs(o, Close(w.a.n).n.paper, Close(w.b.n).n.paper, a.desktop.revision, b.desktop.revision);
  }
}
