// When the keyboards are read and when they are closed: every change of theirs reaches the keys that are held
// (src/bridge.rs, src/input.rs).
module Devices {
  import opened ControlSafety
  import opened Coordination
  import opened Injection
  import opened Ordered
  import opened Protocol
  import opened Speech
  import Control
  import Keyboard

  /** All changes of the keyboards so far are these; or the iteration failed. */
  predicate Noted(f: Flow, changes: seq<Keyboard.Change>) {
    f.More? ==> f.n.keys.seen == changes
  }

  /** The iteration reads its keyboards: in every tick while both computers are unlocked, when a session starts here or
      is offered by the peer, and before every event that is received. */
  ghost predicate Samples(n: Node, ev: Event) {
    match ev
    case Tick => n.BothReady()
    case CaptureEvent(generation, report) =>
      generation == n.capture.generation && n.capture.live && report.Started? && n.role.Local? && n.BothReady()
    case Received(Begin(_, entry)) =>
      n.role.Local? && n.BothReady() && n.paper.layout.None? && exists i: nat :: Control.Entry(n, entry.edge, i)
    case Received(Input(session, _, _)) => n.role == Receiving(session)
    case _ => false
  }

  /** The iteration closes its keyboards: a computer was locked. */
  predicate Closes(ev: Event) {
    ev == StatusChanged(false) || ev == Received(LockState(true))
  }

  lemma SampleNotes(n: Node, env: Env)
    ensures Noted(Sample(n, env), n.keys.seen + env.changes)
  {
    KeysAppend(n.keys, env.changes);
  }

  /** Whatever becomes of the queue, every change is noted. */
  lemma {:induction false} KeysAppend(k: Keyboard.Keys, changes: seq<Keyboard.Change>)
    ensures var r := Keyboard.AbsorbAll(k, changes); r.Ok? ==> r.value.seen == k.seen + changes
    decreases |changes|
  {
    hide Keyboard.Handled;
    if changes != [] {
      var shorter, last := changes[..|changes| - 1], changes[|changes| - 1];
      KeysAppend(k, shorter);
      assert k.seen + changes == (k.seen + shorter) + [last];
    }
  }

  lemma ClearedNotes(n: Node)
    ensures Cleared(n).n.keys == n.keys
  {
    hide HearAll, EndSession, StopCapture;
    EndSessionSilent(n, None);
    StopCaptureSilent(EndSession(n, None).n);
  }

  lemma ApplyNotes(n: Node, env: Env, r: LayoutRequest)
    ensures OnApply(n, env, r).n.keys == n.keys
  {
    hide HearAll, Cleared, CanApply, Send;
    ClearedNotes(n);
    if Cleared(n).More? {
      var drawn := Try(Cleared(n).n, NoTransaction);
      SendSilent(WithPrepared(drawn.n, env.id, r.localEdges, true, r.peerEdges),
                 Layout(Prepare(env.id, r.peerEdges, r.peerRevision)));
    }
  }

  lemma LeaveRoleNotes(n: Node)
    ensures LeaveRole(n).n.keys == n.keys
  {
    hide HearAll, SayEnd, StopCapture;
    SayEndSilent(n, None);
    StopCaptureSilent(GoLocal(SayEnd(n, None).n));
  }

  lemma StatusNotes(n: Node, unlocked: bool)
    ensures Noted(OnStatus(n, unlocked), if unlocked then n.keys.seen else [])
  {
    hide HearAll, Injection.LocalLock, LeaveRole, Send;
    var locked := Receive(n.(localReady := unlocked), Injection.LocalLock(n.recv, !unlocked));
    if locked.More? {
      SendSilent(locked.n, LockState(!unlocked));
      LeaveRoleNotes(Suspended(Send(locked.n, LockState(!unlocked)).n));
    }
  }

  lemma TakeOverNotes(n: Node)
    ensures TakeOver(n).n.keys == n.keys
  {
    hide PhysicalActivity, LeaveRole;
    var freed := Receive(n, PhysicalActivity(n.recv));
    if freed.More? {
      LeaveRoleNotes(freed.n);
    }
  }

  lemma ReturnNotes(n: Node, env: Env, index: nat, fraction: real)
    requires index < |n.desktop.edges|
    ensures Return(n, env, index, fraction).n.keys == n.keys
  {
    hide HearAll, EndSession, StopCapture, Place;
    var exit := Some(Position(n.desktop.edges[index].id, fraction));
    EndSessionSilent(n, exit);
    var ended := EndSession(n, exit);
    StopCaptureSilent(GoLocal(ended.n));
    PlaceSilent(StopCapture(GoLocal(ended.n)).n, env, index, fraction);
  }

  lemma FinishedNotes(n: Node, env: Env, escape: bool)
    ensures OnFinished(n, env, escape).n.keys == n.keys
  {
    hide HearAll, EndSession, StopCapture, PlaceBack;
    EndSessionSilent(n, None);
    var ended := EndSession(n, None);
    StopCaptureSilent(GoLocal(ended.n));
    PlaceBackSilent(StopCapture(GoLocal(ended.n)).n, env, n.role, n.localReady && escape);
  }

  lemma StartNotes(n: Node, env: Env, index: nat, fraction: real)
    requires index < |n.desktop.edges|
    ensures Noted(StartSending(n, env, index, fraction), n.keys.seen + env.changes)
  {
    hide Sample, StopCapture, BeginSending, HearAll, Keyboard.Emergency, Keyboard.Held;
    SampleNotes(n, env);
    SampleKeeps(n, env);
    var sampled := Sample(n, env);
    if sampled.More? {
      StopCaptureSilent(Drained(sampled.n));
      BeginNotes(Drained(sampled.n), index, fraction, Keyboard.Held(sampled.n.keys.devices));
    }
  }

  lemma BeginNotes(n: Node, index: nat, fraction: real, held: set<int>)
    requires index < |n.desktop.edges|
    ensures BeginSending(n, index, fraction, held).n.keys == n.keys
  {
    hide PressAll, Codes, Presses, LeavesPaper, Letters;
    var begun := Begun(n, index, fraction);
    if begun.More? {
      Control.PressAllAside(begun.n, Presses(Codes(held)));
    }
  }

  lemma CaptureNotes(n: Node, env: Env, generation: nat, report: Report)
    ensures Noted(OnCapture(n, env, generation, report),
                  if Samples(n, CaptureEvent(generation, report)) then n.keys.seen + env.changes else n.keys.seen)
  {
    hide StartSending, Return, StopCapture, SendInput, OnFinished, HearAll, ActiveEdges;
    match report
    case Started(edge, fraction) =>
      var seen := n.(capture := n.capture.(started := true));
      StopCaptureSilent(seen);
      if edge < |n.capture.edges| && n.capture.edges[edge] < |n.desktop.edges| {
        StartNotes(seen, env, n.capture.edges[edge], fraction);
        ReturnNotes(seen, env, n.capture.edges[edge], fraction);
      }
    case Captured(e) => SendInputKeeps(n, e);
    case Finished(escape) => FinishedNotes(n, env, escape);
    case _ =>
  }

  lemma PeerLockNotes(n: Node, env: Env, locked: bool)
    ensures Noted(OnPeerLock(n, env, locked), if locked then [] else n.keys.seen)
  {
    hide HearAll, Injection.PeerLock, SayEnd, StopCapture, PlaceBack;
    var noted := Receive(n.(peerReady := !locked), Injection.PeerLock(n.recv, locked));
    if noted.More? && locked {
      SayEndSilent(Suspended(noted.n), None);
      var told := SayEnd(Suspended(noted.n), None);
      StopCaptureSilent(told.n);
      var stopped := if n.role.Sending? then StopCapture(told.n) else More(told.n);
      PlaceBackSilent(stopped.n, env, n.role, n.localReady);
      StopCaptureSilent(GoLocal(PlaceBack(stopped.n, env, n.role, n.localReady).n));
    }
  }

  lemma BeginMessageNotes(n: Node, env: Env, session: nat, entry: Position)
    ensures var ev := Received(Begin(session, entry));
            Noted(OnBegin(n, env, session, entry), if Samples(n, ev) then n.keys.seen + env.changes else n.keys.seen)
  {
    hide HearAll, Place, Injection.Begin, Sample, EdgeNamed, ActiveEdges, Send, Control.Entry;
    Control.EntryIsNamed(n, entry.edge);
    SampleNotes(n, env);
    var sampled := Sample(n, env);
    SendSilent(n, End(session, None));
    SendSilent(sampled.n, End(session, None));
    var edge := EdgeNamed(n, entry.edge, Available(n), 0);
    if sampled.More? && edge.Some? {
      PlaceSilent(sampled.n.(recv := Injection.Begin(sampled.n.recv, session).r), env, edge.value, entry.fraction);
    }
  }

  lemma InputNotes(n: Node, env: Env, session: nat, sequence: nat, e: InputEvent)
    ensures Noted(OnInput(n, env, session, sequence, e),
                  if n.role == Receiving(session) then n.keys.seen + env.changes else n.keys.seen)
  {
    hide HearAll, Injection.Input, Sample, TakeOver;
    SampleNotes(n, env);
    var sampled := Sample(n, env);
    if sampled.More? {
      TakeOverNotes(sampled.n);
      ReceiveSilent(sampled.n, Injection.Input(sampled.n.recv, session, sequence, e));
    }
  }

  lemma EndNotes(n: Node, env: Env, session: nat, exit: Option<Position>)
    ensures OnEnd(n, env, session, exit).n.keys == n.keys
  {
    hide HearAll, Injection.End, StopCapture, ComeBack;
    ReceiveSilent(n, Injection.End(n.recv, session));
    var ended := Receive(n, Injection.End(n.recv, session));
    StopCaptureSilent(ended.n);
    ComeBackSilent(StopCapture(ended.n).n, env, n.role, exit);
  }

  lemma LayoutNotes(n: Node, env: Env, m: LayoutMessage)
    ensures OnLayout(n, env, m).n.keys == n.keys
  {
    hide HearAll, Dropped, Abandon, Send, Committed, Cleared, CanPrepare;
    DroppedSilent(n);
    ClearedNotes(n);
    match m
    case Prepare(id, edges, revision) =>
      SendSilent(n, Layout(Prepared(id, false)));
      SendSilent(WithPrepared(Cleared(n).n, id, edges, false, []), Layout(Prepared(id, true)));
    case Prepared(id, ok) =>
      if Concerns(n, id) {
        PreparedNotes(n, env, n.paper.layout.value, ok);
      }
    case Commit(id) =>
      if Concerns(n, id) {
        CommitNotes(n, env, n.paper.layout.value);
      }
    case _ =>
  }

  lemma PreparedNotes(n: Node, env: Env, p: PendingLayout, ok: bool)
    ensures OnPrepared(n, env, p, ok).n.keys == n.keys
  {
    hide HearAll, Abandon, Send, Committed;
    CommittedSilent(n, env, p);
    var (tried, written) := if ok then Committed(n, env, p) else (n, false);
    AbandonSilent(tried, p);
    SendSilent(tried, Layout(Commit(p.id)));
  }

  lemma CommitNotes(n: Node, env: Env, p: PendingLayout)
    ensures OnCommit(n, env, p).n.keys == n.keys
  {
    hide HearAll, Dropped, Send, Committed;
    CommittedSilent(n, env, p);
    var tried := Committed(n, env, p).0;
    DroppedSilent(tried);
    SendSilent(Finish(tried, p.(committed := true)), Layout(Result(p.id, true, Some(p.next))));
    SendSilent(Dropped(tried), Layout(Result(p.id, false, None)));
  }

  lemma MessageNotes(n: Node, env: Env, m: Message)
    ensures Noted(OnMessage(n, env, m),
                  if Closes(Received(m)) then []
                  else if Samples(n, Received(m)) then n.keys.seen + env.changes else n.keys.seen)
  {
    hide HearAll, OnLayout, OnBegin, OnInput, OnEnd, OnPeerLock, Send, Control.Entry;
    match m
    case Layout(letter) => LayoutNotes(n, env, letter);
    case Begin(session, entry) => BeginMessageNotes(n, env, session, entry);
    case Input(session, sequence, event) => InputNotes(n, env, session, sequence, event);
    case End(session, exit) => EndNotes(n, env, session, exit);
    case LockState(locked) => PeerLockNotes(n, env, locked);
    case Ping(nonce) => SendSilent(n, Pong(nonce));
    case _ =>
  }

  lemma RefreshNotes(n: Node, env: Env)
    ensures Noted(Refresh(n, env), if n.BothReady() then n.keys.seen + env.changes else n.keys.seen)
  {
    hide HearAll, Abandon, Sample;
    var polled := Try(n, PollFailed);
    if polled.More? {
      if n.paper.layout.Some? {
        AbandonSilent(polled.n, n.paper.layout.value);
        AbandonKeeps(polled.n, n.paper.layout.value);
      }
      SampleNotes(Expire(polled.n, env).n, env);
    }
  }

  lemma ActNotes(n: Node, env: Env, keys: seq<InputEvent>)
    ensures Act(n, env, keys).More? ==> Act(n, env, keys).n.keys == n.keys
  {
    hide HearAll, TakeOver, ForwardAll, SendInputs, CaptureOver, Send;
    TakeOverNotes(n);
    var kept := Yielded(n, env);
    if kept.More? {
      ForwardAllNotes(kept.n, env, keys);
      var typed := ForwardAll(kept.n, env, keys);
      if typed.More? {
        Control.SendInputsAside(typed.n, env.touch);
        var touched := SendInputs(typed.n, env.touch);
        if touched.More? {
          CaptureOverNotes(touched.n, env);
          var watched := CaptureOver(touched.n, env);
          SendSilent(watched.n, Ping(watched.n.heartbeat));
        }
      }
    }
  }

  lemma CaptureOverNotes(n: Node, env: Env)
    ensures CaptureOver(n, env).n.keys == n.keys
  {
    hide HearAll, StopCapture, SayEnd;
    StopCaptureSilent(n);
    SayEndSilent(StopCapture(n).n, None);
  }

  lemma {:induction false} ForwardAllNotes(n: Node, env: Env, events: seq<InputEvent>)
    ensures ForwardAll(n, env, events).n.keys == n.keys
    decreases |events|
  {
    hide Forward, LeavesPaper, Letters;
    if events != [] {
      ForwardAllNotes(n, env, events[..|events| - 1]);
      ForwardNotes(ForwardAll(n, env, events[..|events| - 1]).n, env, events[|events| - 1]);
    }
  }

  lemma ForwardNotes(n: Node, env: Env, e: InputEvent)
    ensures Forward(n, env, e).n.keys == n.keys
  {
    hide HearAll, SendInput, SayEnd, StopCapture, PlaceBack, Chord, PressedAfter, LeavesPaper, Letters;
    var keyed := WithKey(n, e);
    SendInputKeeps(keyed, e);
    SayEndSilent(keyed, None);
    StopCaptureSilent(SayEnd(keyed, None).n);
    PlaceBackSilent(StopCapture(SayEnd(keyed, None).n).n, env, n.role, true);
  }

  /** An iteration that goes on has read every change of the keyboards exactly in the cases listed, has forgotten them
      all exactly when a computer was locked, and otherwise has left them alone. */
  lemma BranchReads(n: Node, env: Env, ev: Event)
    ensures Noted(Branch(n, env, ev),
                  if Closes(ev) then [] else if Samples(n, ev) then n.keys.seen + env.changes else n.keys.seen)
  {
    hide HearAll, EndSession, StopCapture, PlaceBack, OnApply, OnStatus, Refresh, Act, OnCapture, OnMessage, Send,
         Control.Entry;
    match ev
    case OutputsChanged(outputs) =>
      var desktop := n.desktop.(outputs := outputs);
      SendSilent(n.(desktopEpoch := Wrapped(n.desktopEpoch), desktop := desktop), DesktopInfo(desktop));
    case ReleaseCommand => GiveBackSilent(n, env, None, true);
    case ApplyCommand(request) => ApplyNotes(n, env, request);
    case StatusChanged(unlocked) => StatusNotes(n, unlocked);
    case Tick =>
      RefreshNotes(n, env);
      var sampled := Refresh(n, env);
      if sampled.More? {
        ActNotes(Drained(sampled.n), env, sampled.n.keys.pending);
      }
    case CaptureEvent(generation, report) => CaptureNotes(n, env, generation, report);
    case Received(message) => MessageNotes(n, env, message);
    case _ =>
  }
}
