// The coordinator as the loop it is (src/bridge.rs): local variables changed step by step, the receiver and the
// keyboards as objects, and an early return wherever a call fails. Every method does what its specification says.
module CoordinatorMachine {
  import opened ControlSafety
  import opened Coordination
  import opened Geometry
  import opened Injection
  import opened Ordered
  import opened Protocol
  import opened ReceiverMachine
  import Keyboard
  import Modes

  /** Whether the loop goes on; it ends with a result (true to exit, false to reconnect) or an error. */
  datatype Status = Going | Returned(exit: bool) | Broken {
    predicate IsFailure() {
      !Going?
    }
    function PropagateFailure(): Status
      requires !Going?
    {
      this
    }
  }

  function StatusOf(f: Flow): Status {
    match f
    case More(_) => Going
    case Halt(_, why) =>
      if why == ExitSignal then Returned(true) else if why == LayoutDone then Returned(false) else Broken
  }

  class Coordinator {
    const receiver: InputReceiver
    const keyboard: Keyboard.PhysicalKeys
    var role: Role
    var capture: Capture
    var localReady: bool
    var peerReady: bool
    var padsConfigured: bool
    var desktop: Desktop
    var peer: Option<Desktop>
    var desktopEpoch: nat
    var nextSession: nat
    const physical: bool
    var sourceKeys: set<int>
    var heartbeat: nat
    var paper: Paper
    var luck: seq<Luck>
    var sent: seq<Message>

    ghost function View(): Node
      reads this, receiver, receiver.state, keyboard
    {
      Node(role, receiver.View(), capture, localReady, peerReady, padsConfigured, desktop, peer, desktopEpoch,
           nextSession, physical, keyboard.View(), sourceKeys, heartbeat, paper, luck, sent)
    }

    /** What was done is what the specification says; only when reading a keyboard failed half-way may the keyboards
        differ, which are reset whenever the loop ends. */
    ghost predicate Did(f: Flow, s: Status)
      reads this, receiver, receiver.state, keyboard
    {
      s == StatusOf(f) && View() == if s.Broken? then f.n.(keys := keyboard.View()) else f.n
    }

    constructor (display: Desktop, direct: bool, unlocked: bool, calls: seq<Luck>, backend: Sink)
      ensures View() == Fresh(display, direct, unlocked, calls, backend.fate)
                          .(recv := NewReceiver(backend.fate).(sink := backend))
    {
      receiver := new InputReceiver(backend);
      keyboard := new Keyboard.PhysicalKeys();
      role, capture := Role.Local, Capture(false, false, false, [], 0, 0);
      localReady, peerReady, padsConfigured := unlocked, false, false;
      desktop, peer, desktopEpoch, nextSession := display, None, 0, 1;
      physical, sourceKeys, heartbeat := direct, {}, 0;
      paper := Paper(display.revision, None, None, map[], false, []);
      luck, sent := calls, [];
    }

    // ---- Fallible calls ----

    method Attempt(why: Reason) returns (s: Status)
      requires why != ExitSignal && why != LayoutDone
      modifies this`luck
      ensures Did(Try(old(View()), why), s)
    {
      var l := Next(luck);
      luck := Rest(luck);
      s := if l == Done then Going else Broken;
    }

    method SendMessage(m: Message) returns (s: Status)
      modifies this`luck, this`sent
      ensures Did(Send(old(View()), m), s)
    {
      hide Letters, LeavesPaper;
      var l := Next(luck);
      luck := Rest(luck);
      if l != FailedBefore {
        sent := sent + [m];
      }
      s := if l == Done then Going else Broken;
    }

    method EndInput(session: nat) returns (s: Status)
      modifies receiver, receiver.state
      ensures Did(Receive(old(View()), Injection.End(old(receiver.View()), session)), s)
    {
      hide Injection.End;
      var ok := receiver.End(session);
      s := if ok then Going else Broken;
    }

    method StopCaptureTask() returns (s: Status)
      modifies this`luck, this`capture
      ensures Did(StopCapture(old(View())), s)
    {
      if !capture.live {
        return Going;
      }
      capture := capture.(live := false);
      s := Attempt(CaptureStuck);
    }

    method Suspend()
      modifies keyboard
      ensures View() == Suspended(old(View()))
    {
      keyboard.devices := map[];
      keyboard.pending := [];
      keyboard.seen := [];
    }

    method PlaceAt(env: Env, index: nat, fraction: real) returns (s: Status)
      modifies receiver, receiver.state
      ensures Did(Place(old(View()), env, index, fraction), s)
    {
      hide Placement, PositionOn;
      if index >= |desktop.edges| {
        return Broken;
      }
      match Placement(env.outputs, desktop.edges[index], fraction)
      case Failed => return Broken;
      case Ok(e) =>
        var ok := receiver.PositionOn(desktop.edges[index].output, e);
        s := if ok then Going else Broken;
    }

    method PlaceWhereLeft(env: Env, before: Role, allowed: bool) returns (s: Status)
      modifies receiver, receiver.state
      ensures Did(PlaceBack(old(View()), env, before, allowed), s)
    {
      hide Place;
      s := Going;
      if before.Sending? && allowed {
        s := PlaceAt(env, before.edge, before.fraction);
      }
    }

    method TellEnd(exit: Option<Position>) returns (s: Status)
      modifies this`luck, this`sent
      ensures Did(SayEnd(old(View()), exit), s)
    {
      hide Send;
      s := Going;
      match role.Session()
      case None =>
      case Some(session) => s := SendMessage(End(session, exit));
    }

    method EndSharing(exit: Option<Position>) returns (s: Status)
      modifies this, receiver, receiver.state
      ensures Did(EndSession(old(View()), exit), s)
    {
      hide Send, Injection.End;
      s := Going;
      match role.Session()
      case None =>
      case Some(session) =>
        :- EndInput(session);
        s := SendMessage(End(session, exit));
    }

    // ---- Sending input ----

    method SendOne(e: InputEvent) returns (s: Status)
      modifies this
      ensures Did(SendInput(old(View()), e), s)
    {
      hide Send;
      if !role.Sending? {
        return Going;
      }
      :- SendMessage(Input(role.session, role.sequence, e));
      if role.sequence >= MAX_COUNTER {
        return Broken;
      }
      role := role.(sequence := role.sequence + 1);
      return Going;
    }

    method SendAll(events: seq<InputEvent>) returns (s: Status)
      modifies this
      ensures Did(SendInputs(old(View()), events), s)
    {
      hide SendInput;
      ghost var start := View();
      for i := 0 to |events|
        invariant Did(SendInputs(start, events[..i]), Going)
      {
        assert events[..i + 1][..i] == events[..i];
        s := SendOne(events[i]);
        if s != Going {
          SendInputsStop(start, events, i + 1);
          return;
        }
      }
      assert events[..|events|] == events;
      return Going;
    }

    /** Forwards a key and says whether the emergency chord must stop sharing. */
    method ForwardKey(e: InputEvent) returns (s: Status, chord: bool)
      modifies this
      ensures Did(ForwardKeyboard(old(View()), e), s)
      ensures chord == Completes(old(View()), e)
    {
      hide SendInput;
      if !role.Sending? {
        return Going, false;
      }
      if !e.KeyInput? {
        return Broken, false;
      }
      if e.pressed {
        sourceKeys := sourceKeys + {e.code};
      } else {
        sourceKeys := sourceKeys - {e.code};
      }
      if e.code == Keyboard.ESCAPE && e.pressed && Keyboard.Emergency(sourceKeys) {
        return Going, true;
      }
      s := SendOne(e);
      chord := false;
    }

    method EscapeNow(env: Env) returns (s: Status)
      modifies this, receiver, receiver.state
      ensures Did(Escape(old(View()), env), s)
    {
      hide SayEnd, StopCapture, PlaceBack, Letters, LeavesPaper;
      var before := role;
      ghost var start := View();
      :- TellEnd(None);
      ghost var told := View();
      assert SayEnd(start, None) == More(told);
      :- StopCaptureTask();
      ghost var stopped := View();
      assert StopCapture(told) == More(stopped);
      :- PlaceWhereLeft(env, before, true);
      role, sourceKeys := Role.Local, {};
      return Going;
    }

    method ForwardOne(env: Env, e: InputEvent) returns (s: Status)
      modifies this, receiver, receiver.state
      ensures Did(Forward(old(View()), env, e), s)
    {
      hide ForwardKeyboard, Escape, Completes;
      var chord;
      s, chord := ForwardKey(e);
      if s == Going && chord {
        s := EscapeNow(env);
      }
    }

    method ForwardEach(env: Env, events: seq<InputEvent>) returns (s: Status)
      modifies this, receiver, receiver.state
      ensures Did(ForwardAll(old(View()), env, events), s)
    {
      hide Forward;
      ghost var start := View();
      for i := 0 to |events|
        invariant Did(ForwardAll(start, env, events[..i]), Going)
      {
        assert events[..i + 1][..i] == events[..i];
        s := ForwardOne(env, events[i]);
        if s != Going {
          ForwardAllStop(start, env, events, i + 1);
          return;
        }
      }
      assert events[..|events|] == events;
      return Going;
    }

    /** Pressing what is held already; nobody looks at the chord. */
    method PressInitial(codes: seq<int>) returns (s: Status)
      modifies this
      ensures Did(PressAll(old(View()), Presses(codes)), s)
    {
      hide ForwardKeyboard;
      ghost var start := View();
      var events := Presses(codes);
      for i := 0 to |events|
        invariant Did(PressAll(start, events[..i]), Going)
      {
        assert events[..i + 1][..i] == events[..i];
        var chord;
        s, chord := ForwardKey(events[i]);
        if s != Going {
          PressAllStop(start, events, i + 1);
          return;
        }
      }
      assert events[..|events|] == events;
      return Going;
    }

    // ---- Reading the devices ----

    method ReadDevices(env: Env) returns (s: Status)
      modifies this`luck, keyboard
      ensures Did(Sample(old(View()), env), s)
    {
      hide Keyboard.Updated, Keyboard.Disconnected;
      :- Attempt(SampleFailed);
      var ok := AbsorbChanges(env.changes);
      s := if ok then Going else Broken;
    }

    method AbsorbChanges(changes: seq<Keyboard.Change>) returns (ok: bool)
      modifies keyboard
      ensures ok ==> Keyboard.AbsorbAll(old(keyboard.View()), changes) == Ok(keyboard.View())
      ensures !ok ==> Keyboard.AbsorbAll(old(keyboard.View()), changes).Failed?
    {
      hide Keyboard.Updated, Keyboard.Disconnected;
      ghost var start := keyboard.View();
      for i := 0 to |changes|
        invariant Keyboard.AbsorbAll(start, changes[..i]) == Ok(keyboard.View())
      {
        assert changes[..i + 1][..i] == changes[..i];
        var done;
        match changes[i] {
          case Moved(device, code, pressed) => done := keyboard.Update(device, code, pressed);
          case Gone(device) => done := keyboard.Disconnect(device);
        }
        if !done {
          AbsorbAllStops(start, changes, i + 1);
          return false;
        }
        keyboard.seen := keyboard.seen + [changes[i]];
      }
      assert changes[..|changes|] == changes;
      return true;
    }

    // ---- The start of every iteration ----

    method SurrenderAll(env: Env, allowed: bool) returns (s: Status)
      modifies this, receiver, receiver.state
      ensures Did(Surrender(old(View()), env, allowed), s)
    {
      hide EndSession, StopCapture, PlaceBack;
      var before := role;
      :- EndSharing(None);
      :- StopCaptureTask();
      s := PlaceWhereLeft(env, before, allowed);
    }

    method RetireSession(env: Env) returns (s: Status)
      modifies this, receiver, receiver.state
      ensures Did(Retire(old(View()), env), s)
    {
      hide Surrender, HasOutput;
      var allowed := localReady && role.Sending? && role.edge < |desktop.edges|
                     && HasOutput(desktop, desktop.edges[role.edge]);
      :- SurrenderAll(env, allowed);
      role := Role.Local;
      return Going;
    }

    method FindActive() returns (available: seq<nat>)
      ensures available == Available(View())
    {
      hide Matched;
      available := [];
      for i := 0 to |desktop.edges|
        invariant available == ActiveEdges(desktop, peer, i)
      {
        assert available + [] == available;
        if Matched(desktop, peer, desktop.edges[i]) {
          available := available + [i];
        }
      }
    }

    method RetireIfNeeded(env: Env) returns (s: Status)
      modifies this, receiver, receiver.state
      ensures Did(Retired(old(View()), env), s)
    {
      hide Retire, ActiveEdges;
      s := Going;
      var available := FindActive();
      if (available == [] && role.Session().Some?) || (capture.live && capture.epoch != desktopEpoch) {
        s := RetireSession(env);
      }
    }

    method WatchEdges(env: Env)
      modifies this`capture
      ensures View() == Watching(old(View()), env)
    {
      hide ActiveEdges;
      var available := FindActive();
      if localReady && peerReady && available != [] && paper.layout.None? && !capture.live && env.mayArm {
        capture := Capture(true, false, false, available, desktopEpoch, Wrapped(capture.generation));
      }
    }

    method RouteTouchpads(env: Env) returns (s: Status)
      modifies this
      ensures Did(Routed(old(View()), env), s)
    {
      hide SendInputs;
      :- Attempt(RouteFailed);
      s := SendAll(env.routed);
    }

    method StartIteration(env: Env) returns (s: Status)
      modifies this, receiver, receiver.state
      ensures Did(Preamble(old(View()), env), s)
    {
      hide Retired, Routed, Watching;
      :- RetireIfNeeded(env);
      :- RouteTouchpads(env);
      WatchEdges(env);
      return Going;
    }

    // ---- The branches ----

    method Reply(r: Coordination.Reply)
      modifies this`paper
      ensures View() == Replied(old(View()), r)
    {
      paper := paper.(replies := paper.replies + [r]);
    }

    method OutputsChange(outputs: set<string>) returns (s: Status)
      modifies this
      ensures Did(OnOutputs(old(View()), outputs), s)
    {
      hide Send;
      desktopEpoch, desktop := Wrapped(desktopEpoch), desktop.(outputs := outputs);
      s := SendMessage(DesktopInfo(desktop));
    }

    method ReleaseControl(env: Env) returns (s: Status)
      modifies this, receiver, receiver.state
      ensures Did(OnRelease(old(View()), env), s)
    {
      hide Surrender;
      :- SurrenderAll(env, true);
      role := Role.Local;
      Reply(Released);
      return Going;
    }

    method ClearSession() returns (s: Status)
      modifies this, receiver, receiver.state
      ensures Did(Cleared(old(View())), s)
    {
      hide EndSession, StopCapture;
      :- EndSharing(None);
      :- StopCaptureTask();
      role := Role.Local;
      return Going;
    }

    method PrepareChange(id: nat, edges: seq<EdgeConfig>, mine: bool, peerEdges: seq<EdgeConfig>)
      modifies this`paper
      ensures View() == WithPrepared(old(View()), id, edges, mine, peerEdges)
    {
      paper := paper.(layout := Some(
        PendingLayout(id, paper.file, paper.file.(edges := edges), false, mine, peerEdges)));
    }

    method ProposeChange(id: nat, r: LayoutRequest) returns (s: Status)
      modifies this
      ensures Did(Propose(old(View()), id, r), s)
    {
      hide Send;
      :- Attempt(NoTransaction);
      PrepareChange(id, r.localEdges, true, r.peerEdges);
      s := SendMessage(Layout(Prepare(id, r.peerEdges, r.peerRevision)));
    }

    method CheckRequest(env: Env, r: LayoutRequest) returns (ok: bool)
      ensures ok == CanApply(View(), env, r)
    {
      hide ValidRequest, ValidEdges;
      ok := paper.layout.None? && localReady && peerReady && ValidEdges(r.localEdges) && paper.file == r.localRevision
            && env.able && ValidRequest(r) && peer.Some? && peer.value.revision == r.peerRevision;
    }

    method ApplyLayout(env: Env, r: LayoutRequest) returns (s: Status)
      modifies this, receiver, receiver.state
      ensures Did(OnApply(old(View()), env, r), s)
    {
      hide Cleared, Propose, CanApply;
      var ok := CheckRequest(env, r);
      if !ok {
        Reply(NotApplied);
        return Going;
      }
      :- ClearSession();
      s := ProposeChange(env.id, r);
    }

    method NoteLocalLock(unlocked: bool) returns (s: Status)
      modifies this`localReady, receiver, receiver.state
      ensures var n := old(View()); Did(Receive(n.(localReady := unlocked), Injection.LocalLock(n.recv, !unlocked)), s)
    {
      hide Injection.LocalLock, Letters, LeavesPaper;
      localReady := unlocked;
      var ok := receiver.LocalLock(!unlocked);
      s := if ok then Going else Broken;
    }

    method StatusChange(unlocked: bool) returns (s: Status)
      modifies this, receiver, receiver.state, keyboard
      ensures Did(OnStatus(old(View()), unlocked), s)
    {
      hide Injection.LocalLock, Receive, Send, LeaveRole;
      :- NoteLocalLock(unlocked);
      :- SendMessage(LockState(!unlocked));
      s := Going;
      if !unlocked {
        Suspend();
        s := GiveUpRole();
      }
    }

    method GiveUpRole() returns (s: Status)
      modifies this
      ensures Did(LeaveRole(old(View())), s)
    {
      hide SayEnd, StopCapture;
      :- TellEnd(None);
      role := Role.Local;
      s := StopCaptureTask();
    }

    /** Dropping a prepared change. */
    method DropChange()
      modifies this`paper, this`luck
      ensures View() == Dropped(old(View()))
    {
      match paper.layout
      case None =>
      case Some(p) =>
        paper := paper.(layout := None);
        if p.committed && paper.file == p.next {
          var l := Next(luck);
          luck := Rest(luck);
          if l == FailedBefore {
            paper := paper.(rollbackLost := true);
          } else {
            paper := paper.(file := p.before);
          }
        }
    }

    method AbandonChange(p: PendingLayout) returns (s: Status)
      modifies this
      ensures Did(Abandon(old(View()), p), s)
    {
      hide Dropped, Send;
      DropChange();
      :- SendMessage(Layout(Abort(p.id)));
      if p.mine {
        Reply(NotApplied);
      }
      return Going;
    }

    method NoteActivity() returns (s: Status)
      modifies receiver, receiver.state
      ensures Did(Receive(old(View()), PhysicalActivity(old(receiver.View()))), s)
    {
      hide PhysicalActivity;
      var ok := receiver.PhysicalActivity();
      s := if ok then Going else Broken;
    }

    method YieldToPhysical() returns (s: Status)
      modifies this, receiver, receiver.state
      ensures Did(TakeOver(old(View())), s)
    {
      hide PhysicalActivity, Receive, LeaveRole;
      :- NoteActivity();
      s := GiveUpRole();
    }

    method WatchCapture(env: Env) returns (s: Status)
      modifies this
      ensures Did(CaptureOver(old(View()), env), s)
    {
      hide StopCapture, SayEnd;
      if !capture.live || !env.captureDone {
        return Going;
      }
      :- StopCaptureTask();
      if role.Sending? {
        :- TellEnd(None);
        role := Role.Local;
      }
      return Going;
    }

    method SendHeartbeat(env: Env) returns (s: Status)
      modifies this
      ensures Did(Beat(old(View()), env), s)
    {
      hide Send;
      if !env.heartbeatDue {
        return Going;
      }
      :- SendMessage(Ping(heartbeat));
      heartbeat := Wrapped(heartbeat);
      return Going;
    }

    // ---- The tick ----

    method ReadIfReady(env: Env) returns (s: Status)
      modifies this`luck, keyboard
      ensures Did(SampledIfReady(old(View()), env), s)
    {
      hide Sample;
      s := Going;
      if localReady && peerReady {
        s := ReadDevices(env);
      }
    }

    method ExpireChange(env: Env) returns (s: Status)
      modifies this
      ensures Did(Expire(old(View()), env), s)
    {
      hide Abandon;
      s := Going;
      if paper.layout.Some? && env.expired {
        s := AbandonChange(paper.layout.value);
      }
    }

    method RelayEvents(env: Env, events: seq<InputEvent>) returns (s: Status)
      modifies this, receiver, receiver.state
      ensures Did(Relay(old(View()), env, events), s)
    {
      hide ForwardAll, SendInputs;
      :- ForwardEach(env, events);
      s := SendAll(env.touch);
    }

    method WatchAndBeat(env: Env) returns (s: Status)
      modifies this
      ensures Did(Watched(old(View()), env), s)
    {
      hide CaptureOver, Beat;
      :- WatchCapture(env);
      s := SendHeartbeat(env);
    }

    method YieldIfActive(env: Env) returns (s: Status)
      modifies this, receiver, receiver.state
      ensures Did(Yielded(old(View()), env), s)
    {
      hide TakeOver;
      s := Going;
      if localReady && peerReady && env.active && role.Receiving? {
        s := YieldToPhysical();
      }
    }

    method ActOn(env: Env, events: seq<InputEvent>) returns (s: Status)
      modifies this, receiver, receiver.state
      ensures Did(Act(old(View()), env, events), s)
    {
      hide Yielded, Relay, Watched;
      :- YieldIfActive(env);
      :- RelayEvents(env, events);
      s := WatchAndBeat(env);
    }

    method RefreshAll(env: Env) returns (s: Status)
      modifies this, keyboard
      ensures Did(Refresh(old(View()), env), s)
    {
      hide Try, Expire, SampledIfReady, Letters, LeavesPaper;
      :- Attempt(PollFailed);
      :- ExpireChange(env);
      s := ReadIfReady(env);
    }

    method OnTimer(env: Env) returns (s: Status)
      modifies this, receiver, receiver.state, keyboard
      ensures Did(OnTick(old(View()), env), s)
    {
      hide Refresh, Act;
      :- RefreshAll(env);
      var events := keyboard.Drain();
      s := ActOn(env, events);
    }

    // ---- What the capture worker reports ----

    method AnnounceSession(index: nat, fraction: real) returns (s: Status)
      requires index < |desktop.edges|
      modifies this
      ensures Did(Begun(old(View()), index, fraction), s)
    {
      hide Send, Letters, LeavesPaper;
      var session := nextSession;
      var m := Message.Begin(session, Position(desktop.edges[index].id, fraction));
      nextSession := session + 1;
      ghost var counted := View();
      :- SendMessage(m);
      ghost var told := View();
      assert Send(counted, m) == More(told);
      role, sourceKeys := Sending(session, 0, index, fraction), {};
      assert View() == told.(role := role, sourceKeys := {});
      return Going;
    }

    method BeginSharing(index: nat, fraction: real, held: set<int>) returns (s: Status)
      requires index < |desktop.edges|
      modifies this
      ensures Did(BeginSending(old(View()), index, fraction, held), s)
    {
      hide Begun, PressAll, Presses, Codes;
      :- AnnounceSession(index, fraction);
      s := PressInitial(Codes(held));
    }

    method StartSharing(env: Env, index: nat, fraction: real) returns (s: Status)
      requires index < |desktop.edges|
      modifies this, keyboard
      ensures Did(StartSending(old(View()), env, index, fraction), s)
    {
      hide Sample, StopCapture, BeginSending, Keyboard.Held, Keyboard.Emergency;
      ghost var before := View();
      :- ReadDevices(env);
      SampleEdges(before, env);
      var held := Keyboard.Held(keyboard.devices);
      var dropped := keyboard.Drain();
      if Keyboard.ESCAPE in held && Keyboard.Emergency(held) {
        s := StopCaptureTask();
      } else if nextSession >= MAX_COUNTER {
        s := Broken;
      } else {
        s := BeginSharing(index, fraction, held);
      }
    }

    method ReturnPointer(env: Env, index: nat, fraction: real) returns (s: Status)
      requires index < |desktop.edges|
      modifies this, receiver, receiver.state
      ensures Did(Return(old(View()), env, index, fraction), s)
    {
      hide EndSession, StopCapture, Place, Letters, LeavesPaper;
      :- EndSharing(Some(Position(desktop.edges[index].id, fraction)));
      role := Role.Local;
      :- StopCaptureTask();
      s := PlaceAt(env, index, fraction);
    }

    method CaptureStarted(env: Env, edge: nat, fraction: real) returns (s: Status)
      modifies this, receiver, receiver.state, keyboard
      ensures Did(OnStarted(old(View()), env, edge, fraction), s)
    {
      hide StartSending, Return, StopCapture, ActiveEdges;
      if edge >= |capture.edges| {
        return Broken;
      }
      var index := capture.edges[edge];
      var available := FindActive();
      if index !in available || index >= |desktop.edges| {
        return Broken;
      }
      capture := capture.(started := true);
      if role.Local? && localReady && peerReady {
        s := StartSharing(env, index, fraction);
      } else if role.Receiving? {
        s := ReturnPointer(env, index, fraction);
      } else {
        s := StopCaptureTask();
      }
    }

    method CaptureInput(env: Env, e: InputEvent) returns (s: Status)
      modifies this
      ensures Did(OnCaptured(old(View()), env, e), s)
    {
      hide SendInput;
      s := Going;
      if role.Sending? && !(physical && e.KeyInput?) {
        if env.late {
          return Broken;
        }
        s := SendOne(e);
      }
    }

    method CaptureFinished(env: Env, escape: bool) returns (s: Status)
      modifies this, receiver, receiver.state
      ensures Did(OnFinished(old(View()), env, escape), s)
    {
      hide EndSession, StopCapture, PlaceBack, Letters, LeavesPaper;
      var previous, allowed := role, localReady && escape;
      :- EndSharing(None);
      role := Role.Local;
      :- StopCaptureTask();
      s := PlaceWhereLeft(env, previous, allowed);
    }

    method OnCaptureEvent(env: Env, generation: nat, report: Report) returns (s: Status)
      modifies this, receiver, receiver.state, keyboard
      ensures Did(OnCapture(old(View()), env, generation, report), s)
    {
      hide OnStarted, OnCaptured, OnFinished;
      s := Going;
      if generation != capture.generation || !capture.live {
        return;
      }
      match report
      case Started(edge, fraction) => s := CaptureStarted(env, edge, fraction);
      case Captured(e) => s := CaptureInput(env, e);
      case Finished(escape) => s := CaptureFinished(env, escape);
      case Armed => capture := capture.(armed := true);
      case Ready =>
    }

    // ---- Messages ----

    method PeerLockChange(env: Env, locked: bool) returns (s: Status)
      modifies this, receiver, receiver.state, keyboard
      ensures Did(OnPeerLock(old(View()), env, locked), s)
    {
      hide Injection.PeerLock, SayEnd, StopCapture, PlaceBack;
      if !padsConfigured {
        return Broken;
      }
      peerReady := !locked;
      var ok := receiver.PeerLock(locked);
      if !ok {
        return Broken;
      }
      s := Going;
      if locked {
        s := PeerLockedAway(env);
      }
    }

    method PutAside(env: Env) returns (s: Status)
      modifies this, receiver, receiver.state
      ensures Did(SetAside(old(View()), env), s)
    {
      hide SayEnd, StopCapture, PlaceBack;
      var before, allowed := role, localReady;
      :- TellEnd(None);
      if before.Sending? {
        :- StopCaptureTask();
      }
      s := PlaceWhereLeft(env, before, allowed);
    }

    method PeerLockedAway(env: Env) returns (s: Status)
      modifies this, receiver, receiver.state, keyboard
      ensures Did(Coordination.PeerLockedAway(old(View()), env), s)
    {
      hide SetAside, StopCapture;
      Suspend();
      :- PutAside(env);
      role := Role.Local;
      s := StopCaptureTask();
    }

    method FindEdge(id: string, available: seq<nat>) returns (edge: Option<nat>)
      ensures edge == EdgeNamed(View(), id, available, 0)
    {
      var i := 0;
      while i < |desktop.edges|
        invariant i <= |desktop.edges|
        invariant EdgeNamed(View(), id, available, 0) == EdgeNamed(View(), id, available, i)
      {
        if desktop.edges[i].id == id && i in available {
          return Some(i);
        }
        i := i + 1;
      }
      return None;
    }

    method AcceptSession(env: Env, session: nat, edge: nat, fraction: real) returns (s: Status)
      modifies this, receiver, receiver.state
      ensures Did(Accept(old(View()), env, session, edge, fraction), s)
    {
      hide Injection.Begin, Place, Letters, LeavesPaper;
      var begun := receiver.Begin(session);
      if begun != Some(true) {
        return Broken;
      }
      :- PlaceAt(env, edge, fraction);
      role := Receiving(session);
      return Going;
    }

    method BeginMessage(env: Env, session: nat, entry: Position) returns (s: Status)
      modifies this, receiver, receiver.state, keyboard
      ensures Did(OnBegin(old(View()), env, session, entry), s)
    {
      hide Accept, Sample, Send, EdgeNamed, ActiveEdges;
      var available := FindActive();
      var edge := FindEdge(entry.edge, available);
      var free := edge.Some? && role.Local? && localReady && peerReady && paper.layout.None?;
      if free {
        :- ReadDevices(env);
      }
      if free && !env.active {
        s := AcceptSession(env, session, edge.value, entry.fraction);
      } else if role.Receiving? {
        s := Broken;
      } else {
        s := SendMessage(End(session, None));
      }
    }

    method InputMessage(env: Env, session: nat, sequence: nat, e: InputEvent) returns (s: Status)
      modifies this, receiver, receiver.state, keyboard
      ensures Did(OnInput(old(View()), env, session, sequence, e), s)
    {
      hide Injection.Input, Sample, TakeOver;
      if env.late {
        return Broken;
      }
      if role != Receiving(session) {
        return Going;
      }
      :- ReadDevices(env);
      if env.active {
        s := YieldToPhysical();
      } else {
        var accepted := receiver.Input(session, sequence, e);
        s := if accepted.Some? then Going else Broken;
      }
    }

    method EndMessage(env: Env, session: nat, exit: Option<Position>) returns (s: Status)
      modifies this, receiver, receiver.state
      ensures Did(OnEnd(old(View()), env, session, exit), s)
    {
      hide Injection.End, Receive, StopCapture, ComeBack, Letters, LeavesPaper;
      if role.Session() != Some(session) {
        return Going;
      }
      var before := role;
      ghost var start := View();
      :- EndInput(session);
      ghost var ended := View();
      assert Receive(start, Injection.End(start.recv, session)) == More(ended);
      :- StopCaptureTask();
      ghost var stopped := View();
      assert StopCapture(ended) == More(stopped);
      :- PlaceOnReturn(env, before, exit);
      role := Role.Local;
      return Going;
    }

    method PlaceOnReturn(env: Env, before: Role, exit: Option<Position>) returns (s: Status)
      modifies receiver, receiver.state
      ensures Did(ComeBack(old(View()), env, before, exit), s)
    {
      hide Place, EdgeNamed, ActiveEdges;
      if !before.Sending? || !localReady {
        return Going;
      }
      match exit
      case None => s := PlaceAt(env, before.edge, before.fraction);
      case Some(at) =>
        var named := FindEdge(at.edge, Indices(|desktop.edges|));
        var available := FindActive();
        if named.None? || named.value !in available {
          return Broken;
        }
        s := PlaceAt(env, named.value, at.fraction);
    }

    // ---- Changing the layout on both sides ----

    method WriteChange(env: Env, p: PendingLayout) returns (written: bool)
      modifies this`paper, this`luck
      ensures (View(), written) == Committed(old(View()), env, p)
    {
      var l := Next(luck);
      luck := Rest(luck);
      written := env.able && paper.file == p.before && l == Done;
      if written {
        paper := paper.(file := p.next, layout := Some(p.(committed := true)),
                        written := paper.written[p.id := p.next]);
      }
    }

    method FinishChange(p: PendingLayout)
      modifies this`paper
      ensures View() == Finish(old(View()), p)
    {
      paper := paper.(layout := None, adopted := Some(p));
    }

    method PrepareMessage(env: Env, id: nat, edges: seq<EdgeConfig>, revision: Document) returns (s: Status)
      modifies this, receiver, receiver.state
      ensures Did(OnPrepare(old(View()), env, id, edges, revision), s)
    {
      hide Cleared, Send, ValidEdges;
      if paper.layout.Some? || !localReady || !peerReady || !ValidEdges(edges) || paper.file != revision || !env.able {
        s := SendMessage(Layout(Prepared(id, false)));
        return;
      }
      :- ClearSession();
      PrepareChange(id, edges, false, []);
      s := SendMessage(Layout(Prepared(id, true)));
    }

    method PreparedMessage(env: Env, p: PendingLayout, ok: bool) returns (s: Status)
      modifies this
      ensures Did(OnPrepared(old(View()), env, p, ok), s)
    {
      hide Committed, Abandon, Send;
      var written := false;
      if ok {
        written := WriteChange(env, p);
      }
      if written {
        s := SendMessage(Layout(Commit(p.id)));
      } else {
        s := AbandonChange(p);
      }
    }

    method CommitMessage(env: Env, p: PendingLayout) returns (s: Status)
      modifies this
      ensures Did(OnCommit(old(View()), env, p), s)
    {
      hide Committed, Dropped, Adopt, Send;
      var written := WriteChange(env, p);
      if written {
        s := AdoptChange(p.(committed := true));
      } else {
        DropChange();
        s := SendMessage(Layout(Result(p.id, false, None)));
      }
    }

    method AdoptChange(p: PendingLayout) returns (s: Status)
      modifies this
      ensures Did(Adopt(old(View()), p), s)
    {
      hide Send;
      FinishChange(p);
      :- SendMessage(Layout(Result(p.id, true, Some(p.next))));
      return Returned(false);
    }

    method ResultMessage(p: PendingLayout, ok: bool, adopted: Option<Document>) returns (s: Status)
      modifies this
      ensures Did(OnResult(old(View()), p, ok, adopted), s)
    {
      hide Dropped;
      if ok {
        FinishChange(p);
        Reply(Applied(p.id, p.next, adopted));
        return Returned(false);
      }
      DropChange();
      Reply(NotApplied);
      return Going;
    }

    method AbortMessage(mine: bool)
      modifies this
      ensures View() == RepliedIf(Dropped(old(View())), mine, NotApplied)
    {
      hide Dropped;
      DropChange();
      if mine {
        Reply(NotApplied);
      }
    }

    method LayoutLetter(env: Env, m: LayoutMessage) returns (s: Status)
      modifies this, receiver, receiver.state
      ensures Did(OnLayout(old(View()), env, m), s)
    {
      hide OnPrepare, OnPrepared, OnCommit, OnResult, Dropped;
      s := Going;
      if m.Prepare? {
        s := PrepareMessage(env, m.id, m.edges, m.revision);
        return;
      }
      if paper.layout.None? || paper.layout.value.id != m.id {
        return;
      }
      var p := paper.layout.value;
      match m
      case Prepared(_, ok) =>
        if p.mine { s := PreparedMessage(env, p, ok); }
      case Commit(_) =>
        if !p.mine { s := CommitMessage(env, p); }
      case Result(_, ok, adopted) =>
        if p.mine { s := ResultMessage(p, ok, adopted); }
      case Abort(_) => AbortMessage(p.mine);
    }

    method ConfigureTouchpads(count: nat) returns (s: Status)
      modifies this
      ensures Did(OnTouchpads(old(View()), count), s)
    {
      hide Try, LeavesPaper, Letters;
      if padsConfigured || receiver.session.Some? || count > 4 {
        return Broken;
      }
      padsConfigured := true;
      s := Attempt(RepeatedPads);
    }

    method OnMessageReceived(env: Env, m: Message) returns (s: Status)
      modifies this, receiver, receiver.state, keyboard
      ensures Did(OnMessage(old(View()), env, m), s)
    {
      hide OnLayout, OnBegin, OnInput, OnEnd, OnPeerLock, OnTouchpads, Send;
      match m
      case DesktopInfo(info) =>
        desktopEpoch, peer := Wrapped(desktopEpoch), Some(info);
        s := Going;
      case Layout(letter) => s := LayoutLetter(env, letter);
      case Touchpads(count) =>
        s := ConfigureTouchpads(count);
      case Hello => s := Broken;
      case Begin(session, entry) => s := BeginMessage(env, session, entry);
      case Input(session, sequence, event) => s := InputMessage(env, session, sequence, event);
      case End(session, exit) => s := EndMessage(env, session, exit);
      case Ping(nonce) => s := SendMessage(Pong(nonce));
      case Pong(_) => s := Going;
      case LockState(locked) => s := PeerLockChange(env, locked);
    }

    // ---- The loop ----

    method Introduce(pads: nat) returns (s: Status)
      modifies this
      ensures Did(Coordination.Introduce(old(View()), pads), s)
    {
      hide Send;
      var show, locked := DesktopInfo(desktop), !localReady;
      :- SendMessage(show);
      :- SendMessage(Touchpads(pads));
      s := SendMessage(LockState(locked));
    }

    method Announce(pads: nat) returns (s: Status)
      modifies this, receiver, receiver.state
      ensures Did(Announced(old(View()), pads), s)
    {
      hide Injection.LocalLock, Receive, Coordination.Introduce;
      :- NoteLocalLock(localReady);
      s := Introduce(pads);
    }

    method OnEvent(env: Env, ev: Event) returns (s: Status)
      modifies this, receiver, receiver.state, keyboard
      ensures Did(Branch(old(View()), env, ev), s)
    {
      hide OnOutputs, OnRelease, OnApply, OnStatus, OnTick, OnCapture, OnMessage;
      match ev
      case Exit => s := Returned(true);
      case OutputsChanged(outputs) => s := OutputsChange(outputs);
      case ReleaseCommand => s := ReleaseControl(env);
      case ApplyCommand(request) => s := ApplyLayout(env, request);
      case StatusQuery => s := Going;
      case StatusChanged(unlocked) => s := StatusChange(unlocked);
      case StatusClosed => s := Broken;
      case Tick => s := OnTimer(env);
      case CaptureEvent(generation, report) => s := OnCaptureEvent(env, generation, report);
      case Received(message) => s := OnMessageReceived(env, message);
      case LinkClosed => s := Broken;
    }

    method Iterate(env: Env, ev: Event) returns (s: Status)
      modifies this, receiver, receiver.state, keyboard
      ensures Did(Step(old(View()), env, ev), s)
      ensures Core(old(View())) && LegalStep(old(View()), env, ev) ==>
                if s == Going then Core(View()) else Injection.Inv(View().recv)
    {
      s := RunIteration(env, ev);
      Iterated(old(View()), env, ev);
    }

    method RunIteration(env: Env, ev: Event) returns (s: Status)
      modifies this, receiver, receiver.state, keyboard
      ensures Did(Step(old(View()), env, ev), s)
    {
      hide Preamble, Branch;
      :- StartIteration(env);
      s := OnEvent(env, ev);
    }

    method ReleaseAll() returns (ok: bool)
      modifies receiver, receiver.state, keyboard
      ensures View() == Suspended(old(View()).(recv := Stop(old(View()).recv).r)) && ok == Stop(old(View()).recv).Fine?
    {
      hide Stop;
      ok := receiver.Stop();
      Suspend();
    }

    /** However the loop ended; a failure of the cleanup is the result. */
    method CleanUp() returns (s: Status)
      modifies this, receiver, receiver.state, keyboard
      ensures View() == Close(old(View())).n && s == if Close(old(View())).Halt? then Broken else Going
    {
      hide Stop, StopCapture, Dropped, Letters, LeavesPaper;
      var released := ReleaseAll();
      ghost var stopped := View();
      s := StopCaptureTask();
      StopFails(stopped);
      StopCaptureKeeps(stopped);
      assert View() == StopCapture(stopped).n;
      DropChange();
      if !released {
        s := Broken;
      }
    }

    /** A whole connection: announce, iterate until something returns, clean up; a failed cleanup is the result. */
    method Coordinate(pads: nat, steps: seq<(Env, Event)>) returns (s: Status)
      modifies this, receiver, receiver.state, keyboard
      ensures var f := Run(Announced(old(View()), pads), steps);
              && View() == Close(f.n).n
              && s == if Close(f.n).Halt? then Broken else StatusOf(f)
      ensures AtRest(old(View())) && LegalRun(Announced(old(View()), pads), steps) ==>
                var c := View();
                && c.recv.session.None? && !c.capture.live && c.keys == Keyboard.NO_KEYS && c.paper.layout.None?
                && c.recv.sink.down <= Controls(c.recv.pending)
                && (s != Broken ==> c.recv.sink.down == {} && c.recv.sink.pads == {})
    {
      hide Announced, Step, Close, LegalStep, AtRest, Core, LegalRun;
      Coordinated(View(), pads, steps);
      ghost var start := Announced(View(), pads);
      s := Announce(pads);
      var k := 0;
      while k < |steps| && s == Going
        invariant k <= |steps| && Did(Run(start, steps[..k]), s)
      {
        assert steps[..k + 1][..k] == steps[..k];
        s := Iterate(steps[k].0, steps[k].1);
        k := k + 1;
      }
      RunStops(start, steps, k);
      KeysAside(Run(start, steps).n, keyboard.View());
      var cleaned := CleanUp();
      if cleaned != Going {
        s := cleaned;
      }
    }
  }

  lemma {:induction false} SendInputsStop(n: Node, events: seq<InputEvent>, upTo: nat)
    requires upTo <= |events| && SendInputs(n, events[..upTo]).Halt?
    ensures SendInputs(n, events) == SendInputs(n, events[..upTo])
    decreases |events| - upTo
  {
    hide SendInput;
    if upTo == |events| {
      assert events[..upTo] == events;
    } else {
      assert events[..upTo + 1][..upTo] == events[..upTo];
      SendInputsStop(n, events, upTo + 1);
    }
  }

  lemma {:induction false} ForwardAllStop(n: Node, env: Env, events: seq<InputEvent>, upTo: nat)
    requires upTo <= |events| && ForwardAll(n, env, events[..upTo]).Halt?
    ensures ForwardAll(n, env, events) == ForwardAll(n, env, events[..upTo])
    decreases |events| - upTo
  {
    hide Forward;
    if upTo == |events| {
      assert events[..upTo] == events;
    } else {
      assert events[..upTo + 1][..upTo] == events[..upTo];
      ForwardAllStop(n, env, events, upTo + 1);
    }
  }

  lemma {:induction false} PressAllStop(n: Node, events: seq<InputEvent>, upTo: nat)
    requires upTo <= |events| && PressAll(n, events[..upTo]).Halt?
    ensures PressAll(n, events) == PressAll(n, events[..upTo])
    decreases |events| - upTo
  {
    hide ForwardKeyboard;
    if upTo == |events| {
      assert events[..upTo] == events;
    } else {
      assert events[..upTo + 1][..upTo] == events[..upTo];
      PressAllStop(n, events, upTo + 1);
    }
  }

  lemma {:induction false} AbsorbAllStops(k: Keyboard.Keys, changes: seq<Keyboard.Change>, upTo: nat)
    requires upTo <= |changes| && Keyboard.AbsorbAll(k, changes[..upTo]).Failed?
    ensures Keyboard.AbsorbAll(k, changes).Failed?
    decreases |changes| - upTo
  {
    if upTo == |changes| {
      assert changes[..upTo] == changes;
    } else {
      assert changes[..upTo + 1][..upTo] == changes[..upTo];
      AbsorbAllStops(k, changes, upTo + 1);
    }
  }

  lemma SampleEdges(n: Node, env: Env)
    ensures Sample(n, env).n.desktop == n.desktop
  {
    hide Keyboard.AbsorbAll;
  }

  /** An iteration that goes on keeps the invariant, and one that ends the loop forgets nothing that may be down. */
  lemma Iterated(n: Node, env: Env, ev: Event)
    ensures var f := Step(n, env, ev);
            Core(n) && LegalStep(n, env, ev) ==> if StatusOf(f) == Going then Core(f.n) else Injection.Inv(f.n.recv)
  {
    hide Core, Step, LegalStep, Injection.Inv;
    if Core(n) && LegalStep(n, env, ev) {
      StepKeeps(n, env, ev);
    }
  }

  /** Whatever the iterations were, the cleanup after them gives control back. */
  lemma Coordinated(n: Node, pads: nat, steps: seq<(Env, Event)>)
    ensures AtRest(n) && LegalRun(Announced(n, pads), steps) ==>
              var c := Close(Run(Announced(n, pads), steps).n);
              && c.n.recv.session.None? && !c.n.capture.live && c.n.keys == Keyboard.NO_KEYS
              && c.n.paper.layout.None? && c.n.recv.sink.down <= Controls(c.n.recv.pending)
              && (c.More? ==> c.n.recv.sink.down == {} && c.n.recv.sink.pads == {})
  {
    hide AtRest, Announced, Run, LegalRun, Close, Core, Good, Proper;
    if AtRest(n) && LegalRun(Announced(n, pads), steps) {
      AnnouncedKeeps(n, pads);
      RunKeeps(Announced(n, pads), steps);
      CloseReturnsControl(Run(Announced(n, pads), steps));
    }
  }

  lemma StopFails(n: Node)
    ensures StatusOf(StopCapture(n)) == if StopCapture(n).Halt? then Broken else Going
  {
  }

  /** Cleaning up forgets the keyboards, whatever they held. */
  lemma KeysAside(n: Node, keys: Keyboard.Keys)
    ensures Close(n.(keys := keys)) == Close(n)
  {
    hide Stop;
  }

  lemma {:induction false} RunStops(start: Flow, steps: seq<(Env, Event)>, upTo: nat)
    requires upTo <= |steps| && (upTo < |steps| ==> Run(start, steps[..upTo]).Halt?)
    ensures Run(start, steps) == Run(start, steps[..upTo])
    decreases |steps| - upTo
  {
    hide Step;
    if upTo == |steps| {
      assert steps[..upTo] == steps;
    } else {
      assert steps[..upTo + 1][..upTo] == steps[..upTo];
      RunStops(start, steps, upTo + 1);
    }
  }
}
