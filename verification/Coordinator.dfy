// One computer's side of a paired connection: the loop of src/bridge.rs as a step function. Everything the
// program learns from outside in one iteration is in `Env` and `Event`; how its fallible calls turn out is in `luck`.
module Coordination {
  import opened Geometry
  import opened Injection
  import opened Ordered
  import opened Protocol
  import Keyboard
  import Modes

  const MAX_COUNTER := 0xFFFF_FFFF_FFFF_FFFF

  function Wrapped(counter: nat): nat {
    if counter >= MAX_COUNTER then 0 else counter + 1
  }

  // ---- What travels between the two computers ----

  /** A configuration file: the edge layout and everything else. A revision is the digest of the file, and digests
      of different files differ, so a file stands for its own revision. */
  datatype Document = Document(edges: seq<EdgeConfig>, rest: int)

  datatype Desktop = Desktop(edges: seq<EdgeConfig>, outputs: set<string>, revision: Document)

  datatype Position = Position(edge: string, fraction: real)

  datatype LayoutMessage =
    | Prepare(id: nat, edges: seq<EdgeConfig>, revision: Document)
    | Prepared(id: nat, ok: bool)
    | Commit(id: nat)
    | Result(id: nat, ok: bool, adopted: Option<Document>)
    | Abort(id: nat)

  datatype Message =
    | DesktopInfo(info: Desktop)
    | Layout(letter: LayoutMessage)
    | Touchpads(count: nat)
    | Hello
    | Begin(session: nat, entry: Position)
    | Input(session: nat, sequence: nat, event: InputEvent)
    | End(session: nat, exit: Option<Position>)
    | Ping(nonce: nat)
    | Pong(nonce: nat)
    | LockState(locked: bool)

  // ---- State ----

  datatype Role =
    | Local
    | Sending(session: nat, sequence: nat, edge: nat, fraction: real)
    | Receiving(session: nat)
  {
    function Session(): Option<nat> {
      match this
      case Local => None
      case Sending(session, _, _, _) => Some(session)
      case Receiving(session) => Some(session)
    }
  }

  /** The capture worker: whether one is live, what it was started for, and whether it announced a crossing. */
  datatype Capture = Capture(live: bool, started: bool, armed: bool, edges: seq<nat>, epoch: nat, generation: nat)

  /** A prepared layout change; `mine` marks the side that owes its user a reply. */
  datatype PendingLayout =
    PendingLayout(id: nat, before: Document, next: Document, committed: bool, mine: bool, peerEdges: seq<EdgeConfig>)

  datatype Reply = Released | Applied(id: nat, local: Document, peer: Option<Document>) | NotApplied

  /** Everything about the configuration file. `written` remembers what was written for which change, `adopted` the
      change that was finished here, and `rollbackLost` that an ignored write error left a committed change in place. */
  datatype Paper = Paper(file: Document, layout: Option<PendingLayout>, adopted: Option<PendingLayout>,
                         written: map<nat, Document>, rollbackLost: bool, replies: seq<Reply>)

  datatype Node = Node(
    role: Role, recv: Receiver, capture: Capture, localReady: bool, peerReady: bool, padsConfigured: bool,
    desktop: Desktop, peer: Option<Desktop>, desktopEpoch: nat, nextSession: nat,
    physical: bool, keys: Keyboard.Keys, sourceKeys: set<int>, heartbeat: nat,
    paper: Paper, luck: seq<Luck>, sent: seq<Message>)
  {
    predicate BothReady() {
      localReady && peerReady
    }
  }

  /** Why a connection ended. */
  datatype Reason =
    | ExitSignal | LayoutDone
    | SendFailed | CaptureStuck | RouteFailed | SampleFailed | PollFailed | NoOutput | NoTransaction | StatusLost
      | PeerLost
    | SinkTrouble(why: Why) | Busy | Panic
    | Overlap | Delayed | RepeatedPads | PadsMissing | RepeatedHello | UnknownEdge | EdgeUnavailable
    | NotAKey | SequenceUsedUp | SessionsUsedUp

  /** How far a step got: an early return keeps the state it was reached in. */
  datatype Flow = More(n: Node) | Halt(n: Node, why: Reason) {
    predicate IsFailure() {
      Halt?
    }
    function PropagateFailure(): Flow
      requires Halt?
    {
      this
    }
    function Extract(): Node
      requires More?
    {
      n
    }
  }

  // ---- What one iteration learns from outside ----

  datatype LayoutRequest = LayoutRequest(
    localEdges: seq<EdgeConfig>, peerEdges: seq<EdgeConfig>, localRevision: Document, peerRevision: Document)

  datatype Event =
    | Exit
    | OutputsChanged(outputs: set<string>)
    | ReleaseCommand
    | ApplyCommand(request: LayoutRequest)
    | StatusQuery
    | StatusChanged(unlocked: bool)
    | StatusClosed
    | Tick
    | CaptureEvent(generation: nat, report: Report)
    | Received(message: Message)
    | LinkClosed

  /** Clocks, devices and outputs as one iteration finds them. */
  datatype Env = Env(
    mayArm: bool, routed: seq<InputEvent>, outputs: map<string, Output>,
    changes: seq<Keyboard.Change>, active: bool, touch: seq<InputEvent>,
    expired: bool, captureDone: bool, heartbeatDue: bool, late: bool, able: bool, id: nat)

  ghost predicate TouchFrames(events: seq<InputEvent>) {
    forall i :: 0 <= i < |events| ==> events[i].Touchpad? && events[i].Valid()
  }

  /** What decoding a message has already checked. */
  predicate Decoded(m: Message) {
    match m
    case Begin(session, _) => session != 0
    case Input(session, _, event) => session != 0 && event.Valid()
    case End(session, _) => session != 0
    case _ => true
  }

  /** What the environment guarantees: touchpad frames, captured events and decoded messages are valid, keyboards are
      read only where the source has them, and a capture worker announces at most one crossing. */
  ghost predicate Legal(n: Node, env: Env, ev: Event) {
    && TouchFrames(env.touch)
    && (!n.physical ==> env.changes == [])
    && (ev.CaptureEvent? && ev.report.Captured? ==> ev.report.event.Valid())
    && (ev.Received? ==> Decoded(ev.message))
    && (ev.CaptureEvent? && ev.report.Started? && ev.generation == n.capture.generation && n.capture.live ==>
          !n.capture.started)
  }

  // ---- The letters about layout changes ----

  function Letters(sent: seq<Message>): seq<LayoutMessage> {
    if sent == [] then []
    else
      var last := sent[|sent| - 1];
      Letters(sent[..|sent| - 1]) + if last.Layout? then [last.letter] else []
  }

  lemma LettersNext(sent: seq<Message>, m: Message)
    ensures Letters(sent + [m]) == Letters(sent) + if m.Layout? then [m.letter] else []
  {
    assert (sent + [m])[..|sent|] == sent;
  }

  /** Neither the configuration file nor its negotiation is touched. */
  predicate LeavesPaper(n: Node, after: Node) {
    after.paper == n.paper && Letters(after.sent) == Letters(n.sent)
  }

  // ---- Fallible calls ----

  function Try(n: Node, why: Reason): (f: Flow)
    ensures n.sent <= f.n.sent && f.n.physical == n.physical
    ensures LeavesPaper(n, f.n)
  {
    var after := n.(luck := Rest(n.luck));
    if Next(n.luck) == Done then More(after) else Halt(after, why)
  }

  /** A failed send may still have reached the peer. */
  function Send(n: Node, m: Message): (f: Flow)
    ensures n.sent <= f.n.sent && f.n.physical == n.physical
    ensures f.n.paper == n.paper
    ensures Letters(f.n.sent) == Letters(n.sent)
            || (m.Layout? && Letters(f.n.sent) == Letters(n.sent) + [m.letter])
    ensures m.Layout? && f.More? ==> Letters(f.n.sent) == Letters(n.sent) + [m.letter]
  {
    LettersNext(n.sent, m);
    var unsent := n.(luck := Rest(n.luck));
    var after := unsent.(sent := n.sent + [m]);
    match Next(n.luck)
    case Done => More(after)
    case FailedBefore => Halt(unsent, SendFailed)
    case FailedAfter => Halt(after, SendFailed)
  }

  function Receive(n: Node, a: Answer): (f: Flow)
    ensures n.sent <= f.n.sent && f.n.physical == n.physical
    ensures LeavesPaper(n, f.n)
  {
    match a
    case Fine(r, _) => More(n.(recv := r))
    case Error(r, why) => Halt(n.(recv := r), SinkTrouble(why))
  }

  function StopCapture(n: Node): (f: Flow)
    ensures n.sent <= f.n.sent && f.n.physical == n.physical
    ensures LeavesPaper(n, f.n)
  {
    if !n.capture.live then More(n) else Try(n.(capture := n.capture.(live := false)), CaptureStuck)
  }

  /** Reading the physical devices: the keyboards' changes are taken in, and activity is seen. */
  function Sample(n: Node, env: Env): (f: Flow)
    ensures n.sent <= f.n.sent && f.n.physical == n.physical
    ensures LeavesPaper(n, f.n)
  {
    var tried :- Try(n, SampleFailed);
    match Keyboard.AbsorbAll(tried.keys, env.changes)
    case Ok(keys) => More(tried.(keys := keys))
    case Failed => Halt(tried, SampleFailed)
  }

  function Suspended(n: Node): Node {
    n.(keys := Keyboard.NO_KEYS)
  }

  function Drained(n: Node): Node {
    n.(keys := n.keys.(pending := []))
  }

  /** Puts the pointer at a fraction of an edge of this computer. */
  function Place(n: Node, env: Env, index: nat, fraction: real): (f: Flow)
    ensures n.sent <= f.n.sent && f.n.physical == n.physical
    ensures LeavesPaper(n, f.n)
  {
    if index >= |n.desktop.edges| then Halt(n, Panic)
    else match Placement(env.outputs, n.desktop.edges[index], fraction)
      case Failed => Halt(n, NoOutput)
      case Ok(e) => Receive(n, PositionOn(n.recv, n.desktop.edges[index].output, e))
  }

  /** Back to where the pointer left from, when this computer was sending. */
  function PlaceBack(n: Node, env: Env, role: Role, allowed: bool): (f: Flow)
    ensures n.sent <= f.n.sent && f.n.physical == n.physical
    ensures LeavesPaper(n, f.n)
  {
    if role.Sending? && allowed then Place(n, env, role.edge, role.fraction) else More(n)
  }

  /** Tells the peer that the session is over. */
  function SayEnd(n: Node, exit: Option<Position>): (f: Flow)
    ensures n.sent <= f.n.sent && f.n.physical == n.physical
    ensures LeavesPaper(n, f.n)
  {
    match n.role.Session()
    case None => More(n)
    case Some(session) => Send(n, End(session, exit))
  }

  /** Ends the session here and tells the peer. */
  function EndSession(n: Node, exit: Option<Position>): (f: Flow)
    ensures n.sent <= f.n.sent && f.n.physical == n.physical
    ensures LeavesPaper(n, f.n)
  {
    match n.role.Session()
    case None => More(n)
    case Some(session) =>
      var after :- Receive(n, Injection.End(n.recv, session));
      Send(after, End(session, exit))
  }

  function GoLocal(n: Node): Node {
    n.(role := Local)
  }

  // ---- Sending input ----

  function SendInput(n: Node, e: InputEvent): (f: Flow)
    ensures n.sent <= f.n.sent && f.n.physical == n.physical
    ensures LeavesPaper(n, f.n)
  {
    match n.role
    case Sending(session, sequence, _, _) =>
      var after :- Send(n, Input(session, sequence, e));
      if sequence >= MAX_COUNTER then Halt(after, SequenceUsedUp)
      else More(after.(role := n.role.(sequence := sequence + 1)))
    case _ => More(n)
  }

  function SendInputs(n: Node, events: seq<InputEvent>): (f: Flow)
    decreases |events|
    ensures n.sent <= f.n.sent && f.n.physical == n.physical
    ensures LeavesPaper(n, f.n)
  {
    if events == [] then More(n)
    else
      var before :- SendInputs(n, events[..|events| - 1]);
      SendInput(before, events[|events| - 1])
  }

  /** Whether forwarding this key event would complete the emergency chord. */
  predicate Chord(held: set<int>, e: InputEvent) {
    e == KeyInput(Keyboard.ESCAPE, true) && Keyboard.Emergency(held)
  }

  function WithKey(n: Node, e: InputEvent): Node {
    n.(sourceKeys := PressedAfter(n.sourceKeys, e))
  }

  predicate Completes(n: Node, e: InputEvent) {
    n.role.Sending? && Chord(WithKey(n, e).sourceKeys, e)
  }

  /** Notes the key and forwards the event, unless it completes the emergency chord. */
  function ForwardKeyboard(n: Node, e: InputEvent): (f: Flow)
    ensures n.sent <= f.n.sent && f.n.physical == n.physical
    ensures LeavesPaper(n, f.n)
  {
    if !n.role.Sending? then More(n)
    else if !e.KeyInput? then Halt(n, NotAKey)
    else if Completes(n, e) then More(WithKey(n, e))
    else SendInput(WithKey(n, e), e)
  }

  /** The emergency chord: the session ends here and the pointer comes back to where it left. */
  function Escape(n: Node, env: Env): (f: Flow)
    ensures n.sent <= f.n.sent && f.n.physical == n.physical
    ensures LeavesPaper(n, f.n)
  {
    var told :- SayEnd(n, None);
    var stopped :- StopCapture(told);
    var placed :- PlaceBack(stopped, env, n.role, true);
    More(GoLocal(placed).(sourceKeys := {}))
  }

  /** One key event while sharing. */
  function Forward(n: Node, env: Env, e: InputEvent): (f: Flow)
    ensures n.sent <= f.n.sent && f.n.physical == n.physical
    ensures LeavesPaper(n, f.n)
  {
    var keyed :- ForwardKeyboard(n, e);
    if Completes(n, e) then Escape(keyed, env) else More(keyed)
  }

  function ForwardAll(n: Node, env: Env, events: seq<InputEvent>): (f: Flow)
    decreases |events|
    ensures n.sent <= f.n.sent && f.n.physical == n.physical
    ensures LeavesPaper(n, f.n)
  {
    if events == [] then More(n)
    else
      var before :- ForwardAll(n, env, events[..|events| - 1]);
      Forward(before, env, events[|events| - 1])
  }

  /** The keys already held when a session starts are pressed one by one, smallest code first. */
  function Presses(codes: seq<int>): seq<InputEvent> {
    seq(|codes|, i requires 0 <= i < |codes| => KeyInput(codes[i], true))
  }

  /** The loop over them does not look at whether one of them completed the chord. */
  function PressAll(n: Node, events: seq<InputEvent>): (f: Flow)
    decreases |events|
    ensures n.sent <= f.n.sent && f.n.physical == n.physical
    ensures LeavesPaper(n, f.n)
  {
    if events == [] then More(n)
    else
      var before :- PressAll(n, events[..|events| - 1]);
      ForwardKeyboard(before, events[|events| - 1])
  }

  // ---- The start of every iteration ----

  function HasOutput(d: Desktop, e: EdgeConfig): bool {
    e.output in d.outputs
  }

  predicate Matched(local: Desktop, peer: Option<Desktop>, e: EdgeConfig) {
    HasOutput(local, e) && peer.Some?
    && exists j :: 0 <= j < |peer.value.edges| && peer.value.edges[j].id == e.id
                   && HasOutput(peer.value, peer.value.edges[j])
  }

  /** Indices of the edges that lead to an available edge of the peer. */
  function ActiveEdges(local: Desktop, peer: Option<Desktop>, upTo: nat): seq<nat>
    requires upTo <= |local.edges|
  {
    if upTo == 0 then []
    else ActiveEdges(local, peer, upTo - 1) + if Matched(local, peer, local.edges[upTo - 1]) then [upTo - 1] else []
  }

  function Available(n: Node): seq<nat> {
    ActiveEdges(n.desktop, n.peer, |n.desktop.edges|)
  }

  /** The session, the capture and the pointer are given back, in this order. */
  function Surrender(n: Node, env: Env, allowed: bool): (f: Flow)
    ensures n.sent <= f.n.sent && f.n.physical == n.physical
    ensures LeavesPaper(n, f.n)
  {
    var ended :- EndSession(n, None);
    var stopped :- StopCapture(ended);
    PlaceBack(stopped, env, n.role, allowed)
  }

  /** The edge that the pointer left by still has an output. */
  predicate CanComeBack(n: Node) {
    n.localReady && n.role.Sending? && n.role.edge < |n.desktop.edges|
    && HasOutput(n.desktop, n.desktop.edges[n.role.edge])
  }

  function Retire(n: Node, env: Env): (f: Flow)
    ensures n.sent <= f.n.sent && f.n.physical == n.physical
    ensures LeavesPaper(n, f.n)
  {
    var placed :- Surrender(n, env, CanComeBack(n));
    More(GoLocal(placed))
  }

  predicate MustRetire(n: Node) {
    (Available(n) == [] && n.role.Session().Some?) || (n.capture.live && n.capture.epoch != n.desktopEpoch)
  }

  predicate MayCapture(n: Node, env: Env) {
    n.BothReady() && Available(n) != [] && n.paper.layout.None? && !n.capture.live && env.mayArm
  }

  function Retired(n: Node, env: Env): (f: Flow)
    ensures n.sent <= f.n.sent && f.n.physical == n.physical
    ensures LeavesPaper(n, f.n)
  {
    if MustRetire(n) then Retire(n, env) else More(n)
  }

  /** A new capture worker, when sharing is possible and none is live. */
  function Watching(n: Node, env: Env): (after: Node)
    ensures after == n.(capture := after.capture)
  {
    if MayCapture(n, env)
    then n.(capture := Capture(true, false, false, Available(n), n.desktopEpoch, Wrapped(n.capture.generation)))
    else n
  }

  /** The touchpads are pointed at whoever has the stroke, which may fail; what that yields is sent. */
  function Routed(n: Node, env: Env): (f: Flow)
    ensures n.sent <= f.n.sent && f.n.physical == n.physical
    ensures LeavesPaper(n, f.n)
  {
    var tried :- Try(n, RouteFailed);
    SendInputs(tried, env.routed)
  }

  function Preamble(n: Node, env: Env): (f: Flow)
    ensures n.sent <= f.n.sent && f.n.physical == n.physical
    ensures LeavesPaper(n, f.n)
  {
    var kept :- Retired(n, env);
    var routed :- Routed(kept, env);
    More(Watching(routed, env))
  }

  // ---- The branches ----

  function OnOutputs(n: Node, outputs: set<string>): (f: Flow)
    ensures n.sent <= f.n.sent && f.n.physical == n.physical
    ensures LeavesPaper(n, f.n)
  {
    var desktop := n.desktop.(outputs := outputs);
    Send(n.(desktopEpoch := Wrapped(n.desktopEpoch), desktop := desktop), DesktopInfo(desktop))
  }

  function Replied(n: Node, r: Reply): Node {
    n.(paper := n.paper.(replies := n.paper.replies + [r]))
  }

  function OnRelease(n: Node, env: Env): (f: Flow)
    ensures n.sent <= f.n.sent && f.n.physical == n.physical
  {
    var placed :- Surrender(n, env, true);
    More(Replied(GoLocal(placed), Released))
  }

  function Ids(edges: seq<EdgeConfig>): set<string> {
    set i | 0 <= i < |edges| :: edges[i].id
  }

  predicate ValidRequest(r: LayoutRequest) {
    ValidEdges(r.localEdges) && ValidEdges(r.peerEdges) && Ids(r.localEdges) == Ids(r.peerEdges)
  }

  /** Whether the file can be edited now: nothing pending, both sides unlocked, the expected revision, valid edges,
      and whatever else the edit needs. */
  predicate CanPrepare(n: Node, env: Env, edges: seq<EdgeConfig>, revision: Document) {
    n.paper.layout.None? && n.BothReady() && ValidEdges(edges) && n.paper.file == revision && env.able
  }

  function WithPrepared(n: Node, id: nat, edges: seq<EdgeConfig>, mine: bool, peerEdges: seq<EdgeConfig>): Node {
    var file := n.paper.file;
    n.(paper := n.paper.(layout := Some(
      PendingLayout(id, file, file.(edges := edges), false, mine, peerEdges))))
  }

  function Cleared(n: Node): (f: Flow)
    ensures n.sent <= f.n.sent && f.n.physical == n.physical
    ensures LeavesPaper(n, f.n)
  {
    var ended :- EndSession(n, None);
    var stopped :- StopCapture(ended);
    More(GoLocal(stopped))
  }

  /** The user's request fits what both sides have, and this side's file can be edited. */
  predicate CanApply(n: Node, env: Env, r: LayoutRequest) {
    && CanPrepare(n, env, r.localEdges, r.localRevision) && ValidRequest(r)
    && n.peer.Some? && n.peer.value.revision == r.peerRevision
  }

  function Propose(n: Node, id: nat, r: LayoutRequest): (f: Flow)
    ensures n.sent <= f.n.sent && f.n.physical == n.physical
  {
    var drawn :- Try(n, NoTransaction);
    Send(WithPrepared(drawn, id, r.localEdges, true, r.peerEdges), Layout(Prepare(id, r.peerEdges, r.peerRevision)))
  }

  function OnApply(n: Node, env: Env, r: LayoutRequest): (f: Flow)
    ensures n.sent <= f.n.sent && f.n.physical == n.physical
  {
    if CanApply(n, env, r) then
      var cleared :- Cleared(n);
      Propose(cleared, env.id, r)
    else More(Replied(n, NotApplied))
  }

  /** Telling the peer that whatever was going on is over, and giving it up. */
  function LeaveRole(n: Node): (f: Flow)
    ensures n.sent <= f.n.sent && f.n.physical == n.physical
    ensures LeavesPaper(n, f.n)
  {
    var told :- SayEnd(n, None);
    StopCapture(GoLocal(told))
  }

  function OnStatus(n: Node, unlocked: bool): (f: Flow)
    ensures n.sent <= f.n.sent && f.n.physical == n.physical
    ensures LeavesPaper(n, f.n)
  {
    var locked :- Receive(n.(localReady := unlocked), Injection.LocalLock(n.recv, !unlocked));
    var told :- Send(locked, LockState(!unlocked));
    if unlocked then More(told) else LeaveRole(Suspended(told))
  }

  /** Dropping a prepared change rolls it back if it was committed and the file still holds it. */
  function Dropped(n: Node): (after: Node)
    ensures after.sent == n.sent && after.physical == n.physical
  {
    match n.paper.layout
    case None => n
    case Some(p) =>
      var freed := n.paper.(layout := None);
      if !p.committed || freed.file != p.next then n.(paper := freed)
      else if Next(n.luck) == FailedBefore
      then n.(paper := freed.(rollbackLost := true), luck := Rest(n.luck))
      else n.(paper := freed.(file := p.before), luck := Rest(n.luck))
  }

  function RepliedIf(n: Node, mine: bool, r: Reply): Node {
    if mine then Replied(n, r) else n
  }

  /** Physical input on the receiving side takes control back. */
  function TakeOver(n: Node): (f: Flow)
    ensures n.sent <= f.n.sent && f.n.physical == n.physical
    ensures LeavesPaper(n, f.n)
  {
    var freed :- Receive(n, Injection.PhysicalActivity(n.recv));
    LeaveRole(freed)
  }

  function CaptureOver(n: Node, env: Env): (f: Flow)
    ensures n.sent <= f.n.sent && f.n.physical == n.physical
    ensures LeavesPaper(n, f.n)
  {
    if n.capture.live && env.captureDone then
      var stopped :- StopCapture(n);
      if stopped.role.Sending? then
        var told :- SayEnd(stopped, None);
        More(GoLocal(told))
      else More(stopped)
    else More(n)
  }

  function Beat(n: Node, env: Env): (f: Flow)
    ensures n.sent <= f.n.sent && f.n.physical == n.physical
    ensures LeavesPaper(n, f.n)
  {
    if env.heartbeatDue then
      var told :- Send(n, Ping(n.heartbeat));
      More(told.(heartbeat := Wrapped(n.heartbeat)))
    else More(n)
  }

  function SampledIfReady(n: Node, env: Env): (f: Flow)
    ensures n.sent <= f.n.sent && f.n.physical == n.physical
    ensures LeavesPaper(n, f.n)
  {
    if n.BothReady() then Sample(n, env) else More(n)
  }

  /** Giving the change up. */
  function Abandon(n: Node, p: PendingLayout): (f: Flow)
    ensures n.sent <= f.n.sent && f.n.physical == n.physical
  {
    var told :- Send(Dropped(n), Layout(Abort(p.id)));
    More(RepliedIf(told, p.mine, NotApplied))
  }

  function Expire(n: Node, env: Env): (f: Flow)
    ensures n.sent <= f.n.sent && f.n.physical == n.physical
  {
    if n.paper.layout.Some? && env.expired then Abandon(n, n.paper.layout.value) else More(n)
  }

  /** Sends what the keyboards and touchpads reported. */
  function Relay(n: Node, env: Env, events: seq<InputEvent>): (f: Flow)
    ensures n.sent <= f.n.sent && f.n.physical == n.physical
    ensures LeavesPaper(n, f.n)
  {
    var typed :- ForwardAll(n, env, events);
    SendInputs(typed, env.touch)
  }

  function Yielded(n: Node, env: Env): (f: Flow)
    ensures n.sent <= f.n.sent && f.n.physical == n.physical
    ensures LeavesPaper(n, f.n)
  {
    if n.BothReady() && env.active && n.role.Receiving? then TakeOver(n) else More(n)
  }

  function Watched(n: Node, env: Env): (f: Flow)
    ensures n.sent <= f.n.sent && f.n.physical == n.physical
    ensures LeavesPaper(n, f.n)
  {
    var watched :- CaptureOver(n, env);
    Beat(watched, env)
  }

  /** What a tick does with what it found: takeover, keys, touchpads, the end of the capture, the heartbeat. */
  function Act(n: Node, env: Env, events: seq<InputEvent>): (f: Flow)
    ensures n.sent <= f.n.sent && f.n.physical == n.physical
    ensures LeavesPaper(n, f.n)
  {
    var kept :- Yielded(n, env);
    var relayed :- Relay(kept, env, events);
    Watched(relayed, env)
  }

  /** The pending layout change may have expired; then the physical devices are read. */
  function Refresh(n: Node, env: Env): (f: Flow)
    ensures n.sent <= f.n.sent && f.n.physical == n.physical
  {
    var polled :- Try(n, PollFailed);
    var current :- Expire(polled, env);
    SampledIfReady(current, env)
  }

  function OnTick(n: Node, env: Env): (f: Flow)
    ensures n.sent <= f.n.sent && f.n.physical == n.physical
  {
    var sampled :- Refresh(n, env);
    Act(Drained(sampled), env, sampled.keys.pending)
  }

  /** Announcing the next session. */
  function Begun(n: Node, index: nat, fraction: real): (f: Flow)
    requires index < |n.desktop.edges|
    ensures n.sent <= f.n.sent && f.n.physical == n.physical
    ensures LeavesPaper(n, f.n)
  {
    var session := n.nextSession;
    var told :- Send(n.(nextSession := session + 1), Begin(session, Position(n.desktop.edges[index].id, fraction)));
    More(told.(role := Sending(session, 0, index, fraction), sourceKeys := {}))
  }

  /** Announcing a session and pressing in it what is held. */
  function BeginSending(n: Node, index: nat, fraction: real, held: set<int>): (f: Flow)
    requires index < |n.desktop.edges|
    ensures n.sent <= f.n.sent && f.n.physical == n.physical
    ensures LeavesPaper(n, f.n)
  {
    var begun :- Begun(n, index, fraction);
    PressAll(begun, Presses(Codes(held)))
  }

  function StartSending(n: Node, env: Env, index: nat, fraction: real): (f: Flow)
    requires index < |n.desktop.edges|
    ensures n.sent <= f.n.sent && f.n.physical == n.physical
    ensures LeavesPaper(n, f.n)
  {
    var sampled :- Sample(n, env);
    var held := Keyboard.Held(sampled.keys.devices);
    var drained := Drained(sampled);
    if Keyboard.ESCAPE in held && Keyboard.Emergency(held) then StopCapture(drained)
    else if drained.nextSession >= MAX_COUNTER then Halt(drained, SessionsUsedUp)
    else BeginSending(drained, index, fraction, held)
  }

  function Return(n: Node, env: Env, index: nat, fraction: real): (f: Flow)
    requires index < |n.desktop.edges|
    ensures n.sent <= f.n.sent && f.n.physical == n.physical
    ensures LeavesPaper(n, f.n)
  {
    var ended :- EndSession(n, Some(Position(n.desktop.edges[index].id, fraction)));
    var stopped :- StopCapture(GoLocal(ended));
    Place(stopped, env, index, fraction)
  }

  function OnStarted(n: Node, env: Env, edge: nat, fraction: real): (f: Flow)
    ensures n.sent <= f.n.sent && f.n.physical == n.physical
    ensures LeavesPaper(n, f.n)
  {
    if edge >= |n.capture.edges| then Halt(n, UnknownEdge)
    else
      var index := n.capture.edges[edge];
      if index !in Available(n) then Halt(n, EdgeUnavailable)
      else if index >= |n.desktop.edges| then Halt(n, Panic)
      else
        var seen := n.(capture := n.capture.(started := true));
        match n.role
        case Local => if n.BothReady() then StartSending(seen, env, index, fraction) else StopCapture(seen)
        case Receiving(_) => Return(seen, env, index, fraction)
        case Sending(_, _, _, _) => StopCapture(seen)
  }

  function OnCaptured(n: Node, env: Env, e: InputEvent): (f: Flow)
    ensures n.sent <= f.n.sent && f.n.physical == n.physical
    ensures LeavesPaper(n, f.n)
  {
    if (n.physical && e.KeyInput?) || !n.role.Sending? then More(n)
    else if env.late then Halt(n, Delayed)
    else SendInput(n, e)
  }

  function OnFinished(n: Node, env: Env, escape: bool): (f: Flow)
    ensures n.sent <= f.n.sent && f.n.physical == n.physical
    ensures LeavesPaper(n, f.n)
  {
    var ended :- EndSession(n, None);
    var stopped :- StopCapture(GoLocal(ended));
    PlaceBack(stopped, env, n.role, n.localReady && escape)
  }

  function OnCapture(n: Node, env: Env, generation: nat, report: Report): (f: Flow)
    ensures n.sent <= f.n.sent && f.n.physical == n.physical
    ensures LeavesPaper(n, f.n)
  {
    if generation != n.capture.generation || !n.capture.live then More(n)
    else match report
      case Started(edge, fraction) => OnStarted(n, env, edge, fraction)
      case Captured(e) => OnCaptured(n, env, e)
      case Finished(escape) => OnFinished(n, env, escape)
      case Armed => More(n.(capture := n.capture.(armed := true)))
      case Ready => More(n)
  }

  /** The session ends and a pointer sent away comes back, before the role is given up. */
  function SetAside(n: Node, env: Env): (f: Flow)
    ensures n.sent <= f.n.sent && f.n.physical == n.physical
    ensures LeavesPaper(n, f.n)
  {
    var told :- SayEnd(n, None);
    var stopped :- if n.role.Sending? then StopCapture(told) else More(told);
    PlaceBack(stopped, env, n.role, n.localReady)
  }

  /** The peer's session was locked: whatever was going on is over here. */
  function PeerLockedAway(n: Node, env: Env): (f: Flow)
    ensures n.sent <= f.n.sent && f.n.physical == n.physical
    ensures LeavesPaper(n, f.n)
  {
    var aside :- SetAside(Suspended(n), env);
    StopCapture(GoLocal(aside))
  }

  function OnPeerLock(n: Node, env: Env, locked: bool): (f: Flow)
    ensures n.sent <= f.n.sent && f.n.physical == n.physical
    ensures LeavesPaper(n, f.n)
  {
    if !n.padsConfigured then Halt(n, PadsMissing)
    else
      var noted :- Receive(n.(peerReady := !locked), Injection.PeerLock(n.recv, locked));
      if locked then PeerLockedAway(noted, env) else More(noted)
  }

  /** The first available edge with the given name. */
  function EdgeNamed(n: Node, id: string, available: seq<nat>, from: nat): Option<nat>
    requires from <= |n.desktop.edges|
    decreases |n.desktop.edges| - from
  {
    if from == |n.desktop.edges| then None
    else if n.desktop.edges[from].id == id && from in available then Some(from)
    else EdgeNamed(n, id, available, from + 1)
  }

  /** Becoming the receiver of a session. */
  function Accept(n: Node, env: Env, session: nat, edge: nat, fraction: real): (f: Flow)
    ensures n.sent <= f.n.sent && f.n.physical == n.physical
    ensures LeavesPaper(n, f.n)
  {
    var answer := Injection.Begin(n.recv, session);
    var begun :- Receive(n, answer);
    if !answer.accepted then Halt(begun, Busy)
    else
      var placed :- Place(begun, env, edge, fraction);
      More(placed.(role := Receiving(session)))
  }

  function OnBegin(n: Node, env: Env, session: nat, entry: Position): (f: Flow)
    ensures n.sent <= f.n.sent && f.n.physical == n.physical
    ensures LeavesPaper(n, f.n)
  {
    var edge := EdgeNamed(n, entry.edge, Available(n), 0);
    var open := edge.Some? && n.role.Local? && n.BothReady() && n.paper.layout.None?;
    var sampled :- if open then Sample(n, env) else More(n);
    if open && !env.active then Accept(sampled, env, session, edge.value, entry.fraction)
    else if sampled.role.Receiving? then Halt(sampled, Overlap)
    else Send(sampled, End(session, None))
  }

  function OnInput(n: Node, env: Env, session: nat, sequence: nat, e: InputEvent): (f: Flow)
    ensures n.sent <= f.n.sent && f.n.physical == n.physical
    ensures LeavesPaper(n, f.n)
  {
    if env.late then Halt(n, Delayed)
    else if n.role != Receiving(session) then More(n)
    else
      var sampled :- Sample(n, env);
      if env.active then TakeOver(sampled)
      else Receive(sampled, Injection.Input(sampled.recv, session, sequence, e))
  }

  function Indices(count: nat): seq<nat> {
    seq(count, i requires 0 <= i < count => i as nat)
  }

  /** The edge a returning pointer comes back on: any configured edge with that name, which must be available. */
  function ComeBack(n: Node, env: Env, before: Role, exit: Option<Position>): (f: Flow)
    ensures n.sent <= f.n.sent && f.n.physical == n.physical
    ensures LeavesPaper(n, f.n)
  {
    if !before.Sending? || !n.localReady then More(n)
    else match exit
      case None => Place(n, env, before.edge, before.fraction)
      case Some(at) =>
        match EdgeNamed(n, at.edge, Indices(|n.desktop.edges|), 0)
        case None => Halt(n, UnknownEdge)
        case Some(index) =>
          if index !in Available(n) then Halt(n, EdgeUnavailable) else Place(n, env, index, at.fraction)
  }

  function OnEnd(n: Node, env: Env, session: nat, exit: Option<Position>): (f: Flow)
    ensures n.sent <= f.n.sent && f.n.physical == n.physical
    ensures LeavesPaper(n, f.n)
  {
    if n.role.Session() != Some(session) then More(n)
    else
      var ended :- Receive(n, Injection.End(n.recv, session));
      var stopped :- StopCapture(ended);
      var placed :- ComeBack(stopped, env, n.role, exit);
      More(GoLocal(placed))
  }

  /** Writing the prepared file: only over the exact text it was prepared from. */
  function Committed(n: Node, env: Env, p: PendingLayout): (r: (Node, bool))
    ensures r.0.sent == n.sent && r.0.physical == n.physical
  {
    var tried := n.(luck := Rest(n.luck));
    if env.able && n.paper.file == p.before && Next(n.luck) == Done
    then (tried.(paper := n.paper.(file := p.next, layout := Some(p.(committed := true)),
                                     written := n.paper.written[p.id := p.next])), true)
    else (tried, false)
  }

  /** The change is final here. */
  function Finish(n: Node, p: PendingLayout): Node {
    n.(paper := n.paper.(layout := None, adopted := Some(p)))
  }

  function OnPrepare(n: Node, env: Env, id: nat, edges: seq<EdgeConfig>, revision: Document): (f: Flow)
    ensures n.sent <= f.n.sent && f.n.physical == n.physical
  {
    if CanPrepare(n, env, edges, revision) then
      var cleared :- Cleared(n);
      Send(WithPrepared(cleared, id, edges, false, []), Layout(Prepared(id, true)))
    else Send(n, Layout(Prepared(id, false)))
  }

  function OnPrepared(n: Node, env: Env, p: PendingLayout, ok: bool): (f: Flow)
    ensures n.sent <= f.n.sent && f.n.physical == n.physical
  {
    var (tried, written) := if ok then Committed(n, env, p) else (n, false);
    if written then Send(tried, Layout(Commit(p.id))) else Abandon(tried, p)
  }

  /** Keeping the change for good, and saying so; the connection restarts with the new configuration. */
  function Adopt(n: Node, p: PendingLayout): (f: Flow)
    ensures n.sent <= f.n.sent && f.n.physical == n.physical
  {
    var told :- Send(Finish(n, p), Layout(Result(p.id, true, Some(p.next))));
    Halt(told, LayoutDone)
  }

  function OnCommit(n: Node, env: Env, p: PendingLayout): (f: Flow)
    ensures n.sent <= f.n.sent && f.n.physical == n.physical
  {
    var (tried, written) := Committed(n, env, p);
    if written then Adopt(tried, p.(committed := true))
    else Send(Dropped(tried), Layout(Result(p.id, false, None)))
  }

  function OnResult(n: Node, p: PendingLayout, ok: bool, adopted: Option<Document>): (f: Flow)
    ensures n.sent <= f.n.sent && f.n.physical == n.physical
  {
    if ok then Halt(Replied(Finish(n, p), Applied(p.id, p.next, adopted)), LayoutDone)
    else More(Replied(Dropped(n), NotApplied))
  }

  predicate Concerns(n: Node, id: nat) {
    n.paper.layout.Some? && n.paper.layout.value.id == id
  }

  function OnLayout(n: Node, env: Env, m: LayoutMessage): (f: Flow)
    ensures n.sent <= f.n.sent && f.n.physical == n.physical
  {
    match m
    case Prepare(id, edges, revision) => OnPrepare(n, env, id, edges, revision)
    case Prepared(id, ok) =>
      if Concerns(n, id) && n.paper.layout.value.mine then OnPrepared(n, env, n.paper.layout.value, ok) else More(n)
    case Commit(id) =>
      if Concerns(n, id) && !n.paper.layout.value.mine then OnCommit(n, env, n.paper.layout.value) else More(n)
    case Result(id, ok, adopted) =>
      if Concerns(n, id) && n.paper.layout.value.mine then OnResult(n, n.paper.layout.value, ok, adopted) else More(n)
    case Abort(id) =>
      if Concerns(n, id) then More(RepliedIf(Dropped(n), n.paper.layout.value.mine, NotApplied)) else More(n)
  }

  /** Touchpads are announced once, and not during input. */
  function OnTouchpads(n: Node, count: nat): (f: Flow)
    ensures n.sent <= f.n.sent && f.n.physical == n.physical
    ensures LeavesPaper(n, f.n)
  {
    if n.padsConfigured || n.recv.session.Some? || count > 4 then Halt(n, RepeatedPads)
    else Try(n.(padsConfigured := true), RepeatedPads)
  }

  function OnMessage(n: Node, env: Env, m: Message): (f: Flow)
    ensures n.sent <= f.n.sent && f.n.physical == n.physical
  {
    match m
    case DesktopInfo(info) => More(n.(desktopEpoch := Wrapped(n.desktopEpoch), peer := Some(info)))
    case Layout(letter) => OnLayout(n, env, letter)
    case Touchpads(count) => OnTouchpads(n, count)
    case Hello => Halt(n, RepeatedHello)
    case Begin(session, entry) => OnBegin(n, env, session, entry)
    case Input(session, sequence, event) => OnInput(n, env, session, sequence, event)
    case End(session, exit) => OnEnd(n, env, session, exit)
    case Ping(nonce) => Send(n, Pong(nonce))
    case Pong(_) => More(n)
    case LockState(locked) => OnPeerLock(n, env, locked)
  }

  function Branch(n: Node, env: Env, ev: Event): (f: Flow)
    ensures n.sent <= f.n.sent && f.n.physical == n.physical
  {
    match ev
    case Exit => Halt(n, ExitSignal)
    case OutputsChanged(outputs) => OnOutputs(n, outputs)
    case ReleaseCommand => OnRelease(n, env)
    case ApplyCommand(request) => OnApply(n, env, request)
    case StatusQuery => More(n)
    case StatusChanged(unlocked) => OnStatus(n, unlocked)
    case StatusClosed => Halt(n, StatusLost)
    case Tick => OnTick(n, env)
    case CaptureEvent(generation, report) => OnCapture(n, env, generation, report)
    case Received(message) => OnMessage(n, env, message)
    case LinkClosed => Halt(n, PeerLost)
  }

  /** One iteration of the loop. */
  function Step(n: Node, env: Env, ev: Event): (f: Flow)
    ensures n.sent <= f.n.sent && f.n.physical == n.physical
  {
    var ready :- Preamble(n, env);
    Branch(ready, env, ev)
  }

  /** The same for an iteration: what arrives, arrives after its preamble. */
  ghost predicate LegalStep(n: Node, env: Env, ev: Event) {
    TouchFrames(env.routed) && (Preamble(n, env).More? ==> Legal(Preamble(n, env).n, env, ev))
  }

  // ---- Before and after the loop ----

  /** A computer that has just authenticated its peer. */
  function Fresh(desktop: Desktop, physical: bool, unlocked: bool, luck: seq<Luck>, fate: seq<Luck>): Node {
    Node(Local, NewReceiver(fate), Capture(false, false, false, [], 0, 0), unlocked, false, false,
         desktop, None, 0, 1, physical, Keyboard.NO_KEYS, {}, 0,
         Paper(desktop.revision, None, None, map[], false, []), luck, [])
  }

  function Introduce(n: Node, pads: nat): (f: Flow)
    ensures n.sent <= f.n.sent && f.n.physical == n.physical
    ensures LeavesPaper(n, f.n)
  {
    var shown :- Send(n, DesktopInfo(n.desktop));
    var listed :- Send(shown, Touchpads(pads));
    Send(listed, LockState(!n.localReady))
  }

  /** What is said before the loop: desktop, touchpads and lock state. */
  function Announced(n: Node, pads: nat): (f: Flow)
    ensures n.sent <= f.n.sent && f.n.physical == n.physical
    ensures LeavesPaper(n, f.n)
  {
    var locked :- Receive(n, Injection.LocalLock(n.recv, !n.localReady));
    Introduce(locked, pads)
  }

  /** The state in which the loop is entered. */
  function Open(desktop: Desktop, physical: bool, unlocked: bool, pads: nat, luck: seq<Luck>, fate: seq<Luck>): Flow {
    Announced(Fresh(desktop, physical, unlocked, luck, fate), pads)
  }

  /** What happens whenever the loop ends, however it ended: input is released, devices and capture are given back,
      and a pending layout change is dropped; all of it, whatever fails on the way, and a failure is the result. */
  function Close(n: Node): Flow {
    var released := Stop(n.recv);
    var freed := StopCapture(Suspended(n.(recv := released.r)));
    var left := Dropped(freed.n);
    if freed.Halt? then Halt(left, freed.why)
    else if released.Error? then Halt(left, SinkTrouble(released.why))
    else More(left)
  }
}
