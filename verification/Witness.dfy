// Two runs of a pair of coordinators that show what the theorems about pairs cannot exclude: roles that disagree, and a
// layout that only the participant has changed (src/bridge.rs).
module Witness {
  import opened ControlSafety
  import opened Coordination
  import opened Endings
  import opened Geometry
  import opened Injection
  import opened LayoutSafety
  import opened Link
  import opened Ordered
  import opened Protocol
  import Keyboard
  import Modes

  // ---- Two computers that face each other ----

  const EDGE := EdgeConfig("e", "o", Boundary(Right, 0.0, 1.0))
  const OTHER := EdgeConfig("e", "o", Boundary(Left, 0.0, 1.0))
  const FILE := Document([EDGE], 0)
  const DESK := Desktop([EDGE], {"o"}, FILE)
  const BOTH := Entry(DESK, false, true, 0, [], [])
  const ENTRY := Position("e", 0.5)

  /** An iteration in which nothing fails, with or without permission to arm and physical activity. */
  function Usually(arm: bool, active: bool): Env {
    Env(arm, [], map["o" := Enabled(100, 100)], [], active, [], false, false, false, false, true, 1)
  }

  const CALM := Usually(false, false)
  const ARMING := Usually(true, false)
  const TOUCHED := Usually(false, true)
  const CROSSES := CaptureEvent(1, Started(0, 0.5))

  /** A receiver as it is after cleaning up. */
  function Freed(r: Receiver): Receiver {
    NewReceiver([]).(injected := r.injected, since := r.since, sink := r.sink)
  }

  /** A backend with nothing down or touched, whose calls succeed. */
  predicate Clean(s: Sink) {
    s == Sink({}, {}, [], s.log, s.output)
  }

  /** A receiver without a session. */
  predicate Free(r: Receiver) {
    r == Freed(r) && Clean(r.sink)
  }

  /** A receiver with a session in which nothing has come yet. */
  predicate Listening(r: Receiver, s: nat) {
    && r == Freed(r).(state := Freed(r).state.(mode := Modes.Receiving), session := Some(s)) && Clean(r.sink)
    && s in r.injected && r.injected[s] == []
  }

  /** Where the pointer is put whenever it comes in or back. */
  const PLACED := AbsoluteInput(96, 50, 100, 100)

  function Pointed(r: Receiver): Receiver {
    r.(sink := r.sink.(log := r.sink.log + [PLACED], output := "o"))
  }

  const INTRODUCTION := [DesktopInfo(DESK), Message.Touchpads(0), LockState(false)]

  /** A computer as it enters. */
  const ENTERED := Node(Role.Local, NewReceiver([]), Capture(false, false, false, [], 0, 0), true, false, false, DESK,
                        None, 0, 1, false, Keyboard.NO_KEYS, {}, 0,
                        Paper(FILE, None, None, map[], false, []), [], INTRODUCTION)

  lemma OpensSo()
    ensures Entered(BOTH) == More(ENTERED)
  {
    FreeLocks(NewReceiver([]), false);
    var n := Fresh(DESK, false, true, [], []);
    assert Receive(n, LocalLock(n.recv, false)) == More(n);
    var shown := Send(n, DesktopInfo(DESK));
    var listed := Send(shown.n, Message.Touchpads(0));
    assert [DesktopInfo(DESK)] + [Message.Touchpads(0)] + [LockState(false)] == INTRODUCTION;
  }

  /** Cleaning up after a session with nothing down changes nothing. */
  lemma FreeCleans(r: Receiver)
    requires r.pending == {} && Clean(r.sink)
    ensures ReleaseWithPads(r, {}) == Fine(r, true)
  {
    NoCodes();
    assert r.pending + {} == {};
  }

  lemma FreeLocks(r: Receiver, locked: bool)
    requires Free(r) && !locked
    ensures LocalLock(r, locked) == Fine(r, true) && PeerLock(r, locked) == Fine(r, true)
  {
    hide ReleaseWithPads;
    FreeCleans(r);
  }

  /** The edge leads to the peer's as soon as the peer is known. */
  lemma EdgeIsAvailable(n: Node)
    requires n.desktop == DESK && n.peer == Some(DESK)
    ensures Available(n) == [0]
  {
    assert DESK.edges[0].id == EDGE.id && HasOutput(DESK, DESK.edges[0]);
    assert Matched(DESK, Some(DESK), EDGE);
    assert ActiveEdges(DESK, Some(DESK), 0) == [];
    assert ActiveEdges(DESK, Some(DESK), 1) == [] + [0];
  }

  /** A computer of the pair on which nothing has failed and no key is held. */
  predicate Sane(n: Node) {
    && n.luck == [] && n.desktop == DESK && n.localReady && !n.physical && n.keys == Keyboard.NO_KEYS
    && n.paper.layout.None? && n.recv.pending == {} && Clean(n.recv.sink)
    && (n.capture.live ==> n.capture.epoch == n.desktopEpoch)
  }

  /** And it takes part in nothing. */
  predicate Resting(n: Node) {
    Sane(n) && n.role.Local? && !n.capture.live && Free(n.recv)
  }

  /** And it has met its peer. */
  predicate Ready(n: Node) {
    n.peer == Some(DESK) && n.peerReady && n.padsConfigured
  }

  /** Iterations that begin with nothing to retire and nothing to arm. */
  lemma BeginsQuietly(n: Node, env: Env)
    requires Sane(n) && env.routed == [] && !env.mayArm && (n.peer == Some(DESK) || n.role.Local?)
    ensures Preamble(n, env) == More(n)
  {
    hide Retire;
    if n.peer == Some(DESK) {
      EdgeIsAvailable(n);
    }
  }

  /** The next iteration of a computer, in which `ev` happens. */
  ghost predicate Goes(n: Node, env: Env, ev: Event, after: Node) {
    LegalStep(n, env, ev) && Preamble(n, env).More? && Step(n, env, ev) == More(after)
  }

  // ---- Meeting ----

  lemma HearsInfo(n: Node)
    requires Resting(n) && n.peer.None? && n.desktopEpoch == 0
    ensures Goes(n, CALM, Received(DesktopInfo(DESK)), n.(peer := Some(DESK), desktopEpoch := 1))
  {
    hide Preamble;
    BeginsQuietly(n, CALM);
  }

  lemma HearsPads(n: Node)
    requires Resting(n) && n.peer == Some(DESK) && !n.padsConfigured
    ensures Goes(n, CALM, Received(Message.Touchpads(0)), n.(padsConfigured := true))
  {
    hide Preamble;
    BeginsQuietly(n, CALM);
  }

  lemma HearsUnlocked(n: Node)
    requires Resting(n) && n.peer == Some(DESK) && n.padsConfigured
    ensures Goes(n, CALM, Received(LockState(false)), n.(peerReady := true))
  {
    hide Preamble, PeerLock;
    BeginsQuietly(n, CALM);
    FreeLocks(n.recv, false);
  }

  // ---- Sharing ----

  lemma NothingHeld(k: Keyboard.Keys)
    requires k.devices == map[]
    ensures Keyboard.Held(k.devices) == {} && !Keyboard.Emergency(Keyboard.Held(k.devices))
    ensures Presses(Codes(Keyboard.Held(k.devices))) == []
  {
    hide Codes;
    NoCodes();
    assert Keyboard.Held(k.devices) == {};
  }

  const WATCHING := Capture(true, true, false, [0], 1, 1)

  /** A computer that has just crossed. */
  function Crossed(n: Node): Node {
    n.(capture := WATCHING, role := Role.Sending(n.nextSession, 0, 0, 0.5), nextSession := n.nextSession + 1,
       sourceKeys := {}, sent := n.sent + [Begin(n.nextSession, ENTRY)])
  }

  lemma ArmsQuietly(n: Node)
    requires Resting(n) && Ready(n) && n.desktopEpoch == 1 && n.capture.generation == 0
    ensures Preamble(n, ARMING) == More(n.(capture := WATCHING.(started := false)))
  {
    hide Retire;
    EdgeIsAvailable(n);
  }

  lemma Crosses(n: Node)
    requires Resting(n) && Ready(n) && n.desktopEpoch == 1 && n.capture.generation == 0 && n.nextSession < MAX_COUNTER
    ensures Goes(n, ARMING, CROSSES, Crossed(n))
  {
    hide Preamble, StartSending, Return;
    ArmsQuietly(n);
    var ready := n.(capture := WATCHING.(started := false));
    EdgeIsAvailable(ready);
    StartsSending(n.(capture := WATCHING), ARMING);
  }

  lemma StartsSending(n: Node, env: Env)
    requires Sane(n) && n.role.Local? && env.changes == [] && n.nextSession < MAX_COUNTER
    ensures StartSending(n, env, 0, 0.5)
         == More(n.(role := Role.Sending(n.nextSession, 0, 0, 0.5), nextSession := n.nextSession + 1, sourceKeys := {},
                    sent := n.sent + [Begin(n.nextSession, ENTRY)]))
  {
    hide Keyboard.Held, Keyboard.Emergency, Codes, Presses;
    NothingHeld(n.keys);
    assert Sample(n, env) == More(n);
  }

  /** The pointer of a computer without input can be placed. */
  lemma PlacesQuietly(n: Node, env: Env)
    requires Sane(n) && env.outputs == CALM.outputs && (n.recv.session.None? || n.recv.expected == 0)
    ensures Place(n, env, 0, 0.5) == More(n.(recv := Pointed(n.recv)))
  {
    var e := Placement(env.outputs, EDGE, 0.5);
    assert EDGE.boundary.PointAt(Rect(0.0, 0.0, 100.0, 100.0), 0.5, INSET).Ok?;
    PlacementIsValid(env.outputs, EDGE, 0.5);
    assert PositionOn(n.recv, "o", e.value) == Fine(Pointed(n.recv), true);
  }

  function Begun1(r: Receiver, s: nat): Receiver {
    r.(state := r.state.(mode := Modes.Receiving), session := Some(s), expected := 0, injected := r.injected[s := []],
       since := |r.sink.log|)
  }

  lemma TakesBeginning(n: Node, s: nat)
    requires Resting(n) && Ready(n) && s != 0
    ensures Goes(n, CALM, Received(Begin(s, ENTRY)), n.(role := Role.Receiving(s), recv := Pointed(Begun1(n.recv, s))))
  {
    hide Preamble, Place;
    BeginsQuietly(n, CALM);
    EdgeIsAvailable(n);
    assert Sample(n, CALM) == More(n);
    PlacesQuietly(n.(recv := Begun1(n.recv, s)), CALM);
  }

  lemma EndsFreely(r: Receiver, s: nat)
    requires r.session.None?
    ensures Injection.End(r, s) == Fine(r, true)
  {
  }

  /** The user takes control back from a computer that is sending. */
  lemma Releases(n: Node, s: nat)
    requires Sane(n) && Ready(n) && Free(n.recv) && n.capture == WATCHING && n.desktopEpoch == 1
    requires n.role == Role.Sending(s, 0, 0, 0.5)
    ensures Goes(n, CALM, ReleaseCommand,
                 n.(role := Role.Local, capture := WATCHING.(live := false), recv := Pointed(n.recv),
                    sent := n.sent + [End(s, None)], paper := n.paper.(replies := n.paper.replies + [Released])))
  {
    hide Preamble, Place, Injection.End;
    BeginsQuietly(n, CALM);
    EndsFreely(n.recv, s);
    var stopped := n.(sent := n.sent + [End(s, None)], capture := WATCHING.(live := false));
    PlacesQuietly(stopped, CALM);
  }

  lemma StopsFreely(r: Receiver, s: nat)
    requires Listening(r, s)
    ensures PhysicalActivity(r) == Fine(Freed(r), true)
  {
    hide ReleaseWithPads;
    FreeCleans(Freed(r));
  }

  /** Physical input on a receiver takes control back. */
  lemma TakesOver(n: Node, s: nat)
    requires Sane(n) && Ready(n) && !n.capture.live && n.role == Role.Receiving(s)
    requires Listening(n.recv, s)
    ensures Goes(n, TOUCHED, Tick,
                 n.(role := Role.Local, recv := Freed(n.recv), sent := n.sent + [End(s, None)]))
  {
    hide Preamble, PhysicalActivity;
    BeginsQuietly(n, TOUCHED);
    StopsFreely(n.recv, s);
    assert Sample(n, TOUCHED) == More(n);
  }

  lemma IgnoresEnd(n: Node, s: nat)
    requires Resting(n) && n.peer == Some(DESK) && s != 0
    ensures Goes(n, CALM, Received(End(s, None)), n)
  {
    hide Preamble, OnEnd;
    BeginsQuietly(n, CALM);
    assert OnEnd(n, CALM, s, None) == More(n) by {
      EndIgnored(n, s);
    }
  }

  lemma EndIgnored(n: Node, s: nat)
    requires n.role.Local?
    ensures OnEnd(n, CALM, s, None) == More(n)
  {
  }

  /** A computer that is sending takes an end of its session. */
  lemma StopsSending(n: Node, s: nat)
    requires Sane(n) && Ready(n) && Free(n.recv) && n.capture == WATCHING && n.desktopEpoch == 1
    requires n.role == Role.Sending(s, 0, 0, 0.5) && s != 0
    ensures Goes(n, CALM, Received(End(s, None)),
                 n.(role := Role.Local, capture := WATCHING.(live := false), recv := Pointed(n.recv)))
  {
    hide Preamble, Place, Injection.End;
    BeginsQuietly(n, CALM);
    EndsFreely(n.recv, s);
    PlacesQuietly(n.(capture := WATCHING.(live := false)), CALM);
  }

  // ---- Moves of the pair ----

  lemma Plays(start: World, moves: seq<Move>, m: Move)
    ensures Played(start, moves + [m]) == Moved(Played(start, moves), m)
  {
    hide Moved;
    assert (moves + [m])[..|moves|] == moves;
  }

  lemma GoesA(start: World, moves: seq<Move>, w: World, n: Node, env: Env, ev: Event, after: Node)
    requires Played(start, moves) == w && w.a == More(n) && Goes(n, env, ev, after)
    requires ev.Received? ==> w.takenByA < |w.b.n.sent| && w.b.n.sent[w.takenByA] == ev.message
    ensures Played(start, moves + [Move(true, env, ev)])
         == w.(a := More(after), takenByA := if ev.Received? then w.takenByA + 1 else w.takenByA)
  {
    hide Step, Preamble, LegalStep, Played;
    Plays(start, moves, Move(true, env, ev));
  }

  lemma GoesB(start: World, moves: seq<Move>, w: World, n: Node, env: Env, ev: Event, after: Node)
    requires Played(start, moves) == w && w.b == More(n) && Goes(n, env, ev, after)
    requires ev.Received? ==> w.takenByB < |w.a.n.sent| && w.a.n.sent[w.takenByB] == ev.message
    ensures Played(start, moves + [Move(false, env, ev)])
         == w.(b := More(after), takenByB := if ev.Received? then w.takenByB + 1 else w.takenByB)
  {
    hide Step, Preamble, LegalStep, Played;
    Plays(start, moves, Move(false, env, ev));
  }

  // ---- Meeting ----

  const INFO := Received(DesktopInfo(DESK))
  const PADS := Received(Message.Touchpads(0))
  const UNLOCKED := Received(LockState(false))

  predicate New(n: Node) {
    Resting(n) && n.peer.None? && n.desktopEpoch == 0 && !n.padsConfigured && n.capture.generation == 0
      && n.nextSession == 1
    && n.recv.injected == map[] && n.sent == INTRODUCTION
  }

  function Met(n: Node): Node {
    n.(peer := Some(DESK), desktopEpoch := 1, padsConfigured := true, peerReady := true)
  }

  /** Ready to cross for the first time. */
  predicate Meeting(n: Node, sent: seq<Message>) {
    Resting(n) && Ready(n) && n.desktopEpoch == 1 && n.capture.generation == 0 && n.nextSession == 1 && n.sent == sent
  }

  lemma EnteredIsNew()
    ensures Entered(BOTH).More? && New(Entered(BOTH).n)
  {
    hide Open;
    OpensSo();
  }

  lemma MeetsA(start: World, moves: seq<Move>, w: World, n: Node)
    requires Played(start, moves) == w && w.a == More(n) && New(n) && w.takenByA == 0 && w.b.n.sent == INTRODUCTION
    ensures Played(start, moves + [Move(true, CALM, INFO)] + [Move(true, CALM, PADS)] + [Move(true, CALM, UNLOCKED)])
         == w.(a := More(Met(n)), takenByA := 3)
    ensures Meeting(Met(n), INTRODUCTION) && Met(n).recv.injected == map[]
  {
    hide Played, Goes, CALM, DESK;
    var n1, n2 := n.(peer := Some(DESK), desktopEpoch := 1),
                  n.(peer := Some(DESK), desktopEpoch := 1, padsConfigured := true);
    HearsInfo(n);
    GoesA(start, moves, w, n, CALM, INFO, n1);
    HearsPads(n1);
    GoesA(start, moves + [Move(true, CALM, INFO)], w.(a := More(n1), takenByA := 1), n1, CALM, PADS, n2);
    HearsUnlocked(n2);
    GoesA(start, moves + [Move(true, CALM, INFO)] + [Move(true, CALM, PADS)], w.(a := More(n2), takenByA := 2), n2,
          CALM, UNLOCKED, Met(n));
  }

  lemma MeetsB(start: World, moves: seq<Move>, w: World, n: Node)
    requires Played(start, moves) == w && w.b == More(n) && New(n) && w.takenByB == 0 && w.a.n.sent == INTRODUCTION
    ensures Played(start, moves + [Move(false, CALM, INFO)] + [Move(false, CALM, PADS)] + [Move(false, CALM, UNLOCKED)])
         == w.(b := More(Met(n)), takenByB := 3)
    ensures Meeting(Met(n), INTRODUCTION) && Met(n).recv.injected == map[]
  {
    hide Played, Goes, CALM, DESK;
    var n1, n2 := n.(peer := Some(DESK), desktopEpoch := 1),
                  n.(peer := Some(DESK), desktopEpoch := 1, padsConfigured := true);
    HearsInfo(n);
    GoesB(start, moves, w, n, CALM, INFO, n1);
    HearsPads(n1);
    GoesB(start, moves + [Move(false, CALM, INFO)], w.(b := More(n1), takenByB := 1), n1, CALM, PADS, n2);
    HearsUnlocked(n2);
    GoesB(start, moves + [Move(false, CALM, INFO)] + [Move(false, CALM, PADS)], w.(b := More(n2), takenByB := 2), n2,
          CALM, UNLOCKED, Met(n));
  }

  /** Each hears what the other opens with. */
  function Introduced(): seq<Move> {
    [] + [Move(true, CALM, INFO)] + [Move(true, CALM, PADS)] + [Move(true, CALM, UNLOCKED)]
    + [Move(false, CALM, INFO)] + [Move(false, CALM, PADS)] + [Move(false, CALM, UNLOCKED)]
  }

  lemma Meet(start: World) returns (n: Node)
    requires start == Together(BOTH, BOTH)
    ensures Played(start, Introduced()) == World(More(n), More(n), 3, 3)
    ensures Meeting(n, INTRODUCTION) && n.recv.injected == map[] && n == Met(Entered(BOTH).n)
  {
    hide Played, Open, New, Met, Meeting, CALM, INFO, PADS, UNLOCKED;
    EnteredIsNew();
    NothingPlayed(start);
    var e := Entered(BOTH).n;
    NewSaysHello(e);
    MeetsA(start, [], start, e);
    MetSays(e);
    MeetsB(start, [] + [Move(true, CALM, INFO)] + [Move(true, CALM, PADS)] + [Move(true, CALM, UNLOCKED)],
           start.(a := More(Met(e)), takenByA := 3), e);
    n := Met(e);
  }

  lemma NothingPlayed(w: World)
    ensures Played(w, []) == w
  {
  }

  lemma NewSaysHello(n: Node)
    requires New(n)
    ensures n.sent == INTRODUCTION
  {
  }

  lemma MetSays(n: Node)
    ensures Met(n).sent == n.sent
  {
  }

  // ---- A late end ----

  function Accepted(n: Node, s: nat): Node {
    n.(role := Role.Receiving(s), recv := Pointed(Begun1(n.recv, s)))
  }

  /** A sender whose user took control back. */
  function Recalled(n: Node, s: nat): Node {
    n.(role := Role.Local, capture := WATCHING.(live := false), recv := Pointed(n.recv),
       sent := n.sent + [End(s, None)], paper := n.paper.(replies := n.paper.replies + [Released]))
  }

  /** A receiver that was taken over. */
  function TakenBack(n: Node, s: nat): Node {
    n.(role := Role.Local, recv := Freed(n.recv), sent := n.sent + [End(s, None)])
  }

  function Stopped(n: Node): Node {
    n.(role := Role.Local, capture := WATCHING.(live := false), recv := Pointed(n.recv))
  }

  lemma RecalledRests(n: Node)
    requires Meeting(n, INTRODUCTION)
    ensures Goes(Crossed(n), CALM, ReleaseCommand, Recalled(Crossed(n), 1))
    ensures var b := Recalled(Crossed(n), 1);
            Resting(b) && Ready(b) && b.sent == INTRODUCTION + [Begin(1, ENTRY)] + [End(1, None)]
  {
    hide Goes;
    Releases(Crossed(n), 1);
  }

  lemma TakenBackRests(n: Node)
    requires Meeting(n, INTRODUCTION) && n.recv.injected == map[]
    ensures Goes(Accepted(n, 1), TOUCHED, Tick, TakenBack(Accepted(n, 1), 1))
    ensures Meeting(TakenBack(Accepted(n, 1), 1), INTRODUCTION + [End(1, None)])
  {
    hide Goes;
    TakesOver(Accepted(n, 1), 1);
  }

  lemma StoppedRests(n: Node)
    requires Meeting(n, INTRODUCTION + [End(1, None)])
    ensures Goes(Crossed(n), CALM, Received(End(1, None)), Stopped(Crossed(n)))
    ensures Crossed(n).sent == INTRODUCTION + [End(1, None)] + [Begin(1, ENTRY)]
  {
    hide Goes;
    StopsSending(Crossed(n), 1);
  }

  lemma CrossedSays(n: Node)
    requires n.nextSession == 1
    ensures Crossed(n).sent == n.sent + [Begin(1, ENTRY)]
  {
  }

  /** B crosses to A; B's user takes it back while A, which has not heard of that yet, is taken over physically. */
  function Shared(): seq<Move> {
    Introduced() + [Move(false, ARMING, CROSSES)] + [Move(true, CALM, Received(Begin(1, ENTRY)))]
    + [Move(false, CALM, ReleaseCommand)] + [Move(true, TOUCHED, Tick)]
  }

  /** Then A crosses to B, which hears of both. */
  function Stale(): seq<Move> {
    Shared() + [Move(true, ARMING, CROSSES)] + [Move(false, CALM, Received(End(1, None)))]
    + [Move(false, CALM, Received(Begin(1, ENTRY)))]
  }

  lemma Share(start: World, n: Node)
    requires Played(start, Introduced()) == World(More(n), More(n), 3, 3)
    requires Meeting(n, INTRODUCTION) && n.recv.injected == map[]
    ensures Played(start, Shared())
         == World(More(TakenBack(Accepted(n, 1), 1)), More(Recalled(Crossed(n), 1)), 4, 3)
  {
    hide Played, Goes, Introduced, TakenBack, Recalled, Crossed, CALM, ARMING, TOUCHED;
    var m1, m2 := Move(false, ARMING, CROSSES), Move(true, CALM, Received(Begin(1, ENTRY)));
    var b, a := Crossed(n), Accepted(n, 1);
    Crosses(n);
    GoesB(start, Introduced(), World(More(n), More(n), 3, 3), n, ARMING, CROSSES, b);
    TakesBeginning(n, 1);
    CrossedSays(n);
    GoesA(start, Introduced() + [m1], World(More(n), More(b), 3, 3), n, CALM, Received(Begin(1, ENTRY)), a);
    RecalledRests(n);
    GoesB(start, Introduced() + [m1] + [m2], World(More(a), More(b), 4, 3), b, CALM, ReleaseCommand, Recalled(b, 1));
    TakenBackRests(n);
    GoesA(start, Introduced() + [m1] + [m2] + [Move(false, CALM, ReleaseCommand)],
          World(More(a), More(Recalled(b, 1)), 4, 3), a, TOUCHED, Tick, TakenBack(a, 1));
  }

  lemma BecomeStale(start: World, a: Node, b: Node)
    requires Played(start, Shared()) == World(More(a), More(b), 4, 3)
    requires Meeting(a, INTRODUCTION + [End(1, None)]) && Resting(b) && Ready(b)
    ensures Played(start, Stale()) == World(More(Crossed(a)), More(Accepted(b, 1)), 4, 5)
  {
    hide Played, Goes, Shared, Crossed, CALM, ARMING;
    var m1, m2 := Move(true, ARMING, CROSSES), Move(false, CALM, Received(End(1, None)));
    Crosses(a);
    GoesA(start, Shared(), World(More(a), More(b), 4, 3), a, ARMING, CROSSES, Crossed(a));
    CrossedSays(a);
    IgnoresEnd(b, 1);
    GoesB(start, Shared() + [m1], World(More(Crossed(a)), More(b), 4, 3), b, CALM, Received(End(1, None)), b);
    TakesBeginning(b, 1);
    GoesB(start, Shared() + [m1] + [m2], World(More(Crossed(a)), More(b), 4, 4), b, CALM, Received(Begin(1, ENTRY)),
          Accepted(b, 1));
  }

  /** The disagreement is reached without any failure: A takes the old end of B's session for an end of its own and
      stops, while B receives A's session and nothing is on its way any more. */
  lemma RolesCanDisagree()
    ensures TakesEnd(HistoryOf(Together(BOTH, BOTH), Stale()), CALM, 1, None)
    ensures var w := Played(Together(BOTH, BOTH), Stale() + [Move(true, CALM, Received(End(1, None)))]);
            && w.a.More? && w.a.n.role.Local? && w.b.More? && w.b.n.role == Receiving(1)
            && w.takenByA == |w.b.n.sent| && w.takenByB == |w.a.n.sent|
  {
    hide Goes, Played, HistoryOf, TakesEnd, Stale, Shared, Introduced, Met, Crossed, Recalled, TakenBack, CALM, Meeting;
    var start := Together(BOTH, BOTH);
    var n := Meet(start);
    Share(start, n);
    RecalledRests(n);
    TakenBackRests(n);
    var a, b := TakenBack(Accepted(n, 1), 1), Recalled(Crossed(n), 1);
    BecomeStale(start, a, b);
    StoppedRests(a);
    var w := World(More(Crossed(a)), More(Accepted(b, 1)), 4, 5);
    GoesA(start, Stale(), w, Crossed(a), CALM, Received(End(1, None)), Stopped(Crossed(a)));
    HistoryPlays(start, Stale());
    AboutToStop(HistoryOf(start, Stale()), a);
  }

  lemma AboutToStop(h: History, n: Node)
    requires h.w.a == More(Crossed(n)) && Meeting(n, INTRODUCTION + [End(1, None)])
    requires Goes(Crossed(n), CALM, Received(End(1, None)), Stopped(Crossed(n)))
    requires h.w.takenByA < |h.w.b.n.sent| && h.w.b.n.sent[h.w.takenByA] == End(1, None)
    ensures TakesEnd(h, CALM, 1, None)
  {
    hide Preamble, Step, LegalStep;
    BeginsQuietly(Crossed(n), CALM);
  }

  // ---- A layout that only the participant has changed ----

  const NEXT := Document([OTHER], 0)
  const REQUEST := LayoutRequest([OTHER], [OTHER], FILE, FILE)

  /** The change of both sides' edge, on the side that asks for it or on the other. */
  function Change(committed: bool, mine: bool): PendingLayout {
    PendingLayout(1, FILE, NEXT, committed, mine, if mine then [OTHER] else [])
  }

  function Offering(n: Node): Node {
    n.(paper := n.paper.(layout := Some(Change(false, true))), sent := n.sent + [Layout(Prepare(1, [OTHER], FILE))])
  }

  function Agreeing(n: Node): Node {
    n.(paper := n.paper.(layout := Some(Change(false, false))), sent := n.sent + [Layout(Prepared(1, true))])
  }

  function Committing(n: Node): Node {
    n.(paper := n.paper.(file := NEXT, layout := Some(Change(true, true)), written := n.paper.written[1 := NEXT]),
       sent := n.sent + [Layout(Commit(1))])
  }

  function Adopting(n: Node): Node {
    n.(paper := n.paper.(file := NEXT, layout := None, adopted := Some(Change(true, false)),
                         written := n.paper.written[1 := NEXT]),
       sent := n.sent + [Layout(Result(1, true, Some(NEXT)))])
  }

  lemma OtherIsValid()
    ensures ValidEdges([OTHER])
  {
    assert Bytes("") == 0;
    assert "e"[1..] == "" && "o"[1..] == "";
    assert Bytes("e") == 1 && Bytes("o") == 1;
    assert ValidEdge(OTHER);
  }

  /** A side that nothing has changed yet. */
  predicate Untouched(n: Node) {
    Meeting(n, INTRODUCTION) && n.paper == Paper(FILE, None, None, map[], false, [])
  }

  lemma Offers(n: Node)
    requires Untouched(n)
    ensures Goes(n, CALM, ApplyCommand(REQUEST), Offering(n))
  {
    hide Preamble, ValidEdges;
    BeginsQuietly(n, CALM);
    OtherIsValid();
  }

  lemma Agrees(n: Node)
    requires Untouched(n)
    ensures Goes(n, CALM, Received(Layout(Prepare(1, [OTHER], FILE))), Agreeing(n))
  {
    hide Preamble, ValidEdges;
    BeginsQuietly(n, CALM);
    OtherIsValid();
  }

  /** With a change pending nothing is armed or retired. */
  lemma PendingBeginsQuietly(n: Node, m: Node)
    requires Untouched(n) && m == n.(paper := m.paper, sent := m.sent)
    ensures Preamble(m, CALM) == More(m)
  {
    hide Retire;
    EdgeIsAvailable(m);
  }

  lemma Commits(n: Node)
    requires Untouched(n)
    ensures Goes(Offering(n), CALM, Received(Layout(Prepared(1, true))), Committing(Offering(n)))
  {
    hide Preamble;
    PendingBeginsQuietly(n, Offering(n));
  }

  /** The last iteration of a computer. */
  ghost predicate Ends(n: Node, env: Env, ev: Event, after: Node, why: Reason) {
    LegalStep(n, env, ev) && Preamble(n, env).More? && Step(n, env, ev) == Halt(after, why)
  }

  lemma Adopts(n: Node)
    requires Untouched(n)
    ensures Ends(Agreeing(n), CALM, Received(Layout(Commit(1))), Adopting(Agreeing(n)), LayoutDone)
  {
    hide Preamble;
    PendingBeginsQuietly(n, Agreeing(n));
  }

  lemma Breaks(n: Node)
    requires Untouched(n)
    ensures Ends(Committing(Offering(n)), CALM, LinkClosed, Committing(Offering(n)), PeerLost)
  {
    hide Preamble;
    PendingBeginsQuietly(n, Committing(Offering(n)));
  }

  lemma EndsA(start: World, moves: seq<Move>, w: World, n: Node, env: Env, ev: Event, after: Node, why: Reason)
    requires Played(start, moves) == w && w.a == More(n) && Ends(n, env, ev, after, why) && !ev.Received?
    ensures Played(start, moves + [Move(true, env, ev)]) == w.(a := Halt(after, why))
  {
    hide Step, Preamble, LegalStep, Played;
    Plays(start, moves, Move(true, env, ev));
  }

  lemma EndsB(start: World, moves: seq<Move>, w: World, n: Node, env: Env, ev: Event, after: Node, why: Reason)
    requires Played(start, moves) == w && w.b == More(n) && Ends(n, env, ev, after, why) && ev.Received?
    requires w.takenByB < |w.a.n.sent| && w.a.n.sent[w.takenByB] == ev.message
    ensures Played(start, moves + [Move(false, env, ev)]) == w.(b := Halt(after, why), takenByB := w.takenByB + 1)
  {
    hide Step, Preamble, LegalStep, Played;
    Plays(start, moves, Move(false, env, ev));
  }

  const OFFER := Move(true, CALM, ApplyCommand(REQUEST))
  const AGREEMENT := Move(false, CALM, Received(Layout(Prepare(1, [OTHER], FILE))))
  const COMMITMENT := Move(true, CALM, Received(Layout(Prepared(1, true))))
  const ADOPTION := Move(false, CALM, Received(Layout(Commit(1))))
  const BREAK := Move(true, CALM, LinkClosed)

  /** A asks for the change, both prepare it and write it, and the link breaks before A hears that B has adopted it. */
  function Diverging(): seq<Move> {
    Introduced() + [OFFER] + [AGREEMENT] + [COMMITMENT] + [ADOPTION] + [BREAK]
  }

  lemma Diverge(start: World, n: Node)
    requires Played(start, Introduced()) == World(More(n), More(n), 3, 3) && Untouched(n)
    ensures Played(start, Diverging())
         == World(Halt(Committing(Offering(n)), PeerLost), Halt(Adopting(Agreeing(n)), LayoutDone), 4, 5)
  {
    hide Played, Goes, Ends, Introduced, Untouched, CALM;
    UntouchedSays(n);
    var a1, b1 := Offering(n), Agreeing(n);
    Offers(n);
    GoesA(start, Introduced(), World(More(n), More(n), 3, 3), n, CALM, ApplyCommand(REQUEST), a1);
    Agrees(n);
    GoesB(start, Introduced() + [OFFER], World(More(a1), More(n), 3, 3), n, CALM, AGREEMENT.ev, b1);
    Commits(n);
    GoesA(start, Introduced() + [OFFER] + [AGREEMENT], World(More(a1), More(b1), 3, 4), a1, CALM, COMMITMENT.ev,
          Committing(a1));
    Adopts(n);
    EndsB(start, Introduced() + [OFFER] + [AGREEMENT] + [COMMITMENT], World(More(Committing(a1)), More(b1), 4, 4),
          b1, CALM, ADOPTION.ev, Adopting(b1), LayoutDone);
    Breaks(n);
    EndsA(start, Introduced() + [OFFER] + [AGREEMENT] + [COMMITMENT] + [ADOPTION],
          World(More(Committing(a1)), Halt(Adopting(b1), LayoutDone), 4, 5), Committing(a1), CALM, LinkClosed,
          Committing(a1), PeerLost);
  }

  lemma UntouchedSays(n: Node)
    requires Untouched(n)
    ensures n.sent == INTRODUCTION
  {
  }

  lemma MetIsUntouched(n: Node)
    requires n == Met(Entered(BOTH).n) && Meeting(n, INTRODUCTION)
    ensures Untouched(n)
  {
    hide Entered, Meeting;
    OpensSo();
  }

  lemma NothingProposed(id: nat)
    ensures !ProposedIn(Letters(INTRODUCTION), id)
  {
    assert INTRODUCTION[..2] == [DesktopInfo(DESK), Message.Touchpads(0)]
      && INTRODUCTION[..2][..1] == [DesktopInfo(DESK)];
    assert Letters([DesktopInfo(DESK)]) == [] && Letters(INTRODUCTION[..2]) == [];
    assert Letters(INTRODUCTION) == [];
  }

  /** The identifier is new: it is the only one. */
  lemma IdIsFresh(start: World, n: Node)
    requires Played(start, Introduced()) == World(More(n), More(n), 3, 3) && n.sent == INTRODUCTION
    ensures FreshIds(start, Diverging())
  {
    hide Played, Letters, ProposedIn;
    NothingProposed(1);
    var moves := Diverging();
    assert forall k :: 0 <= k < |moves| && k != 6 ==> !moves[k].ev.ApplyCommand?;
    assert moves[..6] == Introduced();
  }

  /** What closing leaves behind. */
  lemma ClosesA(n: Node)
    requires Untouched(n)
    ensures var p := Close(Committing(Offering(n))).n.paper;
            && p.file == FILE && p.adopted.None? && !p.rollbackLost && 1 in p.written && p.replies == []
  {
    hide Stop;
  }

  lemma ClosesB(n: Node)
    requires Untouched(n)
    ensures var p := Close(Adopting(Agreeing(n))).n.paper;
            p.file == NEXT && p.adopted == Some(Change(true, false)) && !p.rollbackLost && p.replies == []
  {
    hide Stop;
  }

  /** The one divergence that cannot be excluded does happen, without any failure but the link's: B has the new layout
      and A has restored its old one, and nobody was told of a success. */
  lemma OnlyTheParticipantIsNew()
    ensures FreshIds(Together(BOTH, BOTH), Diverging())
    ensures var w := Played(Together(BOTH, BOTH), Diverging());
            var a, b := Close(w.a.n).n.paper, Close(w.b.n).n.paper;
            EndsAs(OnlyNew(true), a, b, FILE, FILE) && a.file != b.file && !a.rollbackLost && !b.rollbackLost
  {
    hide Played, Diverging, Introduced, Close, Met, Meeting, Untouched, Letters, Offering, Agreeing, Committing,
         Adopting;
    var start := Together(BOTH, BOTH);
    var n := Meet(start);
    MetIsUntouched(n);
    UntouchedSays(n);
    Diverge(start, n);
    IdIsFresh(start, n);
    ClosesA(n);
    ClosesB(n);
  }
}
