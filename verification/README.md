# NiriBridge: a verified model

NiriBridge lets two computers share one keyboard, mouse and touchpad. Each computer runs a coordinator that either
keeps control local, sends its input to the peer, or injects the peer's input. This project models the state behind
the promises that users rely on and proves them for all inputs, all runs and all failures of the calls in between:
nothing stays pressed or touched, the remote devices mirror the local ones, control comes back, and a layout that is
reported as saved is saved on both sides.

How the modules build on each other:

- `Ordered`, `Protocol`: ordered sets, input events, what an event does to the set of controls that are down.
- `Touchpad`, `Handoff`, `Routing`, `Strokes`, `Clock`: multi-touch state as an interpreter of frames, giving a grabbed
  device back to a reader that missed everything (against an explicit model of the kernel), switching one stroke between
  two destinations, following it from the device's own events to what the readers of a destination see, and rebasing
  remote timestamps.
- `Keyboard`, `Modes`, `Injection`, `ReceiverMachine`: keys held on several keyboards, who is in control, and injecting
  input through a sink that may fail before or after taking effect.
- `Geometry`: edges, spans, crossings and placements.
- `Coordination`: one iteration of the coordinator as a function of its state, what it learns from outside (`Env`,
  `Event`) and how its fallible calls turn out (`luck`). `CoordinatorMachine` is the loop itself, with fields and early
  returns, proved equal to it.
- `ControlSafety`: what every iteration keeps, over all runs. `Speech`: what a sender says is numbered, valid and exactly
  what its keyboards hold. `Link`: two coordinators over ordered channels. `LayoutSafety`: the two-phase change of both
  layout files on the same pair of coordinators.
- `Control`: when sending and receiving start and end, exactly, and where the pointer is put then. `Devices`: when the
  keyboards are read. `Announcements`: what each side says of its lock and desktop is true, and known to the other.
- `Mirroring`, `Beginnings`: the remote keyboard shows earlier values of the local one, from the first key of a session
  on. `Turns`, `Endings`: what is said about sessions, and when an end taken by a sender is meant for its session.
  `Witness`: concrete runs of a pair.
- `Manager`, `Pairing`: prepared edits against other writers of the file, and the saved profiles of peers.
- `Capture`, `CaptureMachine`: the stream a capture worker publishes, for every sequence of compositor events.
  `Compositor`, `Engagement`: that it says what the compositor's events say, and when it is ready, interrupted or
  escaped.
- `Firewall`, `FirewallMachine`: owned firewall rules and their journal, with commands that fail at any point.

Code that updates fields in place is modelled twice: as a specification on values, about which the properties are proved,
and as a class whose methods are proved to do exactly what the specification says. Check the whole project with
`dafny verify dfyconfig.toml`.

Where the source falls short of what it is for, the model follows the source and says exactly when:

- both sides number their sessions from 1 and an end is not acknowledged, so roles can disagree (`Endings.EndGivesUpWhen`,
  `Witness.RolesCanDisagree`);
- a touchpad whose values are outside their announced ranges when it is taken over is refused when the stroke moves
  (`Touchpad.SnapshotAllowedWhen`, `Handoff.OpenedButRefused`);
- readers of a local virtual touchpad remember coordinates of slots that a remote stroke has since changed
  (`Strokes.ReadersSeeAllExactlyWhen`, `Strokes.ReadersMayBeStale`);
- a failed touchpad reset is not remembered (`Injection.StopLiftsPadsWhen`); within a connection this is never met again,
  because the failure ends the connection (`Injection.SessionsBeginClean`, `ControlSafety.EveryRunIsSafe`);
- the backup of the configuration may be older than the text a commit replaces (`Manager.BackupIsTheOriginal`);
- a rollback whose write fails is silent (`LayoutSafety.RollbackExactly`, `LayoutSafety.GivenUpExactly`);
- a file in which two profiles share a certificate path can lose settings (`Pairing.SelectingSparesWhen`,
  `Pairing.EditIsCurrent`).

## Model

| member | source | states |
|---|---|---|
| Touchpad.Validate | src/touchpad.rs:86-143 | the loop over keys and axes accepts a descriptor exactly when it is well-formed: touch key and x, y, slot and tracking axes present, 2 to 16 keys and 4 to 20 axes with sound ranges, 1 to 32 slots, no key or axis twice |
| Touchpad.ApplyInShape | src/touchpad.rs:428-447 | replaying any validated frames keeps the state within its descriptor: the current slot is a slot, every value in range, so indexing by slot never fails |
| Touchpad.NewInShape | src/touchpad.rs:413-427 | a fresh virtual touchpad is within its descriptor |
| Touchpad.SnapshotAllowed | src/touchpad.rs:448-472 | the snapshot of any state that saw only validated frames validates against the same descriptor and has at most 494 events, under the limit of 512 |
| Touchpad.ApplyReadable | src/touchpad.rs:366-427 | a state read from the kernel, with any values, stays one under validated frames, and indexing by slot never fails |
| Touchpad.SnapshotAllowedWhen | src/touchpad.rs:175-198 | the snapshot of a state read from the kernel validates exactly when its shared axes and the coordinates of fingers on the pad are within their announced ranges |
| Touchpad.UnusedIsRefused | src/touchpad.rs:368-405 | a device with a shared axis that starts above 0 is taken over with the value 0 the kernel starts with, and then its snapshot is refused |
| Touchpad.ReleasesAllowed | src/touchpad.rs:473-486 | the release frame of any state that saw only validated frames validates against the same descriptor |
| Touchpad.SnapshotRebuilds | src/touchpad.rs:448-472 | applied to a fresh touchpad, the snapshot rebuilds slot, keys, axes and every contact that is active, and no other |
| Touchpad.ReleasesLift | src/touchpad.rs:473-486 | applied to any such state, the release frame leaves no contact and no key |
| Touchpad.TouchState.constructor | src/touchpad.rs:413-427 | a new state has every axis at its minimum, no key and no contact in any slot |
| Touchpad.TouchState.Apply | src/touchpad.rs:428-447 | updating the maps in place does what the interpreter of the multi-touch protocol, type B, says |
| Touchpad.TouchState.Snapshot | src/touchpad.rs:448-472 | the frame pushed together in loops is the snapshot of the state, in the order of ordered maps |
| Touchpad.TouchState.Releases | src/touchpad.rs:473-486 | the frame pushed together in loops is the release frame of the state |
| Touchpad.TouchState.IsIdle | src/touchpad.rs:406-412 | idle exactly when no slot holds a contact and no key is down |
| Handoff.HandoffFrames | src/touchpad.rs:265-306 | two frames are made exactly for valid descriptors whose contact axes can change by more than twice their fuzz, and they are the hidden and the neutral frame |
| Handoff.SlotFrames | src/touchpad.rs:276-297 | the loop over slots and axes builds the per-slot parts of both frames |
| Handoff.FinishHandoff | src/touchpad.rs:318-357 | with a repair asked for, the hidden frame is extended by a contact in every slot, or refused when no tracking id fits |
| Handoff.HiddenNeutralizes | src/touchpad.rs:265-305 | whatever the kernel held, the hidden frame leaves every slot without contact, keys up and all axes at their maximum |
| Handoff.HandoffResynchronizes | src/touchpad.rs:318-357 | for every kernel state and every reader that was idle when the grab began, with any stale slot and coordinates: hidden frame, ungrab, neutral frame leave reader and kernel agreeing on slot, keys, tracking ids and every axis that can change, and the reader sees no press and no contact start |
| Handoff.StaysInAgreement | src/touchpad.rs:318-357 | from agreement on, reader and kernel stay in agreement under all later hardware frames |
| Handoff.LegacyRepair | src/touchpad.rs:328-357 | with the repair, any reader, whatever ghost contacts it believes in, gets an ending for every slot and ends without contacts, again seeing no press and no contact start |
| Handoff.OpenedButRefused | src/touchpad.rs:586-624 | there is a device that passes the checks made when it is opened and is taken over while idle, whose snapshot is refused then: the guards do not prevent what Touchpad.UnusedIsRefused describes |
| Handoff.ResynchronizesExactlyWhen | src/touchpad.rs:265-305 | exactly the devices with a contact axis that can change, or with a single slot, are resynchronised; the refusal in the code asks for the former |
| Routing.FrameTogether | src/touchpad.rs:428-447 | the same frame on both sides keeps a destination in step with the fingers |
| Routing.OpenedInStep | src/touchpad.rs:823-840 | a destination that accepts the snapshot starts in step with a pad whose state was read with any values |
| Strokes.StrokeContinuity | src/touchpad.rs:720-843 | after any mix of raw device events, sampling, route switches and deliveries, a pad opened by a route switch shows at its selected destination, once what is on its way arrives, exactly what the fingers did at its last report by the device events themselves: on this computer what the readers of the virtual device see, on the other what the frames make of its pad; on the destination that is not selected nothing is down; every queued frame carries the time of a report of its pad |
| Strokes.ReportsAreRecorded | src/touchpad.rs:738-775 | every accepted report of a grabbed pad records what the fingers do then, keys, slot, axes and contacts; if they moved, one frame is queued for the paired computer under the time of the report, or written here within the allowed delay |
| Strokes.PadsAreTakenIdle | src/touchpad.rs:776-803 | a pad is grabbed, for good, exactly when it is taken over with no key and no contact down |
| Strokes.ReadersSeeAllExactlyWhen | src/touchpad.rs:448-472 | coming back, the readers of the virtual device see the fingers in full exactly when what they still remember of every slot without a finger is what the fingers left there, and they remember no coordinate that the physical pad does not have |
| Strokes.ReadersMayBeStale | src/touchpad.rs:562-568 | that may fail: readers who saw a finger of a slot at one place go on believing in it after the finger has moved during the remote stroke and left |
| Strokes.SamplingIsItsEvents | src/touchpad.rs:720-804 | sampling a pad is handling its fetched events one by one, in their order and none left out, and then taking it over if it was acquired |
| Routing.DestinationsFollow | src/touchpad.rs:720-843 | over every run the selected destination of an opened pad is in step with the recorded state, and the record of the other one is idle |
| Routing.SnapshotsGive | src/touchpad.rs:823-840 | the frames that a switch to the paired computer returns bring a fresh pad there in step with every grabbed pad, and leave the others alone |
| Routing.NextKeeps | src/touchpad.rs:720-843 | every single action of the router keeps that, including the one that clears the pending frames |
| Routing.TouchRouter.FeedPad | src/touchpad.rs:738-790 | the loop over fetched events builds, validates, applies and delivers frames as specified, or fails |
| Routing.TouchRouter.DeliverFrame | src/touchpad.rs:745-762 | a report takes the frame, validates and applies it, and queues it or writes it to the mirror |
| Routing.TouchRouter.Sample | src/touchpad.rs:720-804 | one pad is fed and, when idle, grabbed |
| Routing.TouchRouter.Route | src/touchpad.rs:823-840 | switching resets or opens every grabbed pad, returns their snapshots and drops the pending frames |
| Routing.TouchRouter.Drain | src/touchpad.rs:841-843 | draining hands over all pending frames in order |
| Clock.RemoteClock.Map | src/touchpad.rs:42-54 | the fields are updated as one step of rebasing |
| Clock.LatenessBound | src/touchpad.rs:37-54 | results never exceed the local time, and are late by at most the excess of the delay over the smallest delay so far |
| Clock.NeverBackwards | src/touchpad.rs:37-54 | over any run results never decrease |
| Clock.StretchesNeverStretch | src/touchpad.rs:37-54 | over any stretch of ordered frames the results span no more time than the sources |
| Clock.IntervalsNeverStretch | src/touchpad.rs:37-54 | consecutive results are never further apart than their sources, nor in the wrong order |
| Clock.IntervalKept | src/touchpad.rs:37-54 | with an unchanged offset and no clamp the interval is kept exactly |
| Keyboard.AbsorbAllObserves | src/input.rs:12-51 | over every run of changes and disconnects that does not overflow the queue, a key is noted as held on a device exactly if the changes say so: some change pressed it, and none since released it or lost the device |
| Keyboard.AggregationIsExact | src/input.rs:12-51 | over any such run, everything drained replays to the keys that are physically held on some device by the changes alone, every event changes that set, and nothing is pending |
| Keyboard.AbsorbAllMirrors | src/input.rs:12-51 | any further changes keep drained and pending events an exact account of what is held |
| Keyboard.PhysicalKeys.Update | src/input.rs:13-36 | one key change updates the device and queues an event exactly when the union changes, or fails on a full queue |
| Keyboard.PhysicalKeys.Disconnect | src/input.rs:37-44 | every key of the device is released in ascending order and the device is forgotten |
| Keyboard.PhysicalKeys.Drain | src/input.rs:48-50 | the queue is handed over whole |
| Modes.ControlMachine.Start | src/input.rs:129-139 | starting succeeds exactly from local control with nothing locked |
| Modes.ControlMachine.Stop | src/input.rs:149-162 | stopping frees all held codes and falls back to local control, or to a pause while something is locked |
| Modes.ControlMachine.LocalLockChanged | src/input.rs:164-174 | an unchanged lock does nothing, a changed one stops |
| Modes.ControlMachine.PeerLockChanged | src/input.rs:176-186 | the same for the peer |
| Modes.ControlMachine.PhysicalActivity | src/input.rs:188-191 | physical activity stops exactly while receiving |
| Injection.ExecInv | src/receiver.rs:60-198 | every receiver operation, with a sink that fails before or after taking effect, keeps every control that may be down among the held or owed codes, and a running session free of debts |
| Injection.NothingForgotten | src/receiver.rs:60-198 | so in every reachable state whatever may be down is remembered |
| Injection.InjectInv | src/receiver.rs:75-105 | an injected event is remembered before it is emitted and forgotten only after its release took effect |
| Injection.StartsClean | src/receiver.rs:60-72 | a session begins, and the pointer is placed, only when nothing can be down |
| Injection.StopLiftsEverything | src/receiver.rs:114-121 | a successful stop leaves no key, button or touchpad down |
| Injection.StopSucceeds | src/receiver.rs:173-198 | when no call to the sink fails, a stop succeeds, whatever was held or owed |
| Injection.StopLiftsPadsWhen | src/receiver.rs:173-198 | a stop leaves a touchpad touched exactly when one was touched and the one reset, after one release per owed code, failed before taking effect |
| Injection.SessionsBeginClean | src/receiver.rs:60-72 | as long as no operation has failed, as in a connection, every session begins with no key, button or touchpad down and nothing owed |
| Injection.PadsMayStayTouched | src/receiver.rs:60-66 | a receiver used on after a failed reset would begin a session on a touched pad |
| ReceiverMachine.InputReceiver.Begin | src/receiver.rs:60-72 | the method answers and changes the fields as specified |
| ReceiverMachine.InputReceiver.Input | src/receiver.rs:75-105 | stale sessions are ignored; mismatch, invalid events, exhaustion and failed emissions stop the session |
| ReceiverMachine.InputReceiver.End | src/receiver.rs:107-112 | only the running session is ended |
| ReceiverMachine.InputReceiver.Stop | src/receiver.rs:114-121 | the session is over and its codes are released |
| ReceiverMachine.InputReceiver.LocalLock | src/receiver.rs:123-130 | a lock change ends the session and releases |
| ReceiverMachine.InputReceiver.PeerLock | src/receiver.rs:140-147 | the same for the peer lock |
| ReceiverMachine.InputReceiver.PhysicalActivity | src/receiver.rs:132-138 | takeover ends the session and releases |
| ReceiverMachine.InputReceiver.PositionOn | src/receiver.rs:158-171 | the guard, the event check, output selection and emission, in this order |
| ReceiverMachine.InputReceiver.Release | src/receiver.rs:179-198 | the loop tries every owed code and keeps exactly those whose release failed |
| Geometry.PointIsInside | src/geometry.rs:102-124 | every placement lies strictly inside the screen |
| Geometry.PlacementIsAtItsEdge | src/bridge.rs:548-566 | the pixel of a placement lies at its own side of the output, no deeper than the inset of 4 pixels, and along it in the pixel of the point that the fraction of the span stands for, half a pixel away from the corners |
| Geometry.StripIsItsSpan | src/capture_probe.rs:449-460 | a strip begins in the pixel in which its span begins and ends less than two pixels before the span does |
| Geometry.FractionComesBack | src/geometry.rs:82-124 | a placed point maps back onto the span exactly when the span reaches past the corner pixels, and then to within half a pixel of tangent, exactly unless a corner is near |
| Geometry.OnePixelIsEnough | src/geometry.rs:82-124 | a span of one pixel always reaches past the corner pixels |
| Geometry.CornerSpanIsLost | src/geometry.rs:82-124 | every point of a span that does not reach past the corner pixels is placed beside the span |
| Geometry.NarrowSpanIsLost | src/geometry.rs:82-124 | there are such spans on an ordinary screen: the first 0.0002 of an edge of 1920 pixels, for every fraction and inset |
| Geometry.ValidateEdges | src/bridge.rs:99-128 | the nested loops accept exactly the edge lists with distinct valid names, valid outputs and spans that do not overlap |
| Geometry.StripsDisjoint | src/capture_probe.rs:449-460 | validated edges on one side of one output get strips that share no pixel |
| Geometry.StripInside | src/capture_probe.rs:449-460 | every strip lies inside its side |
| Geometry.PlacementIsValid | src/bridge.rs:548-566 | every placement of the pointer is a valid absolute event |
| Geometry.CrossingCanBePlaced | src/bridge.rs:548-566 | a crossing reported by one side can be placed by the other on any enabled output and valid edge |
| ControlSafety.StepKeeps | src/bridge.rs:725-1045 | every iteration of the coordinator keeps: the role says which session the receiver has; sharing or a live capture implies both sides unlocked and no pending layout; sending exactly while the live worker has announced a crossing, so leaving it stops that worker; and no iteration ends with a busy receiver, an index out of range, owed releases or a pointer placed during input |
| ControlSafety.EveryRunIsSafe | src/bridge.rs:635-1045 | so does every run of a connection, from its opening on |
| ControlSafety.AcceptKeeps | src/bridge.rs:1006-1014 | accepting a session never finds the receiver busy, placing the pointer is never refused, and no key, button or touchpad is down |
| ControlSafety.CloseReturnsControl | src/bridge.rs:1046-1056 | however a connection ends, no session, capture, physical key or pending change is left, whatever is down is owed, and if the cleanup reports no failure, as when no call to the sink fails, nothing is down |
| Control.AvailableExactly | src/bridge.rs:572-587 | an edge is available exactly if it has an output here and leads to an edge of the same name at the peer that has an output there |
| Control.EdgeNamedIsFirst | src/bridge.rs:1007-1007 | the edge found for a name is the first available one that bears it, or there is none |
| Control.PositionsAreCrossings | src/bridge.rs:886-913 | every position that is said, with the beginning of a session or its end, is the crossing just announced by the capture worker: the name of its edge and its own fraction |
| Control.PreambleExactly | src/bridge.rs:726-767 | a role is given up at the start of an iteration exactly if no edge leads over any more or the capture is outdated; the pointer of a sender is then placed on the output, at the edge and fraction where it left, exactly if that output is still there; a capture runs afterwards exactly if it was kept or may start, and a new one watches exactly the edges that lead over |
| Control.SendingStartsExactlyWhen | src/bridge.rs:884-905 | a free computer whose pointer crossed announces the next session at that crossing and sends in it, exactly unless its devices say that Escape, Ctrl, Alt and Shift are held; then the capture ends |
| Control.SendingEndsExactlyWhen | src/bridge.rs:773-1040 | a sender stops exactly for a release command, a lock, a layout change, the chord among the keys read, the end of the capture, or the end of its session by the peer; the pointer is then placed on the right output exactly where that cause says, where it left or where the peer says it came back, and nowhere else |
| Control.ReceivingStartsExactlyWhen | src/bridge.rs:1006-1014 | a free computer accepts a session exactly if both sides are unlocked, no layout change is pending, nobody is at work here and an edge of that name leads over; the pointer is then placed at that fraction of the first such edge, on its output; otherwise it answers that the session is over |
| Control.ReceivingEndsExactlyWhen | src/bridge.rs:773-1040 | a receiver stops exactly for a release command, a lock, physical input here, a layout change, a crossing or the end of the capture, or the end of its session by the peer, and its backend has no session then; after a crossing the pointer stays there |
| Announcements.LocksAndDesktopsAreKnown | src/bridge.rs:815-819 | over every run of two computers, what a side said last of its lock is what its session manager reported last, and of its desktop what its desktop is; what the other side knows is what it was told last, and once everything has arrived it knows both |
| Announcements.OpensTruthfully | src/bridge.rs:687-709 | in every run each side first says its desktop, its touchpads and whether it is locked |
| Speech.StepFaithful | src/bridge.rs:725-1045 | every iteration keeps the log of sent messages well-formed and the running session in agreement with the keyboards |
| Speech.SendsWhatIsHeld | src/bridge.rs:494-530 | throughout a session with physical keyboards the keys sent in it, replayed from nothing, are exactly those physically held on the local devices by what these reported, and alternate |
| Speech.PressAllFaithful | src/bridge.rs:896-899 | pressing what is held when a session starts never completes the emergency chord, so the ignored result is always negative |
| Speech.ChordNeverSent | src/bridge.rs:509-516 | no event of a session, at any position, presses Escape while its keys hold down Ctrl, Alt and Shift, by their key codes, and every event is valid |
| Speech.ForwardAllFaithful | src/bridge.rs:849-859 | forwarding the drained keys one by one keeps the session in agreement with what remains to be forwarded |
| Link.StepFollows | src/bridge.rs:1006-1041 | whatever an iteration does, what is injected stays the beginning of what was heard in each session, and all of it in the running one |
| Link.AlwaysConnected | src/bridge.rs:725-1045 | over every run of two computers on ordered channels, with any delays, both halves stay sound |
| Link.InjectsWhatWasSent | src/bridge.rs:881-919 | what the backend of one side has carried out since a session began are placements of the pointer, and after them exactly a prefix of what the other side sent in it; and no connection ends with a reported mismatch |
| Link.InputsArriveInOrder | src/receiver.rs:80-89 | whatever happened before, an input message taken for the running session carries exactly the expected number and a valid event, so "Input sequence mismatch" is never met, whether its cleanup would succeed or fail |
| Link.RemoteKeyboardFollows | src/bridge.rs:1015-1023 | what is down at the backend is what the events it has carried out for the session press, a prefix of what was sent; once everything has arrived, its keys are those physically held at the sender |
| Mirroring.RemoteKeysWereHeld | src/bridge.rs:494-530 | once what the sender had said of the session at some moment of it has arrived, the set of keys down at the receiver is a value that what was physically held on the devices of the sender had since: after a move, or during a tick of the sender in which it read its devices to the end |
| Mirroring.StepExtends | src/bridge.rs:849-919 | whatever an iteration does, what it says in a session is a beginning of what it has to say: the frames routed to the peer, the keys and frames read in a tick, or the captured event, in this order and unchanged, also when it ends half-way; and all of it if the session goes on |
| Mirroring.KeysExtend | src/bridge.rs:849-859 | the keys among it are a beginning of the keys read, and only in a tick that read all devices |
| Devices.BranchReads | src/bridge.rs:821-1019 | an iteration that goes on has taken in every change of the keyboards exactly in a tick while both sides are unlocked, when a session starts here or a welcome one is offered, and before each event that is received; it has closed them exactly when a computer was locked, and left them alone otherwise |
| Beginnings.StepIsOnly | src/bridge.rs:879-905 | a session that is new after an iteration, also one that ends half-way, holds nothing but presses of keys held then |
| Beginnings.RemoteKeysFromTheStart | src/bridge.rs:879-905 | whenever a computer receives, without any condition on what has arrived, its peer began the session in some move, and the keys down are a value that what was physically held had since, or, while no more than the initial presses has arrived, a subset of the keys held when the session began |
| Keyboard.EveryPrefixWasHeld | src/input.rs:12-51 | every beginning of the queued changes presses what was physically held at some moment while they were taken in, or while a lost device was being released |
| Turns.BranchTurns | src/bridge.rs:770-1045 | whatever a branch does, what it says about sessions fits the role it leaves: giving up says the end, taking an end says nothing, a beginning is accepted or refused by an end |
| Endings.EndGivesUpWhen | src/bridge.rs:1024-1040 | over every run: an end taken while sending in the session gives that session up exactly when the peer said it after taking the session's beginning; then the peer does not receive it any more, and otherwise it was ending a session of its own with that number |
| Endings.StaleEndIsSilent | src/bridge.rs:1024-1040 | a sender stops without a word either way; when the peer still receives the session, the end was said before its beginning was taken, and the next beginning ends the connection |
| Witness.RolesCanDisagree | src/bridge.rs:1006-1040 | a run without any failure reaches that: one side is local, the other receives its session, and nothing is on its way |
| LayoutSafety.StepExplained | src/bridge.rs:794-810 | every iteration does one of eight things to the configuration file, and only when its event calls for it |
| LayoutSafety.AlwaysNegotiated | src/bridge.rs:939-988 | over every run of two computers the files, the pending changes and the letters between them fit together |
| LayoutSafety.SuccessIsTrue | src/bridge.rs:977-983 | when success is reported both files hold the requested layout, with the revisions reported, also after both connections close |
| LayoutSafety.SuccessIsAskedFor | src/bridge.rs:781-815 | a reported success is the success of what was asked for: some move asked, under the reported identifier, for the edges that the two files now hold, and nothing else of the file has changed since |
| LayoutSafety.ParticipantComesSecond | src/bridge.rs:964-971 | the participant takes a change over only after the initiator has written its own file for it |
| LayoutSafety.UnfinishedIsRestored | src/manager.rs:251-260 | an initiator that did not finish has restored its own file when its connection is closed, unless the ignored rollback write failed |
| LayoutSafety.OnlyDivergence | src/bridge.rs:939-988 | unless a rollback write failed, both files end old, both new by one change, or only the participant's is new, and then no success was reported |
| LayoutSafety.NeverCommitted | src/bridge.rs:940-963 | a side that prepared a change of the other has not committed one that the other prepared after proposing: the two cannot each adopt a change of the other |
| LayoutSafety.RollbackExactly | src/manager.rs:251-260 | in every run, a change that is committed but unfinished when its connection closes is rolled back exactly when that last write does not fail before taking effect, and that failure is what is noted |
| LayoutSafety.GivenUpExactly | src/bridge.rs:835-839 | in every run, a move that meets a committed change finishes it, gives it up or leaves it alone; it is given up exactly at a tick past the deadline, by an abort or a failed result, or by a repeated answer; and then it is rolled back exactly when that write does not fail before taking effect |
| Witness.OnlyTheParticipantIsNew | src/bridge.rs:939-988 | a run in which only the link fails ends with only the participant's file new and no success reported |
| Manager.ReplacesOnlyItsOwn | src/manager.rs:219-260 | the program replaces exactly the text an edit was prepared from, or rolls back exactly the text that edit wrote |
| Manager.ForeignTextSurvives | src/manager.rs:219-260 | any other text survives every continuation of the edit |
| Manager.AllOrNothing | src/manager.rs:219-260 | without other writers an edit is all or nothing, whatever commits were tried |
| Manager.BackupExistsWhen | src/manager.rs:233-242 | over every interleaving there is a backup exactly when there was one before or a commit past its checks created it |
| Manager.BackupIsTheFirstFound | src/manager.rs:233-242 | over every interleaving the backup is the text found by the first commit that got past its checks and created it, or the part of it that was written; commits that could not create it leave that to a later one |
| Manager.BackupIsTheOriginal | src/manager.rs:233-242 | the backup holds the text that a successful commit replaces, then and ever after, exactly when there was no backup yet or it held that very text, which can be seen before the commit |
| Manager.BackupMayBeOlder | src/manager.rs:233-243 | a commit that fails after writing the backup makes it older than that |
| Manager.PreparedEdit.Commit | src/manager.rs:219-246 | the method does what its specification says, for every way its calls can fail |
| Manager.PreparedEdit.Drop | src/manager.rs:251-260 | the rollback on drop |
| Manager.Save | src/manager.rs:373-381 | preparing, committing and finishing either puts the whole new text in place or leaves the file as it was |
| Pairing.Validate | src/pairing.rs:43-66 | the loop over a growing set accepts exactly valid, distinct profiles of which one is selected |
| Pairing.EditIsCurrent | src/manager.rs:190-218 | after every committed edit of any file all profiles are valid, and the settings in use are those of the profile in use exactly when the first profile with the certificate path in use bears the name in use, which the file tells before the edit |
| Pairing.OwnPathsStayCurrent | src/manager.rs:190-218 | so it is always for files in which each profile has a path of its own, and edits that admit no shared one keep them so |
| Pairing.OthersAreUntouched | src/pairing.rs:176-190 | no edit of any file changes the profile of a peer whose path is in use neither before nor after it |
| Pairing.AwayAndBack | src/pairing.rs:257-348 | for any file: leaving the profile in use, any edits while its path is not in use, and selecting it again restores the settings left behind |
| Pairing.AddingKeepsEverything | src/pairing.rs:266-333 | for any file whose profile in use is up to date: adding keeps the selection, its settings and all profiles; adding a saved peer changes nothing |
| Pairing.AddedCanBeSelected | src/pairing.rs:266-348 | a peer that was added is saved under its name, its certificate is in the file that the profile names, a newcomer beside others starts with the default connection and the first edge in use, and selecting it succeeds and puts its settings in use |
| Pairing.SelectingSparesWhen | src/pairing.rs:182-189 | selecting a peer leaves another profile, brought up to date, as it is exactly when it is not the first with the selected one's certificate path or has the same settings anyway; for every valid file |
| Pairing.SharedPathSpills | src/pairing.rs:182-189 | a file that loads, with two profiles sharing a path: selecting the second succeeds and overwrites the first |
| Pairing.Document.SyncSelected | src/pairing.rs:176-190 | the document is brought up to date in place, or refused |
| Pairing.Document.Activate | src/pairing.rs:257-263 | the profile becomes the settings in use |
| Pairing.Document.Store | src/pairing.rs:206-255 | a certificate file is kept, verified or repaired |
| Pairing.Document.Migrate | src/pairing.rs:268-290 | the certificate in use becomes the first saved peer |
| Pairing.Document.Add | src/pairing.rs:266-333 | adding a peer in place |
| Pairing.Document.Select | src/pairing.rs:335-348 | selecting a peer in place |
| Capture.EveryStreamIsTruthful | src/capture_probe.rs:178-278 | for every sequence of compositor events a worker publishes exactly its start, the buffered input in order, readiness and the rest, until it is finished, and never more |
| Capture.StreamStartsFirst | src/capture_probe.rs:216-232 | at most one crossing is announced, and no input and no readiness before it |
| Capture.WholeStream | src/capture_probe.rs:501-556 | the end is announced at most once and last |
| Capture.PublishedReplaysPressed | src/capture_probe.rs:788-837 | until it is finished, what was published and buffered replays to the keys noted as pressed |
| Capture.DispatchTruthful | src/capture_probe.rs:659-881 | every compositor event keeps that, and published keys alternate per code |
| Compositor.NotesAreTrue | src/capture_probe.rs:659-881 | over every sequence of compositor events, the crossing, the strips, the keys and the scroll source that a worker goes by are those that the events themselves name |
| Compositor.CrossingIsTheCompositors | src/capture_probe.rs:240-278 | a crossing is announced only as the first entry of the pointer into a strip it had left or not been in, with its own strip and fraction |
| Compositor.InputIsTheCompositors | src/capture_probe.rs:659-881 | what is published is a beginning of the input that the events have brought since the crossing, unchanged and in order, and with what is buffered all of it while the worker goes on |
| Compositor.EscapeExactly | src/capture_probe.rs:825-834 | a worker ends as an escape exactly if Escape was pressed while the events hold down Ctrl, Alt and Shift, by their key codes, after the crossing and before any other end |
| Compositor.EscapeIsAnnounced | src/capture_probe.rs:501-556 | then it says nothing more, whatever still arrives, but that it ended by the chord, if there is room |
| Engagement.ReadyExactlyWhen | src/capture_probe.rs:216-232 | a worker that goes on has announced crossing and readiness exactly if the compositor has granted the crossing, the locked pointer, the keyboard and the inhibited shortcuts |
| Engagement.InterruptedExactlyWhen | src/capture_probe.rs:659-881 | a worker is over exactly if the compositor took one of them away or disturbed it, the owner cancelled, or its own queue, input or chord ended it |
| CaptureMachine.CaptureState.Publish | src/capture_probe.rs:184-200 | publishing to a full or closed queue finishes the worker |
| CaptureMachine.CaptureState.Input | src/capture_probe.rs:202-214 | input is validated, then published or buffered up to 128 events |
| CaptureMachine.CaptureState.ReportReady | src/capture_probe.rs:216-232 | readiness publishes start, buffer and readiness once |
| CaptureMachine.CaptureState.RequestCapture | src/capture_probe.rs:240-278 | a capture is requested once, unless cancelled |
| CaptureMachine.CaptureState.PointerEnter | src/capture_probe.rs:669-694 | entering an armed strip requests a capture |
| CaptureMachine.CaptureState.PointerLeave | src/capture_probe.rs:695-704 | a strip that the pointer leaves is armed from then on |
| CaptureMachine.CaptureState.PointerLocked | src/capture_probe.rs:842-859 | the lock is noted, and readiness reported if nothing else is missing |
| CaptureMachine.CaptureState.ShortcutsInhibited | src/capture_probe.rs:861-880 | the inhibitor is noted, and readiness reported if nothing else is missing |
| CaptureMachine.CaptureState.KeyboardEnter | src/capture_probe.rs:789-811 | keys held on focus are pressed once each |
| CaptureMachine.CaptureState.Key | src/capture_probe.rs:815-837 | a key change is noted, ends the capture on the chord, and is input only if it changed something |
| CaptureMachine.CaptureState.Arm | src/capture_probe.rs:492-500 | a strip under the pointer is armed only after the pointer leaves |
| Firewall.InstallOnlyAdds | scripts/device-access.py:334-366 | an installation, however it fails, adds at most its own rule where there was none, and changes no other |
| Firewall.InstallAccounted | scripts/device-access.py:334-366 | in any state and however it fails, every rule with a generated tag keeps its journal entry |
| Firewall.InstallReplies | scripts/device-access.py:334-366 | a reply of success is true: the plan is allowed by the rule the reply names; it is another rule exactly if somebody else already allows it and there is no entry, and then nothing is changed; a rule of somebody else that does anything but allow is refused and kept |
| Firewall.RemoveSpares | scripts/device-access.py:369-394 | in any state and however it fails, a removal deletes only unchanged rules of its own, and no tagged rule loses its entry |
| Firewall.InstallConverges | scripts/device-access.py:334-366 | a plan stays installable through every failure, and without failure ends with exactly one owned rule and a confirmed entry |
| Firewall.RetryingInstalls | scripts/device-access.py:334-366 | after any number of failed attempts one that does not fail ends there |
| Firewall.RemoveConverges | scripts/device-access.py:369-394 | the same for removal, down to no rule and no entry |
| Firewall.RetryingRemoves | scripts/device-access.py:369-394 | after any number of failed removals one that does not fail leaves nothing behind |
| FirewallMachine.Administrator.Install | scripts/device-access.py:334-366 | the command runs step by step as specified |
| FirewallMachine.Administrator.Remove | scripts/device-access.py:369-394 | the command runs step by step as specified |
| CoordinatorMachine.Coordinator.Coordinate | src/bridge.rs:687-1055 | a whole connection: announcements, iterations until something returns, cleanup; the state and the result are those of the specification, a failed cleanup is the result, and if there is no error nothing is left down, shared or pending |
| CoordinatorMachine.Coordinator.Iterate | src/bridge.rs:726-1044 | one iteration: retirement, routing the touchpads, arming, then the selected branch; the safety invariant is kept, or nothing that may be down forgotten |
| CoordinatorMachine.Coordinator.ForwardKey | src/bridge.rs:494-530 | the key is noted and sent, unless it completes the chord, which is reported |
| CoordinatorMachine.Coordinator.OnTimer | src/bridge.rs:832-876 | expiry, sampling, takeover, keys, touchpads, the end of the capture and the heartbeat, in this order |
| CoordinatorMachine.Coordinator.OnCaptureEvent | src/bridge.rs:877-934 | stale generations are ignored; a crossing starts or returns, input is sent, the end comes back |
| CoordinatorMachine.Coordinator.OnMessageReceived | src/bridge.rs:935-1041 | every kind of message |
| CoordinatorMachine.Coordinator.BeginMessage | src/bridge.rs:1006-1014 | a session is accepted when this side is free and idle, refused otherwise, and an overlap is an error |
| CoordinatorMachine.Coordinator.EndMessage | src/bridge.rs:1024-1040 | the named session ends and the pointer comes back |
| CoordinatorMachine.Coordinator.LayoutLetter | src/bridge.rs:939-988 | the letters of a layout change |
| CoordinatorMachine.Coordinator.FindActive | src/bridge.rs:572-587 | the edges that lead to an available edge of the peer |
| CoordinatorMachine.Coordinator.CleanUp | src/bridge.rs:1046-1055 | what happens however the loop ended, and the failure that becomes the result |

## Left out

- Touchpad events of the handoff are taken without fuzz, and nothing happens on the hardware between ungrab and the neutral frame (src/touchpad.rs:307-357).
- Strokes.StrokeContinuity: starts at a route switch for pads that were grabbed before it, because grabbing sends no snapshot (src/touchpad.rs:795-798); of coordinates of a slot it promises those told since then, because what readers remember from before is not cleared (Strokes.ReadersMayBeStale).
- Mirroring.StepExtends: the frames that the router gives an iteration are the environment's; Strokes.StrokeContinuity is about the router itself.
- A failed release of the physical device while grabbing is an ordinary failure of sampling; restoring other processes' readers (src/touchpad.rs:628-660) is not modelled.
- Two computers: messages arrive in order or not at all; encryption, encoding, decoding and their limits are not modelled, and a message that fails to decode is a closed link.
- Heartbeats: the numbers of pings and the latency shown from the answers.
- Clocks: the 150 ms re-arm, the 200 ms input age, the 2 s and 6 s deadlines are choices of the environment, so nothing is claimed about progress.
- Link.InjectsWhatWasSent: says nothing about both roles agreeing; Endings.EndGivesUpWhen and Witness.RolesCanDisagree show why.
- Link.RemoteKeyboardFollows: buttons are tied to a prefix of the session only, because they are captured and not read from devices; Mirroring.RemoteKeysWereHeld and Beginnings.RemoteKeysFromTheStart tie the keys to what was held.
- ControlSafety.StepKeeps: a capture worker announces at most one crossing, which Capture.StreamStartsFirst proves of the worker, and its events carry its own generation; counters of 64 bits wrap as in the source.
- Input sinks, compositors, kernels and portals are calls that may fail before or after taking effect, or events that may come at any time.
- Reading the devices of one slot (src/activity.rs:133-198) is a list of key changes and disconnects plus whether anything was active; opening and permission errors are one failure.
- LayoutSafety.OnlyDivergence: no process is killed and nobody else writes the files; transaction identifiers are new; a commit fails only before it takes effect; lock files and output checks are one condition of the environment.
- LayoutSafety.UnfinishedIsRestored: not when the rollback write fails, which the source ignores; LayoutSafety.RollbackExactly and LayoutSafety.GivenUpExactly give the exact condition.
- LayoutSafety.GivenUpExactly: the write that rolls back comes before the letter that announces it, and in the source right after it; neither depends on the other.
- Digests: different texts have different digests, so a text stands for its revision, in the layout and in the manager.
- Manager.ForeignTextSurvives: checking the revision and replacing the file is one step.
- Pairing: comments, order and unknown keys of the TOML text are not modelled, nor are absolute certificate paths.
- Pairing.AddedCanBeSelected: for certificate files that belong to the fingerprint they are stored under.
- Injection.PadsMayStayTouched: no touchpad counterpart of the owed releases exists in the source, so none is claimed.
- Routing.NextKeeps: leaving the paired computer makes its pads blank whatever their resets do there, entering it delivers all snapshots at once, and queued frames arrive in one step; what the paired computer makes of a failed reset is not modelled.
- Controllers in Injection and Coordination are values, so that two of them can be composed; the classes beside them are what is updated in place. Sinks and configuration files are values inside these classes.
- The configured layout file is one value of edges and everything else; the coordinator's own status reports to the user interface are left out.
- Capture: drawing, surfaces and the bounded capture experiment with its time limit; a worker's reason for finishing keeps apart only the escape chord.
- Firewall: rules are taken as already read; one rule per scope is what the firewall keeps; nobody changes rules in the middle of a command; reading plans and permissions are left out.
- Geometry is over real numbers, so rounding is left out, but the rounding allowance of the crossing test is kept.
- The user interface, installers, packaging, diagnosis, identities, transport and session detection are left out.
