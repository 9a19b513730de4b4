# Verified model of the Soothe client's turn, queue and concurrency core

The Soothe client talks to a daemon over a WebSocket. This project models the part of it that decides
when a query turn is over, what is streamed until then, and what is kept under backpressure and
concurrency, and proves its contracts for all inputs, all runs and all interleavings.

Where the program updates objects in place, the model has classes whose methods follow the source
branch by branch; each method is proved equal to one step of a small state machine over values. The
theorems are about that machine, over whole runs.

| module | what it holds |
|---|---|
| `Shared`, `Text`, `Wire`, `Ndjson`, `TurnId` | options and subsequences, Go string operations, decoded frames and the predicates on them, payload splitting, turn ids |
| `TurnProtocol`, `TurnGate` | the turn-end contract as a machine, its closed form and safety; the gate and boundary objects |
| `SessionProtocol`, `DaemonSessions`, `TurnAgreement` | the session's own implementation of the contract, its stream discipline, and the simulation between the two |
| `TurnRunners` | one query turn: arming, accumulated text, exactly one outcome |
| `InboundQueue`, `DeliveryAcks` | bounded queue with priority eviction, peeling at turn start; delivery acknowledgements under all orders |
| `PoolProtocol`, `ConnectionPools`, `QueryGates`, `Muxes` | pool, query gate and multiplexer under all interleavings |
| `Cards` | the card projection |

## Findings: where a promise does not hold as written

* `TurnBoundary` and `DaemonSession` implement one contract, but not identically: the boundary ignores
  case and surrounding white space of a typed status, the session compares exactly. A message may occur
  in otherwise canonical streams without the session ever ending a turn alone exactly when it is not an
  oddly spelled running status that names a turn (`NeverAloneExactly`). The two always end together
  exactly when no running or stopped status is oddly spelled, and no idle status that names a turn is
  (`NeverSeparatesExactly`; odd idle statuses are harmless too under a filter that drops all progress).
  Ending together also needs events of the bound turn (`ForeignProgressSeparatesThem`).
* A message can end a turn on its own progress exactly if it is a raw idle map that names a turn and is
  a progress chunk (`OwnProgressExactly`), and on its own running status exactly if it is a raw running
  map that is a turn-end event of the turn it announces (`OwnRunningExactly`). The decoder types every
  status frame (protocol.go:216-230), so only a caller that feeds raw maps can do this; messages as
  decoded never can (`DecodedSeparate`).
* Leftover running statuses and end markers cannot finish a new turn exactly when they are typed messages
  (`LeftoversExactly`, for every classifier). A frame of an unknown type that carries a turn-end event is
  one that the decoder leaves untyped (`DecodedMarker`).
* The comment "Never drop" on CRITICAL frames (inbound_priority.go:5) is not what client.go:526-531 does:
  more CRITICAL frames than the cap lose one (`CriticalOverflow`, `CompleteFrameLost`). A run keeps them
  all exactly when no push meets a full queue without a NORMAL frame, with a CRITICAL head, by a frame that
  is not NORMAL (`CriticalsKeptExactly`). For HIGH and CRITICAL frames together the condition is that those
  outstanding never exceed the cap (`LosslessExactly`). The counter documented as NORMAL drops
  (client.go:481) counts all drops.
* A query gate acquired with a sender but no cancel function holds a sender for a key that is not
  reserved. Senders exist only for reserved keys throughout a run exactly when every such Acquire is
  refused (`SendersReservedExactly`).
* An Acquire looks at the held connection twice (appkit/pool.go:173 and appkit/pool.go:178), and its reader can
  die in between. Then nothing is released, and a slot is pulled over the one the key holds: one slot is
  lost for good, even if the call fails. After any calls all slots are accounted for exactly when no call
  did this (`PoolExactly`, witness `DyingConnectionLosesSlot`), and this is also the one way in which a key
  that holds a slot can find the pool exhausted (`ExhaustedExactly`).

## Model

| member | source | states |
|---|---|---|
| TurnId.GenerationRoundTrip | turn_boundary.go:9-30 | parsing a formatted id gives back the generation for every non-blank loop id (colons included) and positive generation, and -1 for every other input |
| TurnId.FormatInjective | turn_boundary.go:9-15 | a non-empty formatted id determines the trimmed loop id and the generation |
| TurnId.OtherGenerations | turn_boundary.go:18-30 | what else can follow the last colon: a plus sign is allowed; a minus sign, text that is no number, or no colon at all give -1 |
| TurnId.MatchIsSameTurn | turn_boundary.go:74-80 | two ids match exactly when both name the same, existing turn |
| Ndjson.SplitSootheWirePayload | protocol.go:537-555 | the result is the trimmed non-blank lines; it is empty exactly for a blank payload; the raw-payload fallback is unreachable |
| Ndjson.LinesHomomorphism | protocol.go:542-550 | splitting `a`, newline, `b` gives the frames of `a` followed by those of `b` |
| Ndjson.TrimFirst | protocol.go:538 | trimming the whole payload first changes nothing |
| Ndjson.SplitUndoesJoin | protocol.go:542-554 | newline-free trimmed non-empty lines joined with newlines come back unchanged |
| Ndjson.SomeLine | protocol.go:539-541 | there is no frame exactly when the payload is blank |
| Wire.WrappedTurnEndIsStaleAndCritical | stream_terminal.go:77-108 | a custom turn-end event in any number of `next` envelopes has a stale label and priority CRITICAL |
| Wire.PriorityRange | inbound_priority.go:14-92 | every frame is CRITICAL, HIGH or NORMAL |
| Wire.TurnEndIsNotProgress | stream_terminal.go:34-74 | a turn-end payload never counts as progress |
| Wire.TurnEndByName | stream_terminal.go:34-52 | the custom payloads that end a turn, by wire type and scope |
| Wire.ProgressByName | stream_terminal.go:55-74 | the chunks that prove progress, by mode and wire type |
| Wire.PriorityByName | inbound_priority.go:48-91 | the priority 0, 1 or 2 of every frame that is no envelope, by wire types, states, modes and payload types |
| Wire.PriorityOfNext | inbound_priority.go:22-47 | an envelope is critical by its own mode or type, and otherwise has the priority of the frame inside |
| Wire.StaleByName | stream_terminal.go:77-108 | which frames are dropped at turn start, and under which label |
| Wire.StaleNext | stream_terminal.go:85-98 | an envelope is stale by its mode or by the frame inside |
| Wire.AckByName | stream_terminal.go:111-158 | the frames that are acknowledged: completions, ends, and ends wrapped as an event |
| Wire.LoopByName | stream_terminal.go:161-181 | the loop of a frame is the first non-blank of its own, its payload's and its inner loop id |
| Wire.IndexOf | inbound_priority.go:111-122 | the scan returns the first occurrence, and fails exactly when there is none |
| TurnProtocol.LastNewest | appkit/turn_lifecycle_gate.go:29-42 | the announced turn that no other exceeds in generation and no later one equals |
| TurnProtocol.BindingStep | appkit/turn_lifecycle_gate.go:32-41 | the closed form of the binding (last turn of the greatest valid generation, else the first) changes by one more running status exactly as the gate's rule says |
| TurnProtocol.ProgressStep | appkit/turn_lifecycle_gate.go:36-45 | progress seen since the last change of turn, over streams, obeys the gate's set and reset rule |
| TurnProtocol.GateMeaning | appkit/turn_lifecycle_gate.go:24-69 | after any stream the gate is: running seen, progress since the last rebinding, and the closed-form binding |
| TurnProtocol.BindingOnlyAdvances | appkit/turn_lifecycle_gate.go:33-40 | along a stream a binding is never lost and its generation never decreases |
| TurnProtocol.NextReason | appkit/turn_boundary.go:31-93 | while not ended, the verdict on the next message is the end condition read off the stream alone |
| TurnProtocol.EndedExactly | appkit/turn_boundary.go:31-93 | the turn is over exactly when some message met an end condition, and the reason is that of the first one |
| TurnProtocol.VerdictLatched | appkit/turn_boundary.go:35-37 | a reported verdict stands for every extension of the stream |
| TurnProtocol.StatusDecidesFirst | appkit/turn_boundary.go:63-90 | a message with several roles is judged by its status first |
| TurnProtocol.TurnEndSafety | appkit/turn_boundary.go:31-93 | an end needs a running status; stream-end and idle also the bound turn and live progress, never from the ending message itself when its roles are separate |
| TurnGate.GateRules | appkit/turn_lifecycle_gate.go:72-87 | the string tests of the gate are the contract's tests on the turns the ids name |
| TurnGate.OneRole | appkit/turn_boundary.go:40-90 | no message has two states, or both ends a turn and proves progress |
| TurnGate.DecodedSeparate | protocol.go:165-245 | a message as decoded that can end a turn is neither running status nor progress |
| TurnGate.DecodedTurnEndSafety | appkit/turn_boundary.go:31-93 | at a decoded message, stream-end or idle is reported only after an earlier running status, for the non-empty bound turn, with earlier progress not voided by a rebinding |
| TurnGate.NamedProgressLetsTurnEnd | appkit/turn_boundary.go:31-93 | for every turn, a running status, then any chunk of mode messages or updates or of a named progress type, then a turn-end event of the turn ends it by stream-end, and an idle status by idle |
| TurnGate.StoppedEndsTurn | appkit/turn_boundary.go:44-49 | a stopped status of the turn, or without one when none is bound, ends it without progress |
| TurnGate.SpellingIgnored | appkit/turn_boundary.go:42-50 | a typed status is recognised in any case and between any white space |
| TurnGate.NoNamedProgressNoEnd | appkit/turn_boundary.go:31-93 | with events of other modes and types only, no stream ends a turn by stream-end or idle |
| TurnGate.OwnProgressExactly | appkit/turn_lifecycle_gate.go:47-68 | the messages that can end a turn with no live progress but their own are exactly the raw idle maps that name a turn and are progress chunks |
| TurnGate.OwnRunningExactly | appkit/turn_boundary.go:63-90 | the messages that can end a turn with no running status but their own are exactly the raw running maps that are turn-end events of the turn they announce |
| TurnGate.RawStatusMaps | appkit/turn_lifecycle_gate.go:47-68 | both kinds exist for every turn id |
| TurnGate.TurnLifecycleGate.Observe | appkit/turn_lifecycle_gate.go:24-69 | observing a message is the contract's step on the gate |
| TurnGate.TurnLifecycleGate.NoteRunningTurn | appkit/turn_lifecycle_gate.go:32-41 | a running turn id is bound, or not, by generation, and a change of turn resets progress |
| TurnGate.TurnBoundary.Feed | appkit/turn_boundary.go:31-93 | feeding a message is one step of the contract; the returned verdict is the state's |
| TurnGate.TurnBoundary.Decide | appkit/turn_boundary.go:40-92 | the branches on status and event give the contract's verdict |
| SessionProtocol.SendStep | appkit/daemon_session.go:504-539 | the only steps that send a chunk, and under what conditions a turn-end chunk is sent |
| SessionProtocol.StepDisciplined | appkit/daemon_session.go:372-540 | every step keeps the stream discipline |
| SessionProtocol.StreamDiscipline | appkit/daemon_session.go:346-541 | in every run only the last chunk sent can be a turn-end chunk, and then only for the bound turn after running and an earlier progress chunk |
| SessionProtocol.SentBelongs | appkit/daemon_session.go:405-425 | a chunk sent while a loop is bound names no other loop, and while a turn is bound names exactly that turn |
| SessionProtocol.BindingsKept | appkit/daemon_session.go:442-461 | once bound, the loop id never changes, the turn is never lost and its generation never decreases; sent chunks stay |
| SessionProtocol.SessionBinding | appkit/daemon_session.go:405-461 | after any run the bound turn is the last accepted running turn of the greatest valid generation, or the first accepted when none is valid |
| SessionProtocol.ProgressIsLive | appkit/daemon_session.go:456-518 | while the turn goes on, progress is noted if and only if a progress chunk was sent and the session has not moved to another turn since |
| SessionProtocol.SessionEndIsLive | appkit/daemon_session.go:462-539 | an end by turn-end, or by idle without a cancellation, is for the turn of that closed form and has such a live progress chunk before it |
| SessionProtocol.SentExactly | appkit/daemon_session.go:405-525 | the chunks sent are exactly, in order, the events that a streaming session received for its loop and turn, undropped, sent without error, and no turn ends but those allowed by running, progress and the bound turn |
| SessionProtocol.SessionEndsExactly | appkit/daemon_session.go:372-540 | the session ends exactly at the first input that ends it, with that outcome |
| SessionProtocol.EndOfStep | appkit/daemon_session.go:372-540 | what each input ends a streaming session with |
| SessionProtocol.FlagsStep | appkit/daemon_session.go:442-502 | what each input does to the started and cancelled flags, the drop count and the bound loop |
| SessionProtocol.FlagsExactly | appkit/daemon_session.go:450-490 | the query has started exactly when a running status was taken in, and a cancellation is noted exactly when such a reply was |
| SessionProtocol.SimulationStep | appkit/daemon_session.go:405-540 | one frame keeps the simulation relation between session and boundary |
| SessionProtocol.SimulationRun | appkit/daemon_session.go:346-541 | the simulation relation holds after every single-loop stream without a cancellation reply |
| SessionProtocol.SessionEndImpliesBoundaryEnd | appkit/daemon_session.go:462-480 | when the session ended the turn by stopped, idle or turn-end, so did the boundary |
| SessionProtocol.LockStep | appkit/daemon_session.go:442-539 | an attributed, undropped frame that says the same to both, or an odd idle status before any progress, keeps the machines in the same state |
| SessionProtocol.SameEnd | appkit/daemon_session.go:346-541 | on streams whose events carry the bound turn and are not dropped, both end at the same frame for the same kind of reason |
| DaemonSessions.AllRunsDisciplined | appkit/daemon_session.go:346-541 | the stream discipline holds for every sequence of raw frames, failures and drops |
| DaemonSessions.TurnRules | turn_boundary.go:74-80 | the session's string tests on turn ids are tests on the turns they name |
| DaemonSessions.IdleRule | turn_boundary.go:91-106 | the idle test on strings is the contract's idle test |
| DaemonSessions.FrameByName | appkit/daemon_session.go:398-535 | what every frame says to the session, by its wire names: states, error texts, cancellation replies, progress, ends and end states |
| DaemonSessions.WrappedFrameSays | appkit/events.go:4-19 | a frame in an envelope says what it says alone |
| DaemonSessions.EmptyEnvelopeSaysNothing | appkit/events.go:4-19 | an envelope without a frame inside says nothing |
| DaemonSessions.DaemonSession.IterTurnChunks | appkit/daemon_session.go:346-541 | the loop over what is read is a run of the session machine, with its end state and error |
| DaemonSessions.DaemonSession.Iterate | appkit/daemon_session.go:372-403 | one iteration is one step, including closed and failed reads |
| DaemonSessions.DaemonSession.OnFrame | appkit/daemon_session.go:405-502 | the filters and the dispatch on the frame type |
| DaemonSessions.DaemonSession.SkipTurn | appkit/daemon_session.go:410-425 | exactly the frames of foreign turns are skipped |
| DaemonSessions.DaemonSession.OnStatusFrame | appkit/daemon_session.go:442-482 | binding of loop and turn, and the terminal statuses |
| DaemonSessions.DaemonSession.TerminalAllowed | appkit/daemon_session.go:462-480 | stopped and idle end the turn exactly under the contract's conditions |
| DaemonSessions.DaemonSession.NoteRunning | appkit/daemon_session.go:450-461 | the turn is bound by the same rule as in the gate |
| DaemonSessions.DaemonSession.OnEventFrame | appkit/daemon_session.go:496-539 | early drop, turn-end gating, progress, sending and ending |
| TurnAgreement.CanonicalAgrees | appkit/turn_boundary.go:40-62 | a typed message says the same to both machines exactly when its state is spelled canonically, and no more to the session exactly when a running status that names a turn is |
| TurnAgreement.RawMapReadsAlike | appkit/turn_boundary.go:63-90 | the frame of a message fed as a raw map says to the boundary what the message says |
| TurnAgreement.NamedProgressLetsSessionEnd | appkit/daemon_session.go:496-539 | for the session, a running status, a named progress chunk and a turn-end event send both chunks and end with the state that names the event |
| TurnAgreement.NamedProgressLetsSessionIdle | appkit/daemon_session.go:462-480 | and an idle or stopped status of the turn ends it |
| TurnAgreement.SessionEndsOnlyWithBoundary | appkit/daemon_session.go:405-540 | on typed single-loop streams whose announced turns are spelled exactly, under any drop filter, the session has ended only if the boundary has |
| TurnAgreement.NeverAloneExactly | appkit/daemon_session.go:411-461 | a message can be mixed into such streams without the session ever ending alone if and only if it is not an oddly spelled running status that names a turn, for every drop filter |
| TurnAgreement.OddRunningEndsAlone | appkit/daemon_session.go:411-469 | every odd running status that names a turn is in a three-message stream that only the session ends |
| TurnAgreement.BoundaryAndSessionEndTogether | appkit/daemon_session.go:405-540 | with harmless statuses, attributed events and no drops, both have ended or neither, for the same kind of reason |
| TurnAgreement.NeverSeparatesExactly | appkit/daemon_session.go:411-480 | a message can be mixed into such streams without separating the machines if and only if it is harmless: canonical, or an odd idle status under a filter that drops all progress |
| TurnAgreement.ForeignProgressSeparatesThem | appkit/daemon_session.go:417-425 | progress of any other turn lets idle end the turn for the boundary alone |
| TurnRunners.TurnKept | appkit/turn_runner.go:301-485 | for every arrival sequence and every classifier: streamed deltas concatenate to the accumulated text; a finished turn has one record and one closing broadcast, the last, and succeeded exactly if the record is a reply; a reply is non-blank and up to white space a suffix of the stream; daemon turn ends come only from the boundary |
| TurnRunners.StepKeeps | appkit/turn_runner.go:372-484 | every arrival keeps these, and the text before is a prefix of the text after |
| TurnRunners.AccumulateKeeps | appkit/turn_runner.go:447-459 | what is broadcast is what was added, for snapshots and increments; the text then ends with the content |
| TurnRunners.TextOnlyGrows | appkit/turn_runner.go:447-459 | every earlier text is a prefix of every later one, and a finished turn never changes |
| TurnRunners.TextIsAbsorbed | appkit/turn_runner.go:447-459 | the text is what the contents taken in add up to |
| TurnRunners.SnapshotsReplace | appkit/turn_runner.go:447-459 | if each content extends the one before, the text and the streamed deltas are the last content |
| TurnRunners.IncrementsAppend | appkit/turn_runner.go:447-459 | if no content extends what came before, they are all contents, one after the other |
| TurnRunners.RecordedExactly | appkit/turn_runner.go:372-485 | a finished turn holds the record of the first arrival that makes one, and an unfinished turn has met none |
| TurnRunners.RecordStep | appkit/turn_runner.go:372-482 | the record and the return value of every arrival: cancellation, timeouts, stream close, failures, early deliveries and daemon ends, with their texts and completion events |
| TurnRunners.BroadcastStep | appkit/turn_runner.go:443-482 | a message broadcasts its thinking step, what is new in the text, and the record that closes the turn |
| TurnRunners.DeliversByName | appkit/classifier.go:113-133 | the completion events of an early delivery, by name and configured phase |
| TurnRunners.LaunchExactly | appkit/turn_runner.go:314-340 | a turn that could not be launched records why |
| TurnRunners.FedExactly | appkit/turn_runner.go:411-426 | the boundary is fed every message but end markers before the turn is armed |
| TurnRunners.ArmedExactly | appkit/turn_runner.go:411-424 | the turn is armed exactly when a message that is neither typed running status nor typed end marker arrived |
| TurnRunners.LeftoversCannotFinish | appkit/turn_runner.go:411-424 | running statuses and end markers alone, in any number and order, leave the turn unarmed, unfinished and silent exactly when all of them are typed |
| TurnRunners.LeftoversExactly | appkit/turn_runner.go:411-482 | for every classifier, a marker can be mixed into leftovers of typed markers without finishing the turn if and only if it is typed |
| TurnRunners.UntypedLeftoversFinish | appkit/turn_runner.go:411-482 | a running status, any untyped map and a stopped status of its turn finish the turn, whatever the classifier |
| TurnRunners.DecodedMarker | protocol.go:237-244 | for every unknown wire type there is a marker that the decoder leaves untyped |
| TurnRunners.MarkersAreRecognised | appkit/turn_runner.go:536-556 | the typed markers are exactly those the two helpers recognise |
| TurnRunners.DaemonEndIsEarned | appkit/turn_runner.go:469-472 | a reply recorded as ended by stream-end or idle had a running status, live progress, and an ending message for the bound turn |
| TurnRunners.FedArrived | appkit/turn_runner.go:411-426 | the boundary is fed only messages that arrived |
| TurnRunners.TurnRunner.RunTurn | appkit/turn_runner.go:301-485 | running a turn is a run of the turn machine |
| TurnRunners.TurnRunner.Iterate | appkit/turn_runner.go:372-409 | one selection of the loop is one step, with timeouts, cancellation and stream close |
| TurnRunners.TurnRunner.Receive | appkit/turn_runner.go:411-433 | arming and feeding; the branch for an ended but unarmed turn is unreachable |
| TurnRunners.TurnRunner.Settle | appkit/turn_runner.go:433-482 | failure, accumulation and outcome of a classified message |
| TurnRunners.TurnRunner.Stream | appkit/turn_runner.go:443-459 | thinking steps and text deltas |
| TurnRunners.TurnRunner.Settled | appkit/turn_runner.go:461-482 | early completion by a deliverable phase, else the boundary decides |
| TurnRunners.TurnRunner.CompleteTurn | appkit/turn_runner.go:570-578 | one reply record and one complete broadcast |
| TurnRunners.TurnRunner.PersistFailed | appkit/turn_runner.go:621-680 | one error record and one error broadcast |
| TurnRunners.TurnRunner.EndInSilence | appkit/turn_runner.go:558-568 | soft completion exactly when the policy asks for it and there is text |
| InboundQueue.QueueConserves | client.go:495-541 | for every run of pushes and pops: length within the cap, arrivals = queued + read + dropped, and frames read then queued are in arrival order |
| InboundQueue.AdmitExactly | client.go:495-532 | with room the frame goes to the back; a full queue gives up its oldest frame of priority 2, or refuses one of priority 2, or gives up its head |
| InboundQueue.AdmitOrder | client.go:500-531 | admission, with or without eviction, keeps arrival order |
| InboundQueue.LosslessExactly | client.go:495-541 | non-NORMAL frames read then queued equal all that arrived throughout a run, exactly when those outstanding never exceed the cap |
| InboundQueue.LosslessStep | client.go:504-531 | an operation within the cap loses no important frame |
| InboundQueue.LosslessPush | client.go:504-531 | a push within the cap only ever evicts a NORMAL frame |
| InboundQueue.CriticalPush | client.go:500-531 | a push loses a CRITICAL frame, the oldest, exactly when the queue is full, holds no NORMAL frame and a CRITICAL head, and the pushed frame is not NORMAL; otherwise none |
| InboundQueue.CriticalsConserved | client.go:495-541 | in every run CRITICAL arrivals = read + queued + forced out |
| InboundQueue.CriticalsKeptExactly | client.go:495-541 | a run keeps all CRITICAL frames, in order, if and only if none of its pushes meets that guard |
| InboundQueue.CriticalOverflow | client.go:526-531 | more CRITICAL frames than the cap, nothing being read, always lose one |
| InboundQueue.CompleteFrameLost | client.go:526-531 | for every cap, `complete` frames are CRITICAL and one is lost |
| InboundQueue.FirstNormal | client.go:505-515 | the oldest NORMAL frame |
| InboundQueue.FreshHasNoStale | client.go:432-440 | filtering keeps exactly the frames without a stale label |
| InboundQueue.FirstFresh | client.go:444-457 | the live frame that ends the drain is the first of eight that is not stale |
| InboundQueue.Client.SetInboundMaxSize | client.go:473-479 | only a positive cap is taken over |
| InboundQueue.Client.Victim | client.go:505-513 | the scan finds the first frame of the greatest drop priority |
| InboundQueue.Client.EnqueuePending | client.go:495-532 | enqueueing is admission, and the degraded hook fires on the first drop only |
| InboundQueue.Client.PopPending | client.go:809-817 | the head is read, if there is one |
| InboundQueue.Client.DropStale | client.go:430-441 | the stale frames are removed and their labels returned in order |
| InboundQueue.Client.DrainLive | client.go:443-457 | at most eight live frames are read, up to the first fresh one, which is queued |
| InboundQueue.Client.PeelStalePendingControlEvents | client.go:429-459 | afterwards no pending frame is stale; with fresh frames pending their head is admitted anew behind the others, which keeps the multiset within the cap and names the one frame lost above it; with none, at most one fresh live frame is added |
| DeliveryAcks.AcksSound | client.go:543-587 | in every interleaving acked never exceeds received, the newest received number is acked or pending, claimed numbers of a loop strictly increase, and received plus remaining is the number of leaves |
| DeliveryAcks.QuiescentMeansAcknowledged | client.go:543-587 | with no task pending acked equals received; with no tracker at work received is the number of leaf frames that need an ack |
| DeliveryAcks.TrackedLeaves | client.go:547-563 | the loops tracked for an arbitrarily nested batch are, per loop, as many as its leaves that need an ack |
| DeliveryAcks.AckLoopsByName | client.go:547-572 | a frame that is no batch counts once, for its loop, exactly when it has one and is a completion or an end by name |
| DeliveryAcks.AckedWasClaimed | client.go:575-582 | the acknowledged number of a loop was claimed for it |
| DeliveryAcks.ReceiveSound | client.go:564-572 | receiving a frame keeps soundness and starts its task |
| DeliveryAcks.ClaimSound | client.go:575-582 | a task that runs, in any order, keeps soundness |
| DeliveryAcks.Client.TrackInboundDeliveryAck | client.go:543-573 | tracking a frame receives exactly its leaves, in order |
| DeliveryAcks.Client.Take | client.go:564-572 | the next number of the loop is taken and its task started |
| DeliveryAcks.Client.SendDeliveryAck | client.go:575-587 | the number is claimed unless a later one was |
| PoolProtocol.PoolSafe | appkit/pool.go:122-283 | in every interleaving, overlapping acquisitions and Stop included: idle, active and moving slots fit the size, each slot is in at most one place, new ids are new, and the pool-full branch of Release is never taken |
| PoolProtocol.SizeStep | appkit/pool.go:196-283 | every atomic section keeps the slots within the size |
| PoolProtocol.GoneForGood | appkit/pool.go:259-283 | a slot out of use never comes back |
| PoolProtocol.ReturnPlaced | appkit/pool.go:278-282 | sending a replacement to the channel keeps every slot in one place |
| PoolProtocol.StopPlaced | appkit/pool.go:294-321 | so does shutting down |
| ConnectionPools.ReleasedMeans | appkit/pool.go:259-283 | the three sections of a Release together replace the slot of the key by a new one |
| ConnectionPools.ReleasedSound | appkit/pool.go:259-283 | a Release keeps idle + registered = size and loses no slot |
| ConnectionPools.TakenSound | appkit/pool.go:196-201 | pulling a slot for a key keeps idle + registered = size, and loses a slot exactly when the key still holds one |
| ConnectionPools.AfterSound | appkit/pool.go:167-283 | every Acquire or Release, on every path, keeps the pool sound, and loses one slot exactly when it displaces one |
| ConnectionPools.AccountedExactly | appkit/pool.go:196-201 | in a sound pool idle + active = size exactly when the registry is the inverse of the active map |
| ConnectionPools.CallsSound | appkit/pool.go:167-283 | after any sequence of calls on a new pool as many slots are lost as calls displaced one |
| ConnectionPools.PoolExactly | appkit/pool.go:167-283 | after any sequence of calls idle + active = size, with the registry the inverse of the active map, if and only if no call found the held connection live, then dead, and pulled a slot |
| ConnectionPools.ExhaustedExactly | appkit/pool.go:250-254 | ErrPoolExhausted if and only if every slot is registered, the context is not done, and the key holds no slot or one whose connection dies between the two looks |
| ConnectionPools.ComesUpExactly | appkit/pool.go:203-234 | a pulled slot comes up exactly when the known loop is reattached or else the client connects and bootstraps; a failure tells which went wrong |
| ConnectionPools.AcquireHolds | appkit/pool.go:167-255 | what the keys hold after an Acquire: a new slot, the reused one, or none, and after a failure with a dying connection the old one exactly if no slot was pulled |
| ConnectionPools.DyingConnectionLosesSlot | appkit/pool.go:173-201 | for every size above one two calls leave idle + active = size - 1, and in a pool of one the key itself exhausts it |
| ConnectionPools.ConnectionPool.constructor | appkit/pool.go:97-126 | a new pool is the initial state of the protocol; a non-positive size becomes the default |
| ConnectionPools.ConnectionPool.Stats | appkit/pool.go:145-151 | active and idle add up to at most the size, and to the size exactly when every slot is accounted for |
| ConnectionPools.ConnectionPool.Acquire | appkit/pool.go:167-255 | every path is the specified call; idle + active is unchanged unless the call displaces a slot, and then one less; exactness is kept if and only if it does not |
| ConnectionPools.ConnectionPool.Reuse | appkit/pool.go:169-193 | a connection live at both looks and recently used is reused; one dead at the first, or unused for too long, is released; one that dies in between is left in place |
| ConnectionPools.ConnectionPool.BringUp | appkit/pool.go:196-248 | a slot that cannot be brought up is given back |
| ConnectionPools.ConnectionPool.Install | appkit/pool.go:197-201 | the slot at the head of the channel becomes the key's, also over one it holds |
| ConnectionPools.ConnectionPool.Release | appkit/pool.go:259-283 | a Release is the protocol's Release; the pool-full branch is unreachable |
| ConnectionPools.ConnectionPool.Stop | appkit/pool.go:294-321 | nothing stays active or idle, and exactly those slots are out of use; entries of displaced slots stay in the registry |
| QueryGates.SingleFlight | appkit/query_gate.go:38-49 | after a successful Acquire every Acquire of the key fails until a Cancel or Release of it, in every interleaving |
| QueryGates.StaysReserved | appkit/query_gate.go:38-115 | no other step gives the reservation up |
| QueryGates.FreedKey | appkit/query_gate.go:55-91 | a Cancel or Release does give it up |
| QueryGates.SendersReservedExactly | appkit/query_gate.go:38-104 | throughout a run senders exist only for reserved keys if and only if every Acquire with a sender and no cancel function finds its key reserved |
| QueryGates.StepSenders | appkit/query_gate.go:38-49 | a step leaves a sender for an unreserved key exactly if it is a sender-only Acquire of a free key |
| QueryGates.CancelDiscipline | appkit/query_gate.go:55-81 | each registered cancel is invoked by the gate at most once, after the daemon cancel detached with it |
| QueryGates.CancelledExactlyOnce | appkit/query_gate.go:55-81 | a cancel function that a Cancel found registered is called exactly once by the time its thread is done, after the daemon cancel found with it |
| QueryGates.DetachedIsPursued | appkit/query_gate.go:55-81 | from its critical section on, in every interleaving, a Cancel has called what it detached unless it has not come to it |
| QueryGates.OnceStep | appkit/query_gate.go:38-115 | every step keeps a cancel function registered, detached or called, never two of these |
| QueryGates.QueryGate.TryAcquire | appkit/query_gate.go:38-49 | busy exactly when the key is reserved |
| QueryGates.QueryGate.Cancel | appkit/query_gate.go:55-81 | exactly the registered daemon cancel, then the registered cancel function, are called, and both entries are gone |
| QueryGates.QueryGate.Free | appkit/query_gate.go:86-91 | both entries of the key are removed |
| QueryGates.QueryGate.UpdateSendCancel | appkit/query_gate.go:95-104 | the sender is replaced only for a reserved key |
| QueryGates.QueryGate.UpdateCancel | appkit/query_gate.go:108-115 | the cancel is replaced only for a reserved key |
| Muxes.Isolation | multiplexer.go:98-160 | in every interleaving of any number of routers a waiter gets frames in the order they were settled for it; a stream buffers at most 16; the first reply (and the first error) of an RPC is the first settled |
| Muxes.GotOwnFrames | multiplexer.go:98-160 | all a waiter ever gets was looked up while it was the current registration, with its own non-empty id |
| Muxes.GotOwnTypes | multiplexer.go:105-160 | a reply channel only ever gets responses, an error channel errors, a stream next and complete frames |
| Muxes.RoutedAlone | multiplexer.go:105-160 | a frame routed alone, for a registered waiter with room, is then the last in its channel for the frame's type, and nothing else changes |
| Muxes.RoutedConserved | multiplexer.go:110-160 | every frame routed to a waiter has been settled there or is under way, exactly as often |
| Muxes.OneRouterInOrder | multiplexer.go:110-160 | with a single router frames are settled in the order they were routed |
| Muxes.RouteMeans | multiplexer.go:98-160 | what routing a frame alone does |
| Muxes.AllGotExactly | multiplexer.go:116-160 | a waiter has got every frame settled for it if and only if, at each, it was not gone at the check and its channel was not full at the send |
| Muxes.SettledConserved | multiplexer.go:116-160 | in every run settled frames = got + lost |
| Muxes.BoxStep | multiplexer.go:116-160 | a settled frame that is not lost goes to the end of its channel, and the waiter takes from the front |
| Muxes.OwnIdOnly | multiplexer.go:105-150 | every frame routed to a waiter carries the non-empty id it registered |
| Muxes.AlwaysRegistered | multiplexer.go:55-92 | in every run a current registration is a waiter of that id |
| Muxes.StaleUnregisterHarmless | multiplexer.go:64-70 | an RPC waiter stays current until its own unregistration or a newer registration of its id |
| Muxes.StaleUnsubscribeHarmless | multiplexer.go:84-91 | the same for subscriptions |
| Muxes.UnregisteredForGood | multiplexer.go:64-91 | a waiter that has unregistered is never current again |
| Muxes.CarriersStep | multiplexer.go:110-160 | a frame is put under way by a lookup, and taken off by the gone check or the send of the same thread |
| Muxes.Multiplexer.RegisterCall | multiplexer.go:55-71 | a new waiter becomes current for its id |
| Muxes.Multiplexer.UnregisterCall | multiplexer.go:64-70 | only the waiter itself is removed |
| Muxes.Multiplexer.RegisterStream | multiplexer.go:75-92 | a new stream becomes current for its id |
| Muxes.Multiplexer.UnregisterStream | multiplexer.go:84-91 | only the stream itself is removed, and it is done; a second call is excluded, since it would panic |
| Muxes.Multiplexer.Offer | multiplexer.go:124-160 | a full channel, or the stream of a gone waiter, loses the frame |
| Muxes.Multiplexer.Route | multiplexer.go:98-181 | routing is lookup, check and delivery; a frame is consumed exactly when a waiter with its non-empty id is registered |
| Cards.AlwaysListed | card_projection.go:92-146 | after any frames `order` lists exactly the card keys, each once, and each key is the trimmed id of its card |
| Cards.TypeChangesOnlyByCreated | card_projection.go:106-143 | a card's type changes only by a created frame with its id |
| Cards.ReplayForgetsThePast | card_projection.go:98-102 | the state equals that of a fresh projection fed from any replay.begin on |
| Cards.MergedKeepsId | card_projection.go:132-142 | a patch changes neither id nor type |
| Cards.UpdateChanges | card_projection.go:123-143 | an update gives every field of the patch but id and type to the card, and leaves every other field and card |
| Cards.CreatedStores | card_projection.go:43-51 | a created frame with type and content stores its card under its id, last if new; without them it is ignored |
| Cards.OtherFrames | card_projection.go:97-131 | a replay begins empty and ends; updates of unknown cards and other frames change nothing |
| Cards.Merge | card_projection.go:132-141 | the copy loops, in any key order, give the patched card |
| Cards.CardProjection.ApplyFrame | card_projection.go:92-146 | applying a frame is the projection's step; handled exactly for card frames |
| Cards.CardProjection.Snapshot | card_projection.go:76-84 | the cards in insertion order, none missing in a listed projection |

## Left out

- Connecting, reading and writing the WebSocket, handshakes, JSON marshalling, logging, recovery from panics.
- RPC wrappers, jobs, autopilot, configuration, error types and verbosity: thin.
- Heartbeats, the SSE broadcaster, thinking-step formatting, image compaction, attachments and turn input.
- Clocks and timers: deadlines, timeouts and cancellations are arrivals that may occur at any point.
- The drain after a turn ended (appkit/daemon_session.go:543): the model ends where it starts.
- Nil receivers and, for the turn runner, an absent store or broadcaster; the error-data, completion and error hooks.
- The content classification of events: `Classify` is an arbitrary function, so the results hold for every classifier.
- The early-drop filter of a session is an arbitrary function too; namespaces are kept as decoded values.
- Text is a sequence of Unicode code points: text that is not valid UTF-8 is not modelled.
- InboundQueue.Client.PeelStalePendingControlEvents: no other thread pushes between its two sections; `live` stands for what the socket returns.
- Decoding: only its dispatch on the `type` field is modelled, to say which messages stay maps.
- InboundQueue.Client.EnqueuePending: the degraded hook is taken as registered before the first drop.
- InboundQueue.QueueConserves: for a fixed cap, since the source does not shrink the queue when the cap is lowered.
- ConnectionPools.PoolExactly: for calls that do not overlap, before Stop; overlapping calls of one key displace a slot too, which `PoolProtocol` covers with an inequality.
- QueryGates.CancelDiscipline: functions are numbered as they are passed in, so one function registered twice counts as two.
- Muxes.Isolation: channels hold the frames; the conversion of a response to its result, and of an error to an error value, is not modelled, nor are receipts, which nothing registers.
- SessionProtocol.SimulationRun: excludes cancellation replies, after which the session accepts an idle status that the boundary does not.
