# Hivescope, modelled and proved in Dafny

Hivescope drives a HiveMind hub and its satellites inside one process: no sockets, but the real
protocol objects, whose sends take a lock that is not re-entrant and whose Noise sessions only
work when frames are decoded in the order and in the mode they were encoded. This project models
the logic that makes this safe, and the test tooling around it, and proves what it promises for
every program of handlers, every interleaving and every history of calls.

`dafny verify dfyconfig.toml` checks everything.

## The parts

| file | what it is about |
|---|---|
| `Pump.dfy` | the delivery pump: breadth-first order, history, raises, leftovers |
| `Lists.dfy`, `Options.dfy` | lists, dict keys in insertion order, and values that may be absent |
| `Wire.dfy`, `Drain.dfy` | the wire as a step machine: connections, transports, queue, handler programs; every drain ends |
| `Steps.dfy` | the elementary steps of the wire, and the induction principle over programs, drains and histories |
| `Sessions.dfy`, `Holding.dfy`, `Upstream.dfy` | what each elementary step keeps: frames, nonces and agreement of the two ends; which sealed frames decode; the way up |
| `Runs.dfy` | what whole runs promise: modes, conservation, order, fan-out, connecting |
| `Calls.dfy` | what each call made on an idle harness does: whose handlers run, what leaves, what raises |
| `Direct.dfy` | fan-outs emitted on the bus outside any drain, and which programs let them through |
| `Harness.dfy` | the same code as a class whose methods call each other in place, with the send locks |
| `Borrow.dfy` | the transport that one decode borrows, on the shared heap objects |
| `Flood.dfy` | the exact cost of a broadcast storm |
| `Lifecycle.dfy` | the two close paths, which re-enter each other |
| `EmitChain.dfy`, `Query.dfy` | the stack of `bus.emit` wrappers, and concurrent queries on one bus |
| `Recorder.dfy` | lookups, the waiter protocol as a two-thread monitor, and `wait_for` itself run against any other threads |
| `Topology.dfy`, `Scenarios.dfy`, `Plot.dfy` | the builder, its parametric presets, and the graph drawn from it |
| `Assertions.dfy`, `FifoRuns.dfy` | the checkers as decision procedures, and the runs they accept |
| `Database.dfy` | the credential store as a replay of its calls |

The wire has two layers. `Wire` says with plain functions what each entry point, each queued action
and each handler does to the state; a handler is any finite program of sends of every kind, closes,
connects, bus emits and raises. `Harness.Hive` is the imperative code: `draining` is a field,
`_deliver` returns early when it is set, a send takes and releases its lock around its frames, and
each method is proved to do what `Wire` says, inside a drain and outside one. The theorems about runs
are about `WireDrain.History`, which `Hive.Play` reaches.

## What is assumed about code that is not here

- A connection's own send takes its lock, encodes with the current transport at its next nonce,
  passes each frame to `send_msg` in order, and releases the lock.
- KKpsk0: the master sends message 2 in clear and then installs its transport; the satellite
  installs its own when it handles message 2. Message 1 for a connection that already has a
  transport, or made for another connection, changes nothing; a message 2 that answers another
  attempt raises. Noise nonces follow section 5.1 of the Noise Protocol Framework (CipherState).
- A new connection is in the master's table before its greeting is sent.
- The master's `handle_client_disconnected` removes the peer and then calls the connection's
  disconnect callback.
- Whether the master's policy lets a message through to the bus is an input (`admitted`), and so is
  what each handler does.
- `handshake_event` is set exactly while the satellite holds a transport.

## Where the code does less than one might hope

- "No close in between" cannot be dropped: a handler that sends a frame and then closes the satellite
  makes that frame fail to decode (`WireRuns.CloseOvertakesFrame`). A sealed frame decodes if and only
  if its session's transport was installed and the satellite not closed since
  (`WireHolding.SealedFrameDecodesIffHeld`).
- A message on the way up is lost if and only if its satellite was closed after it was sent and not
  connected again before its turn (`WireUpstream.LostIffClosedBetween`); a handler can bring that about
  from every idle state (`WireUpstream.CloseOvertakesMessage`).
- A satellite that is connected again without having been closed keeps the old session's transport.
  The ends of the new session then disagree, and its frames do not decode; otherwise they agree and
  decode (`WireRuns.EndsAgreeWhenIdle`, `WireRuns.SessionFramesDecode`).
- `connect` on a satellite that still holds a transport returns normally and leaves the new
  connection without a session (`WireRuns.ConnectNegotiatesIffForgotten`).
- Calling `connect` inside a drain raises unless a transport is already there, since its first
  `_deliver` only enqueues; the next drain completes the session all the same
  (`WireCalls.ConnectInADrain`).
- The loops over the live client table are safe only inside a drain
  (`WireDirect.UnrootedSendCanShrinkTheTable`). Emitted on the bus outside any drain, such a loop goes
  through when the handlers it sets off are gentle to the table and do not raise
  (`WireDirect.GentleFanOutGoesThrough`), and each of the conditions is needed
  (`WireDirect.DirectFanOutGoesThroughIff`).
- `_on_disconnect` after a `disconnect` that found no connection still drops a master reference, so
  the second close is not always without effect (`Lifecycle.SecondCloseChangesNothing`).
- `wait_for` may sleep through a match after its first wait, because it clears its event after the
  failed lookup; exactly when is `Recorder.SleepsThroughIff`.
- A `speak` with a null utterance ends a query like a completion; which of the two ended it is
  `Query.CompletionEndsIff`.
- A protocol that is shut down under another's wrapper stays in the chain for ever
  (`EmitChain.OriginalIsRestoredIffNested`).
- A colon in a namespace can make two session ids the same; for which namespaces it does is
  `Assertions.NamespacesSeparateIff`.
- Builder names are not checked; a satellite called like its relay's own half makes a self-loop
  (`Plot.CollidingNamesLoop`). The guards of the plot fire exactly when contracted links loop or
  repeat (`Plot.AllDrawnIff`).
- `update_item` can install an id that a later `add_client` gives out again
  (`Database.AnUpdateCanCollide`); what to check before the call is `Database.UpdateIsSafeIff`.
- `assert_sessions_isolated` rejects an empty list of declared ids, and `assert_fifo_order` with
  `count` 0 looks at all records, since `[-0:]` is the whole list.

Where code and documentation differ, the model follows the code. The docstring of
`assert_session_id_natted` speaks of the connection's nonce, the code compares with
`session_namespace`. `assert_fifo_order` documents an order of timestamps, the
code compares `_fifo_seq` markers. `hierarchical_hubs` documents its relays as starting at R0, the
code starts at R1.

## Model

| member | source | states |
|---|---|---|
| Pump.DrainIsLevelOrder | hivescope/node.py:77-97 | a drain runs breadth-first order, and a drain that returns has run all of it and left nothing |
| Pump.DrainStopsAtTheFirstRaise | hivescope/node.py:92-97 | a drain raises exactly when some action of the forest raises, and stops at the first one in breadth-first order |
| Pump.LevelOrderRotates | hivescope/node.py:91-95 | moving the front of a level behind the rest, replaced by what it delivers, keeps breadth-first order: why popping from a FIFO is level order |
| Pump.DeferringPermutesTheImmediateRun | hivescope/node.py:77-97 | deferring loses and duplicates nothing: level order is a permutation of the run with immediate nested calls |
| Pump.DrainHistory | hivescope/node.py:86-97 | executed followed by queued actions are all enqueued actions in order, raises included; each executed action takes exactly one from the size measure |
| Pump.LeftoversRunFirst | hivescope/node.py:89-97 | what a raise left in the queue runs before anything delivered later |
| Pump.DeliveryPump.Deliver | hivescope/node.py:77-97 | inside a drain it only appends; outside it runs the drain, resets the flag on every path, and a normal return leaves the queue empty with breadth-first order executed |
| Pump.DeliveryPump.DrainQueue | hivescope/node.py:94-95 | the loop refines the drain function and keeps the history law at every step |
| Pump.DeliveryPump.Run | hivescope/node.py:77-97 | an action run inside a drain only enqueues what it delivers, in order |
| Pump.DeliveryPump.PumpedSend | hivescope/node.py:754-766 | the send itself runs now even behind leftovers; its frames wait; a raise keeps them queued; a normal outermost return leaves the queue empty |
| WireDrain.StepIsSound | hivescope/node.py:298-320 | every command of a handler keeps the state well formed and adds at most its own weight to the queue's load |
| WireDrain.PerformIsSound | hivescope/node.py:92-97 | every queued action keeps the state well formed and adds less load than it took away, so drains end |
| WireDrain.DrainKeepsShape | hivescope/node.py:92-97 | every drain, raised or not, ends in a well-formed state, and in an empty queue when nothing raised |
| WireSteps.StepGoes | hivescope/plugins/agent.py:170-235 | every command of a handler keeps whatever every elementary step keeps |
| WireSteps.PerformGoes | hivescope/node.py:77-97 | so does every queued action, raised or not |
| WireSteps.TopGoes | hivescope/node.py:298-320 | so does every call from outside, in a drain of its own or unrooted |
| WireSteps.OnwardGoes | hivescope/node.py:77-97 | so does any list of calls made from any point |
| WireSteps.HistoryGoes | hivescope/node.py:77-97 | so does every history, also when only programs that spare one satellite are considered |
| WireSessions.FramesMove | hivescope/node.py:614-631 | every elementary step keeps each satellite's frames: kept frames are recorded ones followed by queued ones |
| WireSessions.NoncesMove | hivescope/node.py:735-766 | every elementary step keeps each session's nonces gapless, unique and in order |
| WireSessions.OwnFrameDecodes | hivescope/node.py:586-631 | the frame at the head of the queue of an open session decodes unless its satellite holds another session's transport, and its message 2 then completes the handshake |
| WireSessions.EndsAnswered | hivescope/node.py:735-752 | sending message 2 in clear before installing the transport keeps the views of the two ends of every open session in step |
| WireSessions.EndsDecoded | hivescope/node.py:586-631 | decoding any frame, message 2 of this or another session with other frames queued behind it included, keeps them in step |
| WireSessions.EndsOfNew | hivescope/plugins/network.py:28-79 | a new connection starts in step, whatever the satellite holds and whatever is queued |
| WireSessions.AgreementsMove | hivescope/node.py:562-631 | every elementary step keeps the agreement of every open session |
| WireSessions.SessionsHold | hivescope/node.py:77-97 | every history of calls satisfies all session invariants |
| WireHolding.EntryIsHonest | hivescope/node.py:612-626 | the next sealed frame decodes if and only if its session's transport is held |
| WireHolding.SealedFrameDecodesIffHeld | hivescope/node.py:481-485 | in every run a sealed frame decodes if and only if its session's transport was installed and the satellite not closed since |
| WireUpstream.MessagesAreConserved | hivescope/node.py:522-538 | what a satellite sent is, in order and with increasing marks, what was taken followed by what is queued; the injections are the admitted ones taken on a connection |
| WireUpstream.LostIffClosedBetween | hivescope/node.py:481-538 | in every run a message is taken without a connection if and only if its satellite was closed after it was sent and not connected again before its turn |
| WireUpstream.CloseOvertakesMessage | hivescope/node.py:522-538 | the losing case is reachable from every idle state with the satellite connected: a message overtaken by a close raises at its turn and is not injected |
| WireUpstream.OnlyACloseLoses | hivescope/node.py:533-538 | from any point of any run, closes before it included: while neither queued programs nor later calls close the satellite, none of its messages is taken without a connection, whatever raises |
| WireUpstream.EverySentMessageArrives | hivescope/node.py:776-780 | from any such point until the pump is idle, the satellite's new injections are exactly the admitted ones of the messages that were waiting and of those sent since, in order, each once |
| WireRuns.SessionFramesDecode | hivescope/node.py:562-631 | in every run, a frame of the open session is decoded in the mode and at the nonce it was encoded with if and only if the satellite does not hold another session's transport |
| WireRuns.EndsAgreeWhenIdle | hivescope/node.py:735-766 | each nonce left exactly once and in order; and on an idle pump the satellite's phase and receive nonce are the master's phase and send nonce of its open session if and only if it does not hold another session's transport |
| WireRuns.FramesAreConserved | hivescope/node.py:614-631 | frames out are dropped plus queued plus recorded in, decode errors included, and the inbound records follow send order |
| WireRuns.ConnectionFramesAreConserved | hivescope/node.py:614-631 | the same for each connection alone |
| WireRuns.SelectionIncreases | hivescope/node.py:776-778 | what a test selects of the injections by connection and type keeps the order of sending |
| WireRuns.InjectionsFollowSendOrder | hivescope/node.py:522-538 | sent is taken then queued, injected is what was admitted of that taken on a connection, and the injected marks increase, however a test selects them |
| WireRuns.ConnectNegotiatesIffForgotten | hivescope/node.py:399-445 | an idle `connect` returns normally and leaves an open negotiated session if and only if the satellite held no transport |
| WireRuns.CloseThenConnect | hivescope/node.py:455-479 | after a close by either path, from any idle state, `connect` gives a fresh session |
| WireRuns.CloseOvertakesFrame | hivescope/node.py:481-485 | the failing case of SealedFrameDecodesIffHeld is reachable from every open session: a frame overtaken by a close fails to decode |
| WireRuns.FanOutReachesEach | hivescope/node.py:311-316 | a fan-out in a drain leaves the table alone, runs nothing, and queues the frames of the message, once each and in order, for each listed connection that is up and for no other |
| WireRuns.DownstreamReachesItsAddressees | hivescope/plugins/agent.py:170-235 | PROPAGATE and BROADCAST reach every peer, a targeted request its peer, ESCALATE nobody, a destination list its peers once each |
| WireRuns.SendToAllReachesEveryPeer | hivescope/node.py:311-316 | a queued broadcast reaches exactly the peers connected when it runs |
| WireRuns.SendToOneReachesThatPeer | hivescope/node.py:298-309 | a queued `send_to_satellite` queues its message, each frame once and in order, for the one peer it names if that is up, and nothing for anybody else |
| WireCalls.SendToOneOnIdle | hivescope/node.py:298-309 | on an idle harness an unknown peer makes it raise with nothing done; otherwise its frames, for that peer only and in order, are what the drain starts with, and they have left when the call ends, however it ends |
| WireCalls.SendToAllOnIdle | hivescope/node.py:311-316 | on an idle harness the drain starts with the message for every connected peer, once each and in order |
| WireCalls.DirectOnIdle | hivescope/node.py:754-766 | the same for a connection's own send |
| WireCalls.TargetedRequestUnrooted | hivescope/plugins/agent.py:193-207 | outside a drain a targeted request is the named connection's own send, and ESCALATE or a missing peer does nothing |
| WireCalls.UnknownPeerGetsTheError | hivescope/plugins/agent.py:200-207 | a targeted request for an unlisted peer sends nothing of its message, whatever that is, and does what the handlers of the error emit do |
| WireCalls.UnknownPeerGetsTheErrorUnrooted | hivescope/plugins/agent.py:200-207 | the same outside a drain |
| WireCalls.QuietHandler | hivescope/node.py:754-766 | handler commands outside a drain, none raising, are the same calls made one after the other |
| WireCalls.RaisingHandler | hivescope/node.py:754-766 | otherwise they are the calls up to the first that raises, and end as it does |
| WireCalls.SatelliteSendOnIdle | hivescope/node.py:522-538 | without a connection it raises with nothing recorded; otherwise the message is recorded and taken, injected if admitted, then the master's handlers of it run, then what they set off |
| WireCalls.HandlersRaiseReachesTheSender | hivescope/node.py:522-538 | a raise of those handlers makes the satellite's `send` raise, with the message taken |
| WireCalls.RepliesLeave | hivescope/node.py:754-766 | what those handlers send on a connection has left on it, in order, when the call ends, whatever it sets off |
| WireCalls.DecodeErrorRunsNothing | hivescope/node.py:617-626 | a frame that does not decode is recorded, and its handlers do not run |
| WireCalls.MessageTwoInstallsIffAsked | hivescope/node.py:735-752 | message 2 raises exactly when it answers another attempt, and only otherwise installs its session's transport, at nonce 0 |
| WireCalls.MessageOneNeedsItsConnection | hivescope/node.py:531-538 | starting a handshake without a connection raises, and so does handling message 1 after a close; message 1 for another connection changes nothing |
| WireCalls.ConnectReturnsOnlyEstablished | hivescope/node.py:439-445 | whatever was queued before, `connect` returns normally only with the transport there |
| WireCalls.ConnectStartsTheHandshake | hivescope/node.py:434-445 | a connect whose greeting left the connection in clear starts the handshake itself, and that completes |
| WireCalls.ConnectInADrain | hivescope/node.py:429-445 | called inside a drain without a transport it raises, and the next drain completes the session all the same; with one it returns normally and no session comes of it |
| WireDirect.UnrootedSendCanShrinkTheTable | hivescope/plugins/agent.py:189-190 | outside a drain, one send of the loop can already remove another client from the table |
| WireDirect.GentleFanOutGoesThrough | hivescope/plugins/agent.py:188-235 | outside a drain, both loops have sent to all and return with the table as it was when the reactions of the peers they are for, nested programs included, neither connect nor raise, close no connected satellite, address only listed peers and send only from connected satellites |
| WireDirect.UngentleStopsTheLoop | hivescope/plugins/agent.py:188-190 | each of these conditions is needed: behind gentle commands of the first peer's handler, one that fails a condition makes the loop raise, whatever follows it and whatever the other peers do |
| WireDirect.DirectFanOutGoesThroughIff | hivescope/plugins/agent.py:188-190 | the exact condition for one command: in every run, from an idle pump with the first peer's session readable and every other command gentle, the loop goes through if and only if this one is gentle |
| Harness.Hive.Deliver | hivescope/node.py:77-97 | refines the drain function; inside a drain it only appends and touches no lock |
| Harness.Hive.DrainQueue | hivescope/node.py:94-95 | every action starts with all locks free, and the loop refines the drain function |
| Harness.Hive.Perform | hivescope/node.py:92-97 | the body of every kind of queued action does what the step machine says and leaves all locks free |
| Harness.Hive.PumpedSend | hivescope/node.py:754-766 | in a drain the frames only queue, outside it the drain follows the send; its lock is free before any decode |
| Harness.Hive.OrigSend | hivescope/node.py:754-757 | takes a free lock, encodes every frame in order with the state of now, releases the lock |
| Harness.Hive.SendFrame | hivescope/node.py:711-726 | one frame: sealed at the next nonce, recorded out, and queued or dropped |
| Harness.Hive.ReceiveRaw | hivescope/node.py:542-584 | records, binds the connection once, and only enqueues, with the lock still held |
| Harness.Hive.DecodeBorrowed | hivescope/node.py:612-626 | the satellite's transport is on the connection for one decode and off it again on both paths; the record holds what was borrowed |
| Harness.Hive.DecodeAndDispatch | hivescope/node.py:586-631 | decode errors are recorded and end it; otherwise the handler runs with all locks free and the connection as it was |
| Harness.Hive.ReceiveHandshake | hivescope/node.py:735-752 | message 2 leaves in clear before the transport is installed |
| Harness.Hive.ConnectSatellite | hivescope/plugins/network.py:28-79 | the connection is stored before the greeting is sent |
| Harness.Hive.SendToSatellite | hivescope/node.py:298-309 | raises for an unknown peer, otherwise roots the drain outside the send |
| Harness.Hive.SendToAll | hivescope/node.py:311-316 | roots one drain around the whole loop |
| Harness.Hive.EmitOnBus | hivescope/node.py:318-320 | bus handlers run inside a drain |
| Harness.Hive.SatelliteSend | hivescope/node.py:522-538 | the guard comes before the satellite's own record, the record before the delivery; the queued action reads the connection when it runs |
| Harness.Hive.HandleMessage | hivescope/node.py:698-702 | the master records the message and injects it exactly when it is admitted |
| Harness.Hive.Connect | hivescope/node.py:399-445 | wires up, starts the handshake when none was completed, and raises when there still is none |
| Harness.Hive.Close | hivescope/node.py:455-514 | either close path, re-entries included, ends in the same state: connection, transport and attempt gone, peer out of the table, queue and locks untouched |
| Harness.Hive.DisconnectNow | hivescope/node.py:455-479 | `disconnect` through the master's callback reaches that state |
| Harness.Hive.OnDisconnect | hivescope/node.py:633-651 | `_on_disconnect` re-enters the master and itself at most once, and reaches that state |
| Harness.Hive.SendToSnapshot | hivescope/node.py:313-315 | the broadcast loop over a copy of the table is the fan-out to the peers connected when it runs |
| Harness.Hive.SendToEachClient | hivescope/plugins/agent.py:188-190 | in a drain the loop over the live table finds it unchanged at every iteration; outside it raises as soon as a send changed the table |
| Harness.Hive.HandleSend | hivescope/plugins/agent.py:170-207 | the dispatch rules of a downstream request, with the error emit for an unknown peer, inside a drain and outside one |
| Harness.Hive.HandleInternal | hivescope/plugins/agent.py:209-235 | the destination loop sends once per named connected peer, inside a drain with the live table unchanged, outside one until a send changes it |
| Harness.Hive.Exec | hivescope/node.py:77-97 | any finite handler program runs with every lock free before and after each command, inside a drain and outside one |
| Harness.Hive.Play | hivescope/node.py:60-97 | any list of calls reaches exactly the history the run theorems speak of; no queued action starts while any send lock is held, and no lock is taken while held |
| Borrow.DecodeBorrowed | hivescope/node.py:612-626 | on the shared objects: the frame is read and the satellite's transport moves on exactly as the wire's step machine says, and the master's is back with both counters untouched |
| Borrow.SendAndReceive | hivescope/node.py:588-626 | an encode followed by a borrowed decode returns the text and keeps the two nonces equal |
| Flood.StepCostsOne | hivescope/node.py:311-316 | each pump step of a storm takes exactly one from the measure and turns an owed frame into a delivered one |
| Flood.FirstCost | tests/e2e/test_ping_flood_scale.py:52-63 | the first broadcast owes exactly (n+1)(b+1) steps and n(b+1) frames |
| Flood.RunFlood | tests/e2e/test_ping_flood_scale.py:52-63 | with n >= 1 peers and budget b the storm ends after exactly (n+1)(b+1) steps and n(b+1) deliveries with the whole budget spent |
| Flood.StormOnThePump | hivescope/node.py:77-97 | on the pump itself: the storm's forest of actions runs exactly (n+1)(b+1) actions, returns normally, and delivers its n(b+1) frames in the order of their numbers |
| Flood.DrainIsTheStorm | hivescope/node.py:92-97 | from every point of a storm the pump's drain takes exactly the steps the counter machine has left |
| Lifecycle.CloseForgetsTheSession | hivescope/node.py:455-514 | from any state either path leaves no session, keeps identity and pin, and reports at most once, to its own master only |
| Lifecycle.SecondCloseChangesNothing | hivescope/node.py:481-485 | exactly when a second close changes nothing, and that the master reference is all it can change |
| Lifecycle.EachConnectionIsReportedOnce | hivescope/node.py:633-651 | over any sequence of connects and closes a connection is reported closed at most once |
| Lifecycle.PinHolds | hivescope/node.py:473-478 | once negotiated, the pin of the first session and the identity hold for ever |
| Lifecycle.PinIsTheFirstKey | hivescope/node.py:473-478 | the pin after any life is the key of its first negotiated connect to an existing master, and none when there was none |
| Lifecycle.ConnectOpensANewConnection | hivescope/node.py:399-445 | a connect opens a connection with a new id, files it under its peer name, and has the session's state exactly when it was negotiated; other clients and all reports stay |
| Lifecycle.SatelliteNode.HandleClientDisconnected | hivescope/node.py:638-641 | remove the peer, then the callback: ends in the same state as one close |
| Lifecycle.SatelliteNode.OnDisconnectCallback | hivescope/node.py:633-651 | terminates despite the mutual re-entry and reaches the specified end state |
| Lifecycle.SatelliteNode.DisconnectNow | hivescope/node.py:455-479 | the same for `disconnect` |
| Lifecycle.SatelliteNode.ForgetSession | hivescope/node.py:481-514 | drops connection and session, nothing else |
| EmitChain.RunKeeps | hivescope/plugins/agent.py:37-60 | for any order of creations, shutdowns and emissions, the chain is exactly the live and the stuck wrappers |
| EmitChain.EveryEmissionReachesTheBusOnce | hivescope/plugins/agent.py:45-57 | every emission reaches the original emit once, in order, as it was or parsed, and every protocol's list is exactly the messages emitted while it was up or shut down under another |
| EmitChain.EmitRecordsItsMessage | hivescope/plugins/agent.py:45-57 | one emission: a message, or a text that parses to one, is appended by every protocol in the chain and by no other, a text that does not parse by none; the bus gets it once, parsed if it went through a wrapper |
| EmitChain.ProtocolsRecordWhatTheySee | hivescope/plugins/agent.py:45-57 | a protocol counts as up from its creation to its shutdown, and its list is what was emitted then, or after it was shut down under another |
| EmitChain.CreateWraps | hivescope/plugins/agent.py:37-60 | a new wrapper is the outermost, with nothing recorded |
| EmitChain.ShutdownUnwrapsOnlyTheOutermost | hivescope/plugins/agent.py:289-294 | a shutdown takes off the outermost wrapper, and leaves the chain as it is for any other |
| EmitChain.WhoIsInTheChain | hivescope/plugins/agent.py:289-294 | a wrapper is in the chain while its protocol is up, or for ever when it was shut down under another |
| EmitChain.OriginalIsRestoredIffNested | hivescope/plugins/agent.py:289-294 | with all protocols shut down, the original emit is back if and only if each was outermost at its shutdown |
| EmitChain.ShutdownIsIdempotent | hivescope/plugins/agent.py:269-294 | shutting down twice is shutting down once |
| EmitChain.AgentBus.Create | hivescope/plugins/agent.py:37-60 | wraps whatever emit is installed now |
| EmitChain.AgentBus.Shutdown | hivescope/plugins/agent.py:269-294 | unwraps only while its own wrapper is installed |
| EmitChain.AgentBus.Emit | hivescope/plugins/agent.py:45-57 | the nested wrapper calls do what the chain says |
| EmitChain.AgentBus.EmitFrom | hivescope/plugins/agent.py:45-57 | one wrapper records a parsed message and passes on the parsed form, as EmitRecordsItsMessage says for the whole chain |
| Query.QueryYieldsItsAnswer | hivescope/plugins/agent.py:146-168 | a finished query yielded its own chunks in order and one None: everything up to its first completion unless it timed out, and then a prefix |
| Query.QueriesAreIndependent | hivescope/plugins/agent.py:117-141 | in any interleaving a query is where it would be alone on the bus |
| Query.CompletionEndsIff | hivescope/plugins/agent.py:122-165 | a finished, untimed query was ended by the first completion or null utterance since its start, and by a completion if and only if no null utterance came before the first completion |
| Query.NullUtteranceEndsAQuery | hivescope/plugins/agent.py:128-165 | a null utterance ends it too |
| Query.ChunksAreTheUtterances | hivescope/plugins/agent.py:122-165 | at every point of every run the chunks yielded are the texts of the first utterances addressed to the query since its start, in order |
| Query.TakingFinishes | hivescope/plugins/agent.py:149-165 | a consumer gets one queued item a step, in order, and is finished with the first sentinel and not before |
| Query.TimeOutEndsOnlyAnEmptyQuery | hivescope/plugins/agent.py:152-162 | giving up on an empty queue yields the sentinel and ends the query; with something queued it does not |
| Query.AgentBus.Begin | hivescope/plugins/agent.py:140-148 | subscribes both handlers and then emits the utterance |
| Query.AgentBus.AnnounceSpeak | hivescope/plugins/agent.py:122-129 | of all subscribed handlers only the addressed query's puts, and exactly once |
| Query.AgentBus.AnnounceHandled | hivescope/plugins/agent.py:131-138 | the same for a completion |
| Query.AgentBus.Take | hivescope/plugins/agent.py:149-165 | yields the oldest item and unsubscribes after the sentinel |
| Query.AgentBus.GiveUp | hivescope/plugins/agent.py:152-162 | a timeout yields the sentinel and unsubscribes |
| Query.AgentBus.Unsubscribe | hivescope/plugins/agent.py:166-168 | removes both its own handlers and no other |
| Recorder.LastFoundIsLatest | hivescope/recorder.py:119-129 | the last of the matches is the latest match, and there is none exactly when nothing matches |
| Recorder.RunKeeps | hivescope/recorder.py:46-89 | every interleaving keeps the waiter's invariant: its event is listed once, beside the others' in their order |
| Recorder.WaitForIsHonest | hivescope/recorder.py:54-89 | a returned record is the latest match at the last lookup, None means there was none, and every exit deregisters exactly its own event |
| Recorder.EventIsSetIffRecorded | hivescope/recorder.py:46-84 | inside wait_for the event is set if and only if a record of the awaited type came since registration or the last reset, so no match after a reset is slept through |
| Recorder.SleepsThroughIff | hivescope/recorder.py:78-84 | a wait sleeps through a match if and only if it is not the first and all that came of its type since the failed lookup came before the reset after it |
| Recorder.LaterWaitCanOversleep | hivescope/recorder.py:79-84 | that gap is real: a match in it leaves the next wait asleep, and is found when the clock ends it |
| Recorder.LeavesExactlyWhen | hivescope/recorder.py:65-89 | the loop is left exactly with the latest match of a lookup that has one, or with None when the time is over before a wait or a wait ended without its event |
| Recorder.ClearForgetsTheRecords | hivescope/recorder.py:113-115 | after a clear only records made later are there, and only those can be returned by a waiter that had not found its record before |
| Recorder.MessageRecorder.RecordMessage | hivescope/recorder.py:46-52 | the record step of the monitor: appends and sets every event waiting for that type |
| Recorder.MessageRecorder.FindLatest | hivescope/recorder.py:119-129 | the latest match, or None exactly when there is no match |
| Recorder.MessageRecorder.WaitFor | hivescope/recorder.py:54-89 | run against any actions of other threads at any of its points, it is a run of the monitor; its value is the latest match at its last lookup, or None when that had none, and on return only its own event is gone from the lists |
| Recorder.MessageRecorder.Deregister | hivescope/recorder.py:85-89 | removes the first occurrence of its own event, and leaves other lists alone |
| Topology.BuilderMakesForests | hivescope/topology.py:105-210 | with fresh names every builder run is a forest in which a relay's own connection precedes its children's |
| Topology.StartKeepsChains | hivescope/topology.py:214-232 | at every step of a start, aborted or not, every connected satellite has its chain to a root connected |
| Topology.StartOnlyConnects | hivescope/topology.py:225-232 | a start connects only satellites that were not connected and whose connect it called, disconnects none, and a complete one leaves all connected |
| Topology.StartCallsInOrder | hivescope/topology.py:225-232 | with one link per satellite: the connects called are those of the unconnected satellites, in link order, all of them unless the start is aborted; it is aborted exactly by a connect that raises or by an unknown master, and there |
| Topology.SecondStartConnectsNothing | hivescope/topology.py:225-230 | a second start after a complete one calls no connect |
| Topology.AddingKeepsChains | hivescope/topology.py:225-226 | nodes added to a running hive leave its chains whole |
| Topology.RunningHivesAreRooted | hivescope/topology.py:214-232 | the same for any mixture of adding and starting |
| Topology.TopologyBuilder.AddMaster | hivescope/topology.py:105-130 | files the master under its name, in dict order |
| Topology.TopologyBuilder.AddSatellite | hivescope/topology.py:147-163 | files the satellite and its connection, or raises and changes nothing |
| Topology.TopologyBuilder.AddRelay | hivescope/topology.py:165-210 | files both halves and the upstream connection, or raises and changes nothing |
| Topology.TopologyBuilder.StartAll | hivescope/topology.py:214-232 | the loop in place, chains whole at every iteration, with exactly the calls that StartCallsInOrder speaks of, for any outcome of each connect |
| Topology.TopologyBuilder.StopAll | hivescope/topology.py:234-244 | exactly the builder's satellites are disconnected, but for those whose disconnect raised with the connection still open |
| Scenarios.NamesDiffer | hivescope/scenarios.py:229-235 | the generated names never collide, halves included |
| Scenarios.ChainGrows | hivescope/scenarios.py:225-231 | the relay chain is well built and its i-th relay is i hops from M0 |
| Scenarios.HubLeavesAreKHopsDeep | hivescope/scenarios.py:214-237 | every leaf of hierarchical_hubs(k, s) is exactly k hops from M0, for all k >= 1 and all s; k = 0 is k = 1 |
| Scenarios.HierarchicalHubs | hivescope/scenarios.py:214-237 | the two loops build that hive |
| Scenarios.StarTopology | hivescope/scenarios.py:137-152 | a star is the one-level hub |
| Plot.ContractionMergesDevices | hivescope/topology_plot.py:200-209 | contraction identifies the two halves of a relay and nothing else |
| Plot.BasesHaveBothHalves | hivescope/topology_plot.py:193-196 | for any builder the contracted relays are exactly the registered ones of which both halves are there |
| Plot.BelowInTheGraph | hivescope/topology_plot.py:229-236 | two contracted edges meet exactly when one connection hangs below the other's relay |
| Plot.EdgesAreATree | hivescope/topology_plot.py:229-236 | no self-loop, no duplicate, in-degree at most one |
| Plot.NoCycles | hivescope/topology_plot.py:229-236 | no walk of the graph closes |
| Plot.CollidingNamesLoop | hivescope/topology_plot.py:232-236 | without fresh names the self-loop guard can fire |
| Plot.AllDrawnIff | hivescope/topology_plot.py:230-236 | the guards let every contracted link through if and only if there is no loop and no repetition |
| Plot.GuardsStayIdle | hivescope/topology_plot.py:230-236 | in a well-built hive there is none |
| Plot.VertexCount | hivescope/topology_plot.py:219-227 | masters + satellites - relays vertices |
| Plot.RolesFitTheGraph | hivescope/topology_plot.py:211-216 | drawn as a master exactly when nothing is upstream; a satellite has nothing below it |
| Plot.ContractionPreservesReachability | hivescope/topology_plot.py:200-236 | between different devices, reachability in the hive and in the graph agree, both ways |
| Plot.PlotTopology | hivescope/topology_plot.py:193-236 | for any builder the contracted nodes, the loop-free distinct edges, one firing guard per link not drawn, and none exactly when the contracted links are simple; so for a well-built one |
| Assertions.NeighboursDecide | hivescope/assertions.py:1619-1624 | comparing neighbours decides pairwise order |
| Assertions.AssertFifoOrder | hivescope/assertions.py:1587-1637 | polls until there are count records or the time is up, and judges the last snapshot: too few; a record of the last count without a mark; in order if and only if those are all marked and pairwise strictly increasing; reordered if and only if they are all marked and some pair is not |
| Assertions.VerdictMeans | hivescope/assertions.py:1598-1637 | the same of the verdict that the theorems about runs speak of |
| FifoRuns.RunsPassTheFifoCheck | hivescope/assertions.py:1598-1637 | from any point of any run, closes before it included, until the pump is idle after calls that do not close the satellite: the checker finds, behind what it found then, exactly the admitted messages waiting or sent since, and accepts a count if and only if it finds that many |
| FifoRuns.NoRunIsReordered | hivescope/assertions.py:1598-1637 | in every run at all, closes included, under a name no other satellite bears, the only other verdict is that there are too few |
| Assertions.NamespaceRoundTrip | hivescope/assertions.py:1335-1338 | splitting at the first colon undoes the namespacing |
| Assertions.SplitIsNamespaced | hivescope/assertions.py:1408 | and namespacing undoes the splitting |
| Assertions.NamespaceIsInjective | hivescope/assertions.py:1335-1338 | with colon-free namespaces, namespaced ids are equal only for equal namespaces and ids |
| Assertions.NamespacesSeparateIff | hivescope/assertions.py:1335-1338 | a set of namespaces, colons allowed, gives different ids to different pairs if and only if none of them followed by a colon begins another one followed by a colon |
| Assertions.AssertSessionIdNatted | hivescope/assertions.py:1311-1343 | accepts exactly the declared id under the connection's namespace, or raw for an admin, on the last injection; with a colon-free namespace, exactly when splitting that id at its first colon gives the two back |
| Assertions.AssertSessionsIsolated | hivescope/assertions.py:1376-1414 | accepts if and only if all declared ids were found, are distinct and share one prefix |
| Assertions.FoundIffInjected | hivescope/assertions.py:1383-1391 | under one namespace the suffix search finds an id exactly when that id was injected |
| Assertions.FirstMatchIsFirst | hivescope/assertions.py:1383-1391 | without any namespace assumed: the id found is the first that ends in a colon and the declared id, and none is found exactly when none does |
| Assertions.OnePrefixMeans | hivescope/assertions.py:1400-1414 | the prefixes pass exactly when there is an id and no two ids differ before the first colon |
| Assertions.IsolatedIffAllInjected | hivescope/assertions.py:1383-1414 | for distinct colon-free ids under one namespace: accepts if and only if every one was injected |
| Assertions.DeniedRecords | hivescope/assertions.py:121-171 | the denials that echo the asked type in record order, untyped ones only when not strict and none is typed; a strict typed query returns a record if and only if it is a denial echoing that type |
| Assertions.FirstEcho | hivescope/assertions.py:161-163 | the type a denial echoes is the first of its three places that is there and not empty, otherwise what the last one has |
| Database.IdsAreNeverReissued | hivescope/database.py:17-22 | a live id is the number of the creation of its row: creations are numbered without gaps, so ids are distinct and never reissued |
| Database.SafeForeverIff | hivescope/database.py:93-128 | however adds and deletes go on, live ids stay distinct if and only if they are distinct now and none is above the counter |
| Database.UpdateIsSafeIff | hivescope/database.py:117-120 | an update is harmless for ever if and only if no other row holds the id it installs and that id was given out |
| Database.CheckedHistoriesAreSafe | hivescope/database.py:61-128 | every history whose updates pass that check keeps live ids distinct for ever |
| Database.AnUpdateCanCollide | hivescope/database.py:117-120 | an update that fails the check makes a later new row collide |
| Database.RowsReplayTheirCalls | hivescope/database.py:61-115 | a key is live exactly when added or updated since its last delete, and each field is that of the latest call that sets it |
| Database.Client.Amend | hivescope/database.py:68-91 | the field-by-field update of a live row |
| Database.ClientDatabase.AddClient | hivescope/database.py:61-115 | updates a known row in place, creates an unknown one with the next id, leaves all others |
| Database.ClientDatabase.UpdateItem | hivescope/database.py:117-120 | files the given object under its own key |
| Database.ClientDatabase.DeleteClient | hivescope/database.py:122-128 | removes the row and its place in the order, and says whether there was one |
| Database.ClientDatabase.GetClientById | hivescope/database.py:136-152 | the first row with the id in insertion order, None exactly when there is none; with distinct ids it inverts the lookup by key |

## Left out

- Cryptography, key generation, argon2id and RSA: a transport is its session and its nonces.
- XXpsk2: the wire has the two-message KKpsk0 handshake only, the one whose ends diverge.
- The upstream direction of a session: `SatelliteNode.send` hands the message object over in process, nothing is encoded.
- `bind_upstream` and the forwarding a relay does between its halves: the listener library is not part of this model.
- Failing encodes on the wire: a send that raises is modelled in `Pump` only.
- Thread-locality of the pump: one thread; only the recorder has two.
- Wall-clock time, timestamps, polling and `settle` windows: clocks are inputs or free choices.
- `hivescope/plugins/loopback.py`, `hivescope/plugins/ovoscope_agent.py`, `hivescope/plugins/binary.py`, `hivescope/pytest_fixtures.py`, `hivescope/xdg_isolation.py`, `hivescope/utils.py`: sockets, environments and thin wrappers.
- Drawing, layout and `plot_hive_mapper`; only the construction of the graph is here.
- The counting assertions of `hivescope/assertions.py`: one filter and one comparison each.
- The lock of the credential store and mutation of rows that callers hold: a caller changes a row through the calls only.
- `raise_on_timeout`: only the default mode of a query is modelled.
- `master.cleanup`, network and agent shutdown inside `stop_all`.
- Scenarios.NamesDiffer: the other presets have fixed names and are not modelled.
- Harness.Hive.ConnectSatellite: a connection is its own peer here; the master's client table is a dict by peer name, so there a second connect under the same name replaces the entry, while here it adds a second one.
- WireDirect.DirectFanOutGoesThroughIff: a connect is looked at alone in its handler, because a close nested behind it can take its table entry out again.
- Harness.Hive.SendToEachClient: a send that changes the table and leaves it as long as it was counts as a change; an iterator over a dict may then also go on and skip entries.
- Harness.Hive.DecodeBorrowed: the master's transport is a counter here, so what is lent is the satellite's; that the one object is swapped for the other and back is proved on the objects themselves, in Borrow.
- Assertions.AssertFifoOrder: the clock is the number of polls there is time for, and the satellite has a peer name.
