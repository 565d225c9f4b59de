# Verified model of the music library's transport, signalling and storage

This project models the parts of the application that hold state, run concurrently or do arithmetic that
matters, and proves what they are for:

* the **stop-and-wait transport** in its Rust and TypeScript forms, over a network that loses, repeats and
  reorders frames, carried by a node that reconnects;
* the **signalling server** with its two-person rooms, its limits and its idle checker, as one machine
  stepped by all connections;
* the **WebRTC negotiation** between the browser, which offers, and the backend, which answers;
* the **SQLite repository**: compiled filters, cursor pages, batched writes, sources of a page, and the ledger of
  listening time with the guard in front of it.

`dafny verify dfyconfig.toml` checks everything.

## How the model is built

Objects whose methods update fields are classes. Each method is proved equal to a function on the value of those
fields, and the state machines (`Next`, `Step`, `Apply`) are built from the same functions, so what is proved of
all runs is proved of the methods. Beside what must never happen stands what can always be reached: a pending send
can end, an offer be answered, two peers meet, a queue empty; these results say what is left then in the source's own
terms. Asynchronous code is cut at its awaits, a critical section is one step, and
clocks are integers given as parameters. `Leads(s, steps, t)` says that the run `steps` leads from `s` to `t`;
`steps` may be any interleaving. Inputs the code does not choose (whether a send, a connect or a statement
succeeds, when a timer fires, what a peer sends) are parameters or steps.

| file | models |
| - | - |
| `TransportHandler.dfy`, `StopAndWait.dfy`, `DeliveryConditions.dfy`, `BackendProtocol.dfy`, `BackendProgress.dfy` | the Rust transport object; the protocol of one sender, one receiver and the network; exactly when Ok means delivered; that the object runs this protocol; that its retries bring every send to an end |
| `BrowserTransport.dfy`, `BrowserProtocol.dfy` | the TypeScript transport object; that it runs the same protocol, as sender and as receiver |
| `WsNode.dfy` | the reconnecting carrier |
| `RateLimiter.dfy`, `RoutingTable.dfy`, `SignallingServer.dfy`, `Forwarding.dfy`, `MessageProcessor.dfy`, `Meeting.dfy`, `IdleChecker.dfy` | the signalling server |
| `Signals.dfy`, `BrowserConnector.dfy`, `Answerer.dfy`, `Negotiation.dfy` | offers and answers |
| `Database.dfy`, `BatchWrites.dfy`, `ListeningLedger.dfy`, `RepositoryRuns.dfy`, `Repository.dfy` | tables, statements and the writing methods |
| `TableKeys.dfy`, `AddedTracks.dfy`, `CallEffects.dfy` | unique keys over all runs; what is accepted and what is read back; what each call changes |
| `Sorting.dfy`, `Paging.dfy`, `LibraryPages.dfy`, `TrackFilter.dfy`, `TrackSources.dfy` | the queries and the paging widget |
| `ListenGuard.dfy` | the guard that admits listening credits |

## What the code does not promise

Some promises of comments and of design do not hold of the code as it is. Each is shown by a run, and beside it
stands the condition under which the promise is kept.

* An ack is matched by its number alone, so the ack for another node's frame can complete a send that was never
  delivered (`DeliveryConditions.ForeignAckEndsSend`). For a pending send in any reachable state: every way the
  network can go on, with no new frames of other nodes, that completes it has delivered it exactly once, if and only
  if it is delivered already, or nothing of another node carries its number and the receiver's filter is the
  sender's or can only become so (`OkIsDeliveredIff`). With other nodes free to send, only having been delivered
  already is a guarantee (`OkIsDeliveredAmongOthersIff`). If nobody else ever sends, Ok means delivered exactly
  once if and only if the filter was unset at the start (`StopAndWait.OkMeansDeliveredOnce`).
* The sequence number is a wrapping u32. A completed send of an undisturbed run of any length was delivered if and
  only if its number fits 32 bits (`DeliveryConditions.CompletedIsDeliveredIffNumberFits`), and every later one can
  complete (`WrappedSendIsLost`). The other results for runs take fewer than 2^32 sends.
* A "has all of these tags" filter with a repeated tag selects nothing, because it compares the number of distinct
  tags with the length of the list (`TrackFilter.RepeatedTagMatchesNothing`). It means "all tags" if and only if
  the list has no repetition (`CountMeansAll`).
* The rate limit is a fixed window, so a second can pass twice as many messages as configured, for every rate
  (`RateLimiter.SecondBoundIsReached`), and never more (`SecondBound`).
* The comment on `should_record` speaks of the same track. The guard is one for the whole process, and the bound
  proved is for all tracks together.
* `should_record` reads the clock before it takes the lock. A call moves the guard's instant back if and only if its
  reading is earlier than that instant and its credit is zero seconds (`ListenGuard.SetBackIff`). From any state,
  all later growth is paid for by the time since the instant held, if and only if the call is not such a one
  (`PaidIffNotSetBack`). As long as no call sets back after the first credit admitted, the bound on windows holds
  (`GuardBoundsGrowth`), and every set-back, however small, is part of a run that exceeds it
  (`SetBackExceedsBound`). Readings in order never set back (`InOrderIsForward`).
* A negative credit after the first makes `should_record` panic with the lock held, and the guard admits nothing
  from then on (`ListenGuard.PoisonedRecordsNothing`).

## Links

These methods are each proved equal to the function named after them, which is what the results below speak about.

* `TransportHandler`: `SnFilter.Next` (`Accepts`, `Advance`), `Handler.OnFrame` (`Receive`), `SendNextAck`
  (`FlushAck`), `SendAndWaitAckRepeated` (`LoopRun`), `SendPayload` (`Send`), after
  `src-tauri/rtc/ws_node_handler.rs:50-72`, `146-171`, `175-198`, `223-244` and `250-255`.
* `BrowserTransport`: `SnFilter.Accept` (the same filter), `Handler.SettleSend` (`Settle`), `AbortController`
  (`AbortSend`), `StopAll`, `HandleIncoming`, `Resend` and `SendPayload` (`Next`), after
  `src/transport/rtc-ts/transport_handler.ts:13-34` and `51-139`.
* `WsNode.Node`: `SenderTurn` (`Next`) and `RunLoop` (`Run`), after `src-tauri/rtc/ws_node.rs:150-279`.
* `RateLimiter.MsgRateLimiter`: `RateLimitByTime` (`PassesTime`, `AfterTime`), `LimitMessages` (`PassesTotal`,
  `AfterTotal`), `TryBrandRttTag` (`Brandable`, `Branded`), after `src-tauri/signalling/ws_server.rs:398-437`.
* `RoutingTable.ServerState`: `Register` (`RecordConnection`), `RecordRtrAndGetForwardingQueue` (`Lookup`,
  `AfterLookup`), `Unregister` (`RemoveRecordsFor`), after `src-tauri/signalling/ws_server.rs:450-508`.
* `MessageProcessor.MsgProcessor`: `Receive` (`ReceiveOn`), `LookUp` (`LookUpStep`), `Enqueue` (`EnqueueStep`, by
  `EnqueueParts`), after `src-tauri/signalling/ws_server.rs:110-145`.
* `BrowserConnector.RtcConnector`: `StartTimer` (`StartDebounce`), `StartDebounceIfFaster` (`Faster`), `AddEvent`
  (`AddDebounceEvent`), `SendSignallingMessage` (`SendSignal`), `DeliveryResolved` (`Delivered`),
  `OnDebounceTimeout` and `StartAttempt` (`Enter`), `AfterCreateOffer` (`OfferCreated`), `AfterSetLocalDescription` (`LocalSet`),
  `AfterRollback` (`RolledBack`), `StartPeerConnection` (`Next`), `HandleSignalMsg` (`HandleSignal`), after
  `src/transport/rtc-ts/connectors/rtc_connector.ts:31-48`, `93-271` and `306-335`.
* `Answerer.RtcConnector`: `MessageHandler` and `RunOnce` (`Next`), `AnswerWith` (`HandleOffer`), after
  `src-tauri/rtc/rtc_connector.rs:140-210`, `411-436` and `461-573`.
* `LibraryPages.LibraryWidget`: `LoadPage` (`Load`, `CursorOf`), `PaginateTo`, `HandlePageNext` and `HandlePagePrev`
  (`Paginate`), after `src/db/LibraryWidget.tsx:55-84`.
* `TrackFilter`: `CompileText` (`TextExprs`), `CompileTags` (`TagConditions`), `Merge` (`Merged`), `Compile`
  (`Compiled`), after `src-tauri/src/db/sqlite.rs:547-613`.

## Model

| member | source | states |
|---|---|---|
| TransportHandler.PassedIsOrdered | src-tauri/rtc/ws_node_handler.rs:40-73 | whatever arrives, what passes the filter is one sender's, with strictly growing numbers |
| TransportHandler.SendRepeatsOneFrame | src-tauri/rtc/ws_node_handler.rs:234-255 | over any events one send puts only copies of one frame on the wire |
| TransportHandler.OneCopyPerAttempt | src-tauri/rtc/ws_node_handler.rs:234-244 | as long as no ack ends it and nobody drops it, a send has put exactly one copy on the wire for each attempt whose frame the carrier took |
| TransportHandler.EveryTimeoutResends | src-tauri/rtc/ws_node_handler.rs:234-244 | every round of the timer and the carrier puts one more copy of the frame on the wire: n rounds, n copies, for every n |
| TransportHandler.AcksGoOut | src-tauri/rtc/ws_node_handler.rs:175-198 | the ack task gives every queued ack to the carrier, in order |
| TransportHandler.QueuesStayBounded | src-tauri/rtc/ws_node_handler.rs:139-171 | the ack queue and the queue of incoming acks never hold more than 16, whatever comes in |
| TransportHandler.QueuedAcksCameIn | src-tauri/rtc/ws_node_handler.rs:167-169 | an ack waiting to be read was queued before the send or came in during it |
| TransportHandler.DoneMeansAckRead | src-tauri/rtc/ws_node_handler.rs:223-244 | send returns Ok if and only if an ack with its number was read while it waited, whatever node id the ack has |
| StopAndWait.StepKeepsInv | src-tauri/rtc/ws_node_handler.rs:146-171 | every step of sender, receiver or network keeps the invariant linking sends, frames, filter, acks and deliveries |
| StopAndWait.RunKeepsInv | src-tauri/rtc/ws_node_handler.rs:128-255 | so does every run |
| StopAndWait.OwnAckMeansDelivered | src-tauri/rtc/ws_node_handler.rs:223-255 | a send ended by an ack of one of its own frames, whatever id the receiver wrote into it, was handed over exactly once, if and only if the filter is pinned to the sender |
| StopAndWait.OkMeansDeliveredOnce | src-tauri/rtc/ws_node_handler.rs:246-255 | with no other node sending, Ok means delivered exactly once, if and only if the filter was unset at the start |
| StopAndWait.DeliveredIsWhatCompleted | src-tauri/rtc/ws_node_handler.rs:146-171 | with no send cancelled or failed, the deliveries are exactly the completed sends, in order, plus at most the one in flight |
| StopAndWait.DeliveredInOrder | src-tauri/rtc/ws_node_handler.rs:50-72 | in every run, cancellations and foreign frames included, the deliveries are one sender's, duplicate-free and in order; of ours, a subsequence of what was sent |
| StopAndWait.AbandonedAckIsIgnored | src-tauri/rtc/ws_node_handler.rs:223-232 | an ack of the sender's own frame for a cancelled send changes nothing: it never completes a later one |
| StopAndWait.SendCanComplete | src-tauri/rtc/ws_node_handler.rs:234-244 | from every state with a send pending, three steps complete it, and what they leave |
| DeliveryConditions.OkIsDeliveredIff | src-tauri/rtc/ws_node_handler.rs:223-232 | for a pending send in any reachable state: all continuations without new frames of others that complete it delivered it exactly once, if and only if it is delivered already, or nothing foreign carries its number and the filter is or can only become the sender's |
| DeliveryConditions.OkIsDeliveredAmongOthersIff | src-tauri/rtc/ws_node_handler.rs:223-232 | with other nodes free to send, all completing continuations delivered it if and only if it is delivered already |
| DeliveryConditions.CompletedIsDeliveredIffNumberFits | src-tauri/rtc/ws_node_handler.rs:250-254 | undisturbed runs of any length: a completed send was delivered exactly once if and only if its number fits 32 bits, and the deliveries are the first sends in order |
| DeliveryConditions.WrappedSendIsLost | src-tauri/rtc/ws_node_handler.rs:250-254 | every send whose number does not fit can return Ok undelivered |
| DeliveryConditions.ForeignAckEndsSend | src-tauri/rtc/ws_node_handler.rs:227-228 | a run in which another node's ack completes a first send that was not delivered |
| StopAndWait.LoopRefinesSystem | src-tauri/rtc/ws_node_handler.rs:223-244 | each event of the retry loop is a step of the protocol |
| StopAndWait.SendRefinesStart | src-tauri/rtc/ws_node_handler.rs:250-254 | taking the number and encoding is the protocol's start step, or its failing one |
| StopAndWait.ReceiveRefinesArrive | src-tauri/rtc/ws_node_handler.rs:156-166 | the receive callback is the protocol's arrival step, acking under the frame's own id |
| BackendProtocol.RunRefines | src-tauri/rtc/ws_node_handler.rs:128-255 | every run of the backend's object on the network, any number of sends with their retry events, cancellations, other nodes and the other direction's frames in between, is a run of the protocol |
| BackendProtocol.MovesAreOneSend | src-tauri/rtc/ws_node_handler.rs:250-255 | one send, with the network moving on meanwhile, leaves what the object's `send` leaves for those events |
| BackendProtocol.DoneIsDeliveredOnce | src-tauri/rtc/ws_node_handler.rs:246-255 | with no other node sending, a `send` of the object that returned Ok was handed to the receiver's handler exactly once, if and only if the receiver's filter was unset at the start |
| BackendProtocol.DoneIsDeliveredIffNumberFits | src-tauri/rtc/ws_node_handler.rs:250-254 | undisturbed runs of any length: a `send` that returned Ok was handed over exactly once, if and only if its number fits 32 bits |
| BackendProtocol.HandedIsWhatIsDone | src-tauri/rtc/ws_node_handler.rs:246-255 | undisturbed, what was handed over is exactly the sends that returned Ok, in order, plus at most the one in flight |
| BackendProgress.SendCompletesAfter | src-tauri/rtc/ws_node_handler.rs:223-255 | from every state with a send pending, whatever was lost, and for every n > 0, some run puts exactly n more copies on the wire and returns Ok |
| BrowserTransport.StepKeepsValid | src/transport/rtc-ts/transport_handler.ts:51-139 | every operation keeps: the awaited send owns its timer and listeners, all others settled once and own nothing, numbers are 1, 2, 3, ... |
| BrowserTransport.SettlesOnce | src/transport/rtc-ts/transport_handler.ts:80-122 | over any run each send settles at most once, keeps its outcome, and owns nothing afterwards |
| BrowserTransport.LateEventsAreInert | src/transport/rtc-ts/transport_handler.ts:60-65 | late aborts and acks for a settled send change nothing else, and its timer cannot fire |
| BrowserTransport.RefusedSendConsumesNothing | src/transport/rtc-ts/transport_handler.ts:128-135 | a send changes nothing, its number included, if and only if it is refused |
| BrowserTransport.SettledSendIsSilent | src/transport/rtc-ts/transport_handler.ts:91-115 | after a send settled no frame of it goes out in any run |
| BrowserTransport.StopEndsEverything | src/transport/rtc-ts/transport_handler.ts:51-58 | after stop every send has settled and every later one is refused |
| BrowserTransport.EveryFiringResends | src/transport/rtc-ts/transport_handler.ts:107-115 | each firing of the awaited send's timer puts one more copy of its frame on the wire, and it stays awaited |
| BrowserTransport.AcceptedSendGoesOut | src/transport/rtc-ts/transport_handler.ts:60-139 | a send that is not refused puts one frame under the next number on the wire and n more after n firings; an ack with that number resolves it |
| BrowserProtocol.RunRefines | src/transport/rtc-ts/transport_handler.ts:60-139 | every run of the browser's sender on the network, with aborts, timers, other nodes and the other direction's frames in between, is a run of the protocol |
| BrowserProtocol.ResolvedIsDeliveredOnce | src/transport/rtc-ts/transport_handler.ts:128-139 | with no other node sending, a send whose promise resolved was handed to the receiver's handler exactly once, if and only if the receiver's filter was unset at the start |
| BrowserProtocol.HandedIsWhatResolved | src/transport/rtc-ts/transport_handler.ts:128-139 | without aborts, what was handed over is exactly the resolved sends, in order, plus at most the one in flight |
| BrowserProtocol.HandedInOrder | src/transport/rtc-ts/transport_handler.ts:80-122 | whatever is aborted or sent by others, a receiver pinned to the browser gets a duplicate-free subsequence of its sends, in order |
| BrowserProtocol.SendResolvesAfter | src/transport/rtc-ts/transport_handler.ts:80-139 | from every state with a send awaited, whatever was lost, and for every n > 0, some run puts exactly n more copies on the wire and resolves the promise |
| BrowserProtocol.BrowserRefinesArrive | src/transport/rtc-ts/transport_handler.ts:66-77 | the browser's receive half is the protocol's arrival step, acking under the browser's own id |
| BrowserProtocol.OkIsHandledOnce | src/transport/rtc-ts/transport_handler.ts:66-77 | a send of the other side that returned Ok was handed to the browser's handler exactly once, if and only if the browser's filter was unset at the start |
| WsNode.QueueSurvivesReconnects | src-tauri/rtc/ws_node.rs:150-276 | over any reconnects, attempted frames then queued frames are exactly the accepted ones, in order |
| WsNode.FailureEndsConnection | src-tauri/rtc/ws_node.rs:161-166 | a failed attempt is the last one of its connection |
| WsNode.LossesBounded | src-tauri/rtc/ws_node.rs:161-166 | no more frames are lost than connections were broken |
| WsNode.FlagSpansReconnects | src-tauri/rtc/ws_node.rs:221-278 | the connected flag is set from the first connection to the end, and not cleared by a reconnect |
| WsNode.HandledIsHeard | src-tauri/rtc/ws_node.rs:179-207 | over any reconnects the handler gets exactly the frames that came in while a receiver ran, once each and in order |
| WsNode.QueueCanEmpty | src-tauri/rtc/ws_node.rs:150-276 | from every state before the stop, one connection that holds sends all that is queued, in order, with nothing lost |
| WsNode.StoppedIsSilent | src-tauri/rtc/ws_node.rs:222-278 | after the stop, in every run, nothing is taken, sent or handled any more, and callers see it as not connected |
| RateLimiter.IntervalBound | src-tauri/signalling/ws_server.rs:398-412 | for a monotone clock T seconds pass at most (1 + ceil(T)) times the rate, wherever they begin |
| RateLimiter.SecondBound | src-tauri/signalling/ws_server.rs:398-412 | any half-open second passes at most twice the rate |
| RateLimiter.SecondBoundIsReached | src-tauri/signalling/ws_server.rs:398-412 | for every rate and every start, some frames reach twice the rate in one second |
| RoutingTable.JoinedRoom | src-tauri/signalling/ws_server.rs:467-476 | joining keeps rooms at one or two distinct ids and adds no one else |
| RoutingTable.LookupIsIsolated | src-tauri/signalling/ws_server.rs:457-493 | a lookup touches its own room only, and what it finds is another member of that room |
| RoutingTable.RefusedIff | src-tauri/signalling/ws_server.rs:467-476 | a registered caller is refused as Full if and only if the room already lists two other connections, an unregistered one always; refusing changes nothing |
| RoutingTable.MembersFindEachOther | src-tauri/signalling/ws_server.rs:467-493 | in a room of two, each one's lookup with a payload returns the other's queue, and every third one is refused |
| RoutingTable.TwoMeet | src-tauri/signalling/ws_server.rs:457-493 | two registered connections that each look up a tag with no room are its only two members from then on, whatever lookups follow, and each finds the other's queue |
| RoutingTable.RemovalIsComplete | src-tauri/signalling/ws_server.rs:495-508 | after removal the id is nowhere, and other rooms and members are as they were |
| MessageProcessor.MessageQueue.TrySend | src-tauri/signalling/ws_server.rs:140-141 | the queue takes the message unless it is full or its reader is gone |
| SignallingServer.StepKeepsInv | src-tauri/signalling/ws_server.rs:207-317 | every step of every connection keeps the invariant of tables, queues and counters |
| SignallingServer.RoomsAreSound | src-tauri/signalling/ws_server.rs:440-508 | in every reachable state each room has one or two distinct ids, all in `ct` and branded with its tag; each connection is in at most one room; after teardown its id is nowhere |
| SignallingServer.NoDanglingPeer | src-tauri/signalling/ws_server.rs:486-490 | the repair branch for a dangling id is never reached, and a found peer is the room partner |
| Forwarding.ForwardedFromPartner | src-tauri/signalling/ws_server.rs:133-147 | in every run, for everything queued to a connection, the run has a step that looked up that very message of its sender, found this connection, and left the two as the two members of the room |
| Forwarding.SenderWasMember | src-tauri/signalling/ws_server.rs:457-493 | so a connection that a full room refused is no source: sender and receiver were in one room |
| SignallingServer.ForwardingIsIsolated | src-tauri/signalling/ws_server.rs:133-147 | everything queued to a connection was sent verbatim by another one of the same tag, per sender in sending order and without repetition |
| MessageProcessor.ForwardedExactlyWhen | src-tauri/signalling/ws_server.rs:110-147 | processed without interruption, a message is queued to a connection, once and unchanged, if and only if it is in time, within the cap, well formed and under the brand, that connection is the room partner and its queue takes it |
| Meeting.RoomLasts | src-tauri/signalling/ws_server.rs:440-508 | a room of two keeps exactly its members in every run in which neither is removed; each keeps finding the other, every third one is refused |
| Meeting.PeersMeet | src-tauri/signalling/ws_server.rs:110-148 | from every state of the server, two peers that connect, register and name an unused tag get each other's message on their sockets, unchanged |
| Meeting.TokensAreSound | src-tauri/signalling/ws_server.rs:262-317 | in every reachable state a connection whose listener or writer has ended is cancelled |
| Meeting.EveryConnectionCanEnd | src-tauri/signalling/ws_server.rs:248-317 | from every reachable state every registered connection can be taken down without the idle checker; then its id is nowhere in the tables |
| Meeting.BrokenSocketIsSilent | src-tauri/signalling/ws_server.rs:275-283 | after a failed write, in every run, nothing more is queued for that connection and nothing more goes out to it |
| Meeting.QueuesStayBounded | src-tauri/signalling/ws_server.rs:143-144 | in every run what a connection's queue holds for its socket stays within the configured limit |
| Meeting.CountersCount | src-tauri/signalling/ws_server.rs:131-146 | `incoming` grows exactly by the messages in time and proper, `forwarded` exactly by those put into a peer's queue |
| SignallingServer.ForwardedIsCapped | src-tauri/signalling/ws_server.rs:413-420 | the forwarded counter only grows and never passes the connection's cap |
| IdleChecker.StartIdleChecker | src-tauri/signalling/ws_server.rs:319-351 | ends at the first failing test at the latest, within first delay + (cap + 1) * idle timeout, and for one of the three reasons the code has |
| IdleChecker.HistoryCounts | src-tauri/signalling/ws_server.rs:354-375 | in every history of the server the shared counter grows and is capped |
| IdleChecker.CheckedByIdleClose | src-tauri/signalling/ws_server.rs:330-346 | taking the machine's step IdleClose wherever a test fails cancels the connection's close token there |
| IdleChecker.CloseDeadline | src-tauri/signalling/ws_server.rs:207-259 | in every history in which the token is cancelled wherever a test fails, it is cancelled when the checker returns, and at the deadline, whatever the peers do |
| BrowserConnector.StepKeepsDebounceInv | src/transport/rtc-ts/connectors/rtc_connector.ts:93-224 | every event keeps: at most one handler, no timer armed beside it, never neither before all is up |
| BrowserConnector.OneHandlerOrOneTimer | src/transport/rtc-ts/connectors/rtc_connector.ts:93-224 | in every reachable state handlers and armed timers are at most one together, and exactly one until a check finds everything up or the peer is closed |
| BrowserConnector.ReportRearmsIff | src/transport/rtc-ts/connectors/rtc_connector.ts:93-127 | with no handler running, a report of trouble replaces the timer if and only if none was ever armed or the last one was armed longer ago than 5000 ms (disconnected) or 1000 ms (failed, closed) |
| BrowserConnector.UpSettles | src/transport/rtc-ts/connectors/rtc_connector.ts:138-148 | once ICE and the channel are up, the next check leaves no handler, no timer and no new attempt |
| BrowserConnector.ClosedBeginsNothing | src/transport/rtc-ts/connectors/rtc_connector.ts:138-142 | after the peer was closed no new attempt begins in any run |
| BrowserConnector.OfferIsCurrent | src/transport/rtc-ts/connectors/rtc_connector.ts:216-223 | the step that sends an offer sends it under the current id, that id's first, for the description just set |
| BrowserConnector.OffersChangeOnlyThere | src/transport/rtc-ts/connectors/rtc_connector.ts:194-223 | an event sends an offer if and only if it is that step: the description was set and nothing changed meanwhile |
| BrowserConnector.StepKeepsNegotiationInv | src/transport/rtc-ts/connectors/rtc_connector.ts:138-224 | offers go out under ever newer ids, and the current id's offer is the local description |
| BrowserConnector.OffersGrow | src/transport/rtc-ts/connectors/rtc_connector.ts:216-223 | no event takes back an offer |
| BrowserConnector.AppliedAnswerIsForLast | src/transport/rtc-ts/connectors/rtc_connector.ts:306-326 | an applied answer's id is that of the last offer, and no handler runs |
| BrowserConnector.OfferCanBeSent | src/transport/rtc-ts/connectors/rtc_connector.ts:138-224 | from every reachable state with something to negotiate and a handler or a timer, some continuation sends a new offer under an id of its own |
| BrowserConnector.StepKeepsDeliveryInv | src/transport/rtc-ts/connectors/rtc_connector.ts:31-48 | every event keeps: the head of the signal queue is on the wire, and the current offer is there or behind it |
| BrowserConnector.QueueGoesOut | src/transport/rtc-ts/connectors/rtc_connector.ts:31-48 | acks alone bring everything that is queued onto the wire |
| BrowserConnector.CandidateGoesOut | src/transport/rtc-ts/connectors/rtc_connector.ts:258-267 | a candidate goes out behind what was queued before, under the id that is current when it is found |
| Answerer.StepKeepsInv | src-tauri/rtc/rtc_connector.rs:461-573 | every offer held was sent by the browser, and every answer was made from one of them under its id |
| Answerer.CandidatesCarryCurrentId | src-tauri/rtc/rtc_connector.rs:530-563 | a queued candidate is used if and only if it carries the current id when it is taken out, and nothing else is; own ones are stamped with it then |
| Answerer.OfferIsAnswered | src-tauri/rtc/rtc_connector.rs:411-436 | taking the next offer and answering it sends one answer, under its id and made from its description, if and only if the peer connection accepted every step |
| Answerer.AnswersOnlyThere | src-tauri/rtc/rtc_connector.rs:411-436 | an event sends an answer if and only if it is that |
| Answerer.RestartSilences | src-tauri/rtc/rtc_connector.rs:475-493 | after a restart nothing is sent and no candidate used, in any run, until an offer is taken |
| Answerer.QueuesStayBounded | src-tauri/rtc/rtc_connector.rs:154-155 | neither queue ever holds more than eight |
| Answerer.OfferCanBeAnswered | src-tauri/rtc/rtc_connector.rs:461-573 | from every state, full queues included, an offer that comes in can be answered once everything older is taken |
| Negotiation.RunKeepsInv | src-tauri/rtc/rtc_connector.rs:411-436 | both invariants hold over all runs of both peers and the network |
| Negotiation.AppliedAnswerMatches | src/transport/rtc-ts/connectors/rtc_connector.ts:306-326 | in every run an answer that is applied was made from the very offer that was sent last and is the local description |
| Negotiation.StaleAnswerIsIgnored | src/transport/rtc-ts/connectors/rtc_connector.ts:311-315 | any other answer changes nothing, nor does one that comes while a handler runs |
| Negotiation.AppliedIff | src/transport/rtc-ts/connectors/rtc_connector.ts:306-326 | in every run an answer is applied if and only if it was made from the offer sent last and no newer attempt has begun |
| Negotiation.CurrentOfferCanBeAnswered | src-tauri/rtc/rtc_connector.rs:411-436 | from every reachable state in which the browser's last offer is current, some continuation answers it and applies the answer, and both peers then hold the same two descriptions |
| Negotiation.NegotiationCanComplete | src/transport/rtc-ts/connectors/rtc_connector.ts:138-224 | from every reachable state with something to negotiate, some continuation sends a new offer, answers it and applies the answer |
| Negotiation.BrowserCandidateCanArrive | src-tauri/rtc/rtc_connector.rs:530-563 | while both peers negotiate under one id, a candidate the browser finds can reach the backend's peer connection under that id |
| Negotiation.BackendCandidateCanArrive | src/transport/rtc-ts/connectors/rtc_connector.ts:327-334 | and one the backend finds can reach the browser's |
| Database.InsertedIds | src-tauri/src/db/sqlite.rs:266-271 | a multi-row insert hands out consecutive ids, the last of which is the reported one |
| BatchWrites.BatchEqualsOneByOne | src-tauri/src/db/sqlite.rs:240-293 | all tracks, then all sources, reaches the same tables and ids as one `add_track` after another, and succeeds on the same inputs |
| BatchWrites.TagBatchEqualsOneByOne | src-tauri/src/db/sqlite.rs:191-216 | all pairs at once is `assign_tag` pair by pair |
| AddedTracks.AddEachStores | src-tauri/src/db/sqlite.rs:218-293 | after a successful add the ids are new and consecutive; under each stands every column of its input, and reading its sources back gives exactly its urls in order; nothing else changes |
| AddedTracks.AddEachSucceedsIff | src-tauri/src/db/sqlite.rs:240-293 | adding succeeds if and only if every length is given, no artist and name is taken or comes twice, and no track lists a url twice |
| AddedTracks.AddedAreReadBack | src-tauri/src/db/sqlite.rs:240-293 | both hold of the database any run of calls left |
| AddedTracks.SourcesGoInIff | src-tauri/src/db/sqlite.rs:110-114 | the sources of a track go in if and only if none is there already and none comes twice |
| CallEffects.UpdateDoes | src-tauri/src/db/sqlite.rs:310-338 | an update succeeds if and only if the artist and name it leads to are free; it writes exactly the given columns of that row |
| CallEffects.AssignAllDoes | src-tauri/src/db/sqlite.rs:191-216 | assigning succeeds if and only if each pair is there or its track and tag are; then exactly the pairs asked for are added |
| CallEffects.TagCallsDo | src-tauri/src/db/sqlite.rs:707-776 | when each call about tags succeeds, and exactly which tags and pairs there are afterwards |
| CallEffects.SourceCallsDo | src-tauri/src/db/sqlite.rs:864-923 | when each call about sources succeeds, and exactly which track and url pairs there are afterwards |
| CallEffects.KnownTracksOnly | src-tauri/src/db/sqlite.rs:1036-1060 | a credit and a delete are accepted if and only if the track is there |
| Repository.SqliteRepository.AddOneTrack | src-tauri/src/db/sqlite.rs:218-238 | one transaction, its commit included: all or nothing; a track without sources panics first |
| Repository.SqliteRepository.AddTracks | src-tauri/src/db/sqlite.rs:240-293 | returns what one-by-one adding returns (`AddedTracks` says what that is), leaves the database as it was on any failure, binds six values per track and two per source, at most 1000 per statement |
| Repository.SqliteRepository.AppendIds | src-tauri/src/db/sqlite.rs:267-271 | counting back from the last rowid gives the ids in input order |
| Repository.SqliteRepository.AddSources | src-tauri/src/db/sqlite.rs:274-292 | every source goes to its own track, in batches, all or nothing |
| Repository.SqliteRepository.AssignTag | src-tauri/src/db/sqlite.rs:295-304 | one insert-or-ignore, or nothing |
| Repository.SqliteRepository.AssignTags | src-tauri/src/db/sqlite.rs:191-216 | the same as pair by pair, all or nothing, two values per pair, at most 1000 per statement |
| Repository.SqliteRepository.AddListenedSeconds | src-tauri/src/db/sqlite.rs:1029-1065 | counter and day are credited together or not at all; an unknown track fails and leaves nothing behind |
| Repository.SqliteRepository.DeleteTrack | src-tauri/src/db/sqlite.rs:121-189 | archived and deleted together or not at all |
| ListeningLedger.CreditKeepsLedger | src-tauri/src/db/sqlite.rs:1036-1060 | a credit adds its seconds to one track and one day, and counters stay the sums of their days |
| TableKeys.CreditedDay | src-tauri/src/db/sqlite.rs:1051-1055 | after a credit there is exactly one row for its day and track, holding what it held before plus the seconds; no other day changes |
| ListeningLedger.DeleteKeepsLedger | src-tauri/src/db/sqlite.rs:121-189 | a delete moves seconds to the archive and changes no sum over any choice of tracks or days |
| ListeningLedger.DeleteMovesOneTrack | src-tauri/src/db/sqlite.rs:124-186 | the archive holds exactly the track's row, urls, tags and days; no row of it stays; nothing of other tracks is touched |
| TableKeys.ArchiveIsOrdered | src-tauri/src/db/sqlite.rs:124-170 | the archived urls and tags have no repetition, tags ascend, days are in the order of their dates |
| ListeningLedger.AddEachKeepsLedger | src-tauri/src/db/sqlite.rs:240-293 | adding tracks moves no second: a new id has no days |
| RepositoryRuns.StepKeepsLedger | src-tauri/src/db/sqlite.rs:235-348 | every call, committed or refused, changes the sums by its committed credit and nothing else |
| RepositoryRuns.ListeningTimeIsConserved | src-tauri/src/db/sqlite.rs:121-189 | from a fresh database, for every run and every choice of tracks or of days, live plus archived seconds are exactly the committed credits, and each live counter is the sum of its days |
| RepositoryRuns.TablesStayLinked | src-tauri/migrations/0001_initial.sql:1-39 | after every run ids are distinct, which is all the queries assume of the tables, and no source, assignment or day refers to a track that is gone |
| TableKeys.KeysStayUnique | src-tauri/migrations/0001_initial.sql:9-35 | after every run no two tracks share artist and name, no two sources track and url, no two assignments track and tag, and no two days, live or in one archive row, date and track |
| Sorting.SortAscends | src-tauri/src/db/sqlite.rs:628-634 | ORDER BY on distinct keys gives ascending rows |
| Sorting.AscendingIsUnique | src-tauri/src/db/sqlite.rs:628-634 | and there is only one such order of the same rows |
| Paging.CursorSplits | src-tauri/src/db/sqlite.rs:628-634 | the two cursor queries cut the sorted rows at the rank of the cursor |
| Paging.PageIsSlice | src-tauri/src/db/sqlite.rs:615-634 | a page is exactly the slice [max(0, k - limit), min(n, k + limit)) of the sorted matching rows, k being the number of ids below the cursor |
| Paging.RankOfRow | src-tauri/src/db/sqlite.rs:478-482 | the rank of a row's own id is its place |
| LibraryPages.PressedIsMoves | src/db/LibraryWidget.tsx:69-84 | pressing a button any number of times moves the page by positions, as the position arithmetic says |
| LibraryPages.NextAdvances | src/db/LibraryWidget.tsx:79-81 | Next leaves no gap and, short of the end, shows something new |
| LibraryPages.PrevRetreats | src/db/LibraryWidget.tsx:82-84 | Prev leaves no gap and, short of the start, shows something new |
| LibraryPages.ButtonsMoveByFive | src/db/LibraryWidget.tsx:69-84 | away from both ends a page has twenty rows and a button moves it by five |
| LibraryPages.LoadIsView | src/db/LibraryWidget.tsx:55-64 | any cursor, one of a row that is gone included, loads the page around its rank |
| LibraryPages.CursorIsRow | src/db/LibraryWidget.tsx:59-60 | the remembered cursor is a row of the page, and there is none exactly when the page is empty |
| LibraryPages.ReloadKeepsPage | src/db/LibraryWidget.tsx:55-67 | coming back to the remembered cursor shows every row of the page it was remembered from, and from then on always the same page (from the second time on, if the page was loaded for the first row's id) |
| LibraryPages.NextShowsEverything | src/db/LibraryWidget.tsx:69-81 | from any cursor, repeated Next shows every row from the first shown on and reaches the last, within as many presses as there are rows |
| LibraryPages.PrevShowsEverything | src/db/LibraryWidget.tsx:69-84 | from any cursor, repeated Prev shows every row up to the last shown and reaches the first |
| TrackFilter.CountMeansAll | src-tauri/src/db/sqlite.rs:599-608 | the grouped, counted subquery selects a track with all the listed tags, if and only if the list has no repetition |
| TrackFilter.DistinctMeansAny | src-tauri/src/db/sqlite.rs:590-597 | the DISTINCT subquery selects a track with any listed tag, without repetition |
| TrackFilter.RepeatedTagMatchesNothing | src-tauri/src/db/sqlite.rs:601-607 | whatever the table holds, a list that repeats a tag selects no track |
| TrackFilter.OrderAndSplitDoNotMatter | src-tauri/src/db/sqlite.rs:547-613 | what the compiled clause selects depends only on which parameters are given under which names, not on their order or how entries split them |
| TrackFilter.CompiledMeansWanted | src-tauri/src/db/sqlite.rs:547-613 | a row satisfies the compiled clause if and only if some artist parameter, some name parameter and every tag parameter hold |
| TrackFilter.SelectedIsWanted | src-tauri/src/db/sqlite.rs:547-613 | and the selected rows are exactly those, each once |
| TrackFilter.GetTracksFiltered | src-tauri/src/db/sqlite.rs:516-641 | the result is the cursor's slice of the rows the criteria ask for, in id order |
| TrackSources.GroupIsOwnQuery | src-tauri/src/db/sqlite.rs:952-971 | one track's share of the sorted IN query is what its own sorted query gives |
| TrackSources.GroupByTrack | src-tauri/src/db/sqlite.rs:967-971 | the map holds each track's rows in order |
| TrackSources.GetTracksWithSources | src-tauri/src/db/sqlite.rs:941-980 | row by row the tracks with what `get_sources_for_track` gives, in the same order |
| ListenGuard.ListenGuard.ShouldRecord | src-tauri/src/commands/listen_guard.rs:17-33 | recorded if and only if it is the first, or nine tenths of the interval have passed since the last recorded; the instant moves only then |
| ListenGuard.SetBackIff | src-tauri/src/commands/listen_guard.rs:17-30 | a call moves the guard's instant back if and only if its reading is earlier and its credit is zero seconds |
| ListenGuard.InOrderIsForward | src-tauri/src/commands/listen_guard.rs:17-30 | readings in the order of the calls never do |
| ListenGuard.GrowthSinceLast | src-tauri/src/commands/listen_guard.rs:20-26 | from one admitted credit on, with no set-back, every further second has cost nine tenths of a second |
| ListenGuard.GuardBoundsGrowth | src-tauri/src/commands/dispatch.rs:233-238 | between any two instants, with no set-back after the first admitted credit, listening time grows by at most that credit plus elapsed / 0.9, over any choice of tracks, with other calls and late writes in between |
| ListenGuard.RecordedIsBounded | src-tauri/src/commands/dispatch.rs:233-238 | the same for what a fresh process records in a database any run left |
| ListenGuard.BoundIsReached | src-tauri/src/commands/listen_guard.rs:17-33 | any two credits spaced by nine tenths of the second reach the bound |
| ListenGuard.PaidIffNotSetBack | src-tauri/src/commands/listen_guard.rs:17-30 | per call, from any state in which the guard holds an instant: whatever follows with no further set-back, every second since that instant is paid for, if and only if the call does not set the guard back |
| ListenGuard.SetBackExceedsBound | src-tauri/src/commands/listen_guard.rs:18-24 | for every two instants there is a run of a fresh process in which the guard is set back from one to the other and the bound on windows is exceeded |
| ListenGuard.PoisonedRecordsNothing | src-tauri/src/commands/listen_guard.rs:19-22 | after a panic under the lock nothing more is recorded |

## Left out

- Sockets, TLS, JSON, the async runtime, SQLite and the WebRTC libraries: connecting, sending and statements succeed or fail as the environment chooses, and session descriptions are values that name the offer they answer.
- A link carries frames both ways. Each direction is proved on its own, with the other's frames passing through.
- Waiting for room in a bounded send queue (`WsNode::send`, the ack task): a frame is accepted or refused at once.
- The server's panics, and the metrics it counts. `Stop` of the reconnect loop is one step, with both tasks ending in it.
- DeliveryConditions.CompletedIsDeliveredIffNumberFits: after the numbers wrapped, runs with cancelled sends are not characterised.
- Browser sends numbered 2^32 and above, which the backend cannot decode.
- IdleChecker.StartIdleChecker: timers fire exactly on time, so the deadline does not include scheduling delay.
- SignallingServer.StepKeepsInv: the machine is on values; the processing steps also exist as an object's methods, the spawning and joining of tasks does not.
- MessageProcessor.ForwardedExactlyWhen: no step of another connection comes between the three parts of `process`; what holds with interleaving is in `Forwarding`.
- BrowserConnector.OneHandlerOrOneTimer: channel creation does not throw, and claims nothing after a check found everything up, where the remembered timer is never cleared.
- `RtcConnector.state()` and `send()` of the browser, except that a closed peer ends a handler.
- The delivery loop of the browser when a send fails for good: it retries the head at once and for ever. The model lets a delivery end only by an ack or by a new negotiation attempt.
- A second `send` from inside the browser handler's own carrier callback.
- The backend's data channels, its ice debouncer's own timing (`Restart` may come at any time), and its check that an id is not empty (ids are random UUIDs).
- The older `get_tracks` condition compiler and its tag filters, whose statement has a parameter that is never bound. `GetTracksWithSources` starts from whatever rows `get_tracks` returned.
- TrackFilter.CompiledMeansWanted: the meaning of an OR of nothing is a parameter (`emptyAny`), and so is LIKE; the result holds for every choice.
- RepositoryRuns.ListeningTimeIsConserved: the calls are all that write tracks, sources, tags, assignments, days or the archive, except renaming a tag; `listen_info`, `track_meta`, conflicts and errors are no tables of the model. `listen_info` rows are deleted with their track and not archived.
- Overflow of 64-bit sums, `tempo_bpm`, tag names in the archive and meta rows of the archive.
- Whether an ignored insert uses up an id is a parameter (`burn`). A tag is one number, which stands for its id and for its unique name.
- A commit whose outcome is unknown, and the best-effort row in the `errors` table on failure.
- ListenGuard.GuardBoundsGrowth: rounding of `interval * 0.9` to a float and to nanoseconds.
- The reset of the whole database, React components, players, playlists and configuration.
