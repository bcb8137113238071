# elbus in Dafny

A model of the elbus message broker, its wire protocol, its client and its RPC layer, with proofs of what they promise.
`dafny verify dfyconfig.toml` checks everything. Names, topics and payloads are byte sequences (`Bytes`); whether bytes
are valid text is a predicate supplied from outside.

| module | models |
|---|---|
| `Bytes`, `Protocol`, `Naming`, `Ids` | integers on the wire, operation and error codes, `%%` names, wrapping 32-bit ids |
| `Wire`, `IpcClient` | client to broker: the connection object that builds frames, the broker's reader loop |
| `Incoming` | broker to client: the writer loop, the client's reader loop, both codecs end to end |
| `Handshake` | `chat` against `handle_peer`, byte by byte, in any interleaving |
| `Acks` | confirmations: the verdict on each frame and the client's map of pending confirmations |
| `Registry` | `BrokerDb` and its clients changed in place, against operations on values; runs of operations |
| `Locks`, `Agreement`, `Exactness` | the same operations one lock at a time, on any number of threads: no deadlock, and when the registry is consistent at rest |
| `Delivery` | `safe_send_frame!`, `send!`, `send_broadcast!`, `publish!` and the announcements inside them, on values and in place |
| `Reach` | whom a publication and a broadcast reach, in terms of what clients asked for in the history of the registry |
| `Sessions` | the same deliveries one queue operation and one map at a time, interleaved: outcomes and order |
| `Counters` | every single `fetch_add` of the traffic counters, interleaved |
| `RpcCodec`, `RpcCalls` | RPC headers, split and flat; calls between any number of peers |
| `FlushTtl` | the buffered writer with its one-slot token channel, flusher and final flush |
| `Pubsub` | the topic broker: exact topics, then the first prefix in key order |

Properties that do not hold of the code as they stand are stated with the exact condition under which they do, and with
an input that breaks them:

- A drop removes by name. The second drop of an evicted client, after its name was taken by another, unregisters that
  other client (`Registry.StaleDropEvictsSuccessor`), which then subscribes in vain and is told that all went well
  (`Acks.LostSubscription`); if the other client has secondaries, they are left without a primary
  (`Registry.StaleDropOrphans`). `Registry.DropSparesOthersIff` and `Registry.DropKeepsConsistentIff` say which drops do
  neither, `Registry.RunSparesIff` and `Registry.RunConsistentIff` which runs.
- A drop that begins while its object is still being registered leaves it subscribed
  (`Agreement.EarlyDropStaysSubscribed`); `Agreement.StepFitsIff` and `Agreement.RunFitsIff` say exactly which moves keep
  the three maps together. A drop that ends when its name is in use again takes the name of the new secondary out of its
  primary's set, and the drop of the primary will then leave it behind (`Exactness.LateTakeOut`);
  `Exactness.ConsistentAtRest` says what keeps the registry consistent.
- Throwing out a slow primary publishes an announcement in the middle of a delivery. It fills queues
  (`Delivery.NoticeTakesThePlace`), and it needs a lock that the broker's own client holds whenever it sends: an ordinary
  message can hang its sender for ever (`Delivery.SendHangs`) - or, if the sender is a connection, until that ends and its
  waiting task is dropped, and then the queue of the client that was thrown out is never closed. `Delivery.TurnHangsIff`, `Delivery.LoopHangsIff` and
  `Delivery.AnnounceAccount` say exactly when that happens.
- A fan-out given up while it waits - its deadline has passed, or its session has ended (`Counters.EndedSessionLoses`) -
  leaves the broker's counters ahead of the clients' by the subscribers it had not come to (`Counters.Conservation`,
  `Counters.LostIs`).
- A timeout of the flusher leaves bytes in the buffer with no flush pending (`FlushTtl.TimeoutForgets`);
  `FlushTtl.UncoveredIff` says exactly when.
- A caller that abandons its call leaves its entry among the pending calls until a reply comes
  (`RpcCalls.PendingIffUnanswered`).
- Any peer that names the id of a pending call decides what it returns (`RpcCalls.StrayResolves`);
  `RpcCalls.CallGetsItsOwnResult` says how the caller can tell.
- Error kinds Timeout and Eof, NUL bytes in names, frames of 2^32 bytes or more, bulk lists with a leading empty topic,
  and primary names ending in `%` do not survive the wire (`Protocol.ResultRoundTrip`, `Wire.FrameRoundTripIff`,
  `Incoming.TrafficRoundTripIff`, `Wire.BulkRoundTrip`, `Naming.SecondaryRoundTrip`).
- Asking a reply for its method panics (`RpcCodec.ReplyMethodPanics`), and so does asking a notification with little data
  for its id; the id of a notification also depends on whether its header travels separately
  (`RpcCodec.NotificationIdDiffers`). `RpcCodec.AcceptedInBounds`, `RpcCodec.NotificationIds` and `RpcCodec.ZeroCopyIff`
  say exactly when.

Where docs/protocol.rst and the code differ the model follows the code: acknowledgements are sent for QoS 1 and 3 and not
for QoS 2, and the sixth byte of an incoming frame carries the realtime flag.

## Model

| member | source | states |
|---|---|---|
| `Bytes.Le32RoundTrip` | src/ipc.rs:104-148 | a length or id is read back modulo 2^32, and unchanged exactly when it fits |
| `Bytes.FromLe32Inverse` | src/broker.rs:1501-1511 | the four id bytes an acknowledgement echoes are those of the id that was read |
| `Bytes.FieldRoundTrip` | src/broker.rs:1594-1598 | splitting at the first NUL gives back the field before it exactly when that field contains none |
| `Bytes.SplitJoin` | src/broker.rs:1543-1544 | a non-empty list of NUL-free topics joined by NULs splits into the same list |
| `Bytes.JoinSplit` | src/broker.rs:1543-1544 | joining what a body splits into gives the body back |
| `Protocol.ResultRoundTrip` | src/lib.rs:65-93 | an outcome survives its byte code unless it is Timeout or Eof, which arrive as Other; success stays success |
| `Protocol.FlagsRoundTrip` | src/broker.rs:1495-1503 | operation and QoS are recovered from the flags byte, and only a ping has flags zero |
| `Protocol.ServiceBits` | src/lib.rs:322-331 | the two top bits of the flags byte: QoS 1 and 3 ask for an acknowledgement by the lower, QoS 2 and 3 for real time by the upper |
| `Naming.PrimaryOfIdempotent` | src/broker.rs:1143-1145 | the primary name of a primary name is itself, so a cascade never goes deeper than two |
| `Naming.SecondaryRoundTrip` | src/ipc.rs:261-273 | a generated name splits back into its primary exactly when that has no separator and does not end in a percent sign |
| `Naming.SecondaryInjective` | src/broker.rs:1167-1177 | distinct pairs of primary and counter give distinct names |
| `Naming.PercentSuffixBreaksSplit` | src/lib.rs:431-438 | the secondary of `a%` is attributed to `a` |
| `Ids.IdClosedForm` | src/ipc.rs:275-281 | the k-th id is (k - 1) mod (2^32 - 1) + 1 |
| `Ids.IdCollision` | src/ipc.rs:275-281 | ids are never zero and two allocations share one exactly when a whole number of cycles apart |
| `Ids.IdInjectiveInWindow` | src/rpc.rs:559-572 | within less than a cycle an id names one allocation |
| `Wire.BuildBulk` | src/ipc.rs:343-352 | the accumulation loop yields the list encoding |
| `Wire.BulkRoundTrip` | src/ipc.rs:343-362 | a bulk list is read back exactly when it is not empty, has no NUL and no leading empty topic in front of others |
| `Wire.ReadFrames` | src/broker.rs:1487-1506 | the reader loop computes the meaning of the stream however it is cut into reads, including pings and the three ways it ends |
| `Wire.FrameRoundTripIff` | src/ipc.rs:144-171 | a frame arrives as sent - id, operation, QoS, target or topics, payload - exactly when its texts and length are representable |
| `Wire.StreamRoundTrip` | src/broker.rs:1487-1598 | any sequence of frames and pings, followed by anything, decodes to that sequence followed by what the rest means |
| `Wire.CutStream` | src/broker.rs:1487-1506 | a stream that breaks off at any byte of a frame hands over everything before that frame and ends as truncated, one that ends between frames ends cleanly |
| `Wire.NoTextBreaksStream` | src/broker.rs:1594-1598 | a frame that would arrive but for its text breaks the stream exactly when its target or one of its topics is not text |
| `Wire.UnknownOpBreaks` | src/broker.rs:1501-1506 | a head with an unknown operation breaks the stream; with a known one and too few bytes after it the stream is truncated |
| `IpcClient.EncodeSnoc` | src/ipc.rs:101-108 | one more frame appends its encoding under the next id |
| `IpcClient.Client.IncrementFrameId` | src/ipc.rs:275-281 | the counter steps to the next id of the wrapping sequence |
| `IpcClient.Client.SendAddressed` | src/ipc.rs:144-165 | the bytes written are the encoding of everything sent so far; a confirmation is pending under the frame's id exactly when asked for |
| `IpcClient.Client.SendTopics` | src/ipc.rs:343-362 | the same for single and bulk subscriptions |
| `IpcClient.Client.SendPing` | src/ipc.rs:364-367 | a ping is appended and uses up no id |
| `IpcClient.Client.Acknowledge` | src/ipc.rs:403-412 | the pending confirmation of the id gets the result and is no longer pending; others stay unresolved; an orphan changes nothing |
| `IpcClient.Received` | src/broker.rs:1487-1598 | whatever a client object sent, the broker's reader loop hands over, with ids, in order |
| `Incoming.HandleWriter` | src/broker.rs:1700-1739 | the writer loop makes exactly the writes of each frame in turn, every frame ending in its one write that flushes, and together they are the queue's encoding |
| `Incoming.HandleRead` | src/ipc.rs:388-449 | the client's reader loop computes the meaning of the stream |
| `Incoming.TrafficRoundTripIff` | src/ipc.rs:413-446 | traffic arrives as queued exactly when sender and topic have no NUL and the length fits |
| `Incoming.QueueRoundTrip` | src/broker.rs:1700-1739 | a whole queue arrives in order: messages, publications and acknowledgements |
| `Incoming.CutQueue` | src/ipc.rs:388-449 | a connection that breaks off at any byte hands over exactly the frames that came whole |
| `Incoming.MalformedIff` | src/ipc.rs:413-446 | traffic that would arrive but for its text is malformed exactly when its sender, or the topic of a publication, is not text |
| `Incoming.UnknownKind` | src/ipc.rs:388-402 | a head of an unknown kind ends the reading |
| `Incoming.EndToEnd` | src/ipc.rs:144-171 | through both codecs sender, kind, topic and realtime flag are kept and the payload is header followed by payload, whatever the bytes - exactly when the length of what the broker sends on fits its field |
| `Incoming.SessionEndToEnd` | src/broker.rs:1487-1739 | the messages, broadcasts and publications of a whole session reach a receiver through both codecs, all of them, in order, each as it was sent |
| `Handshake.RunKeepsInv` | src/broker.rs:1362-1428 | in every run both transcripts agree with where the two sides stand |
| `Handshake.NeverBothWait` | src/ipc.rs:451-489 | the sides never both wait to read, and unless `chat` is done somebody can move |
| `Handshake.Agreement` | src/ipc.rs:451-489 | `chat` succeeds exactly when the broker registered the identical bytes, and otherwise returns why not: an empty or dotted name is bad data, a peer not admitted has no access, and else what the registration said |
| `Handshake.TooLong` | src/ipc.rs:451-489 | a name too long for its length field is refused locally and never registered |
| `Handshake.EveryStepCounts` | src/broker.rs:1362-1428 | the exchange ends: a rank of at most fourteen falls with every step |
| `Acks.HandleSubscribe` | src/broker.rs:1543-1570 | the topics subscribed are exactly the allowed ones, by the registry's own operation; k denied ones cause k access errors, and a success ends the list |
| `Acks.AllowedAreSubscribedIff` | src/broker.rs:1561-1567 | all allowed topics end up subscribed exactly when the client's name has an entry, or none is allowed |
| `Acks.LostSubscription` | src/broker.rs:1561-1570 | a client whose entry was taken by the second drop of its predecessor is told of success and nothing is subscribed |
| `Acks.FirstAckIsVerdict` | src/broker.rs:1507-1684 | the first acknowledgement is the verdict on the frame; a subscription gets an access error for each denied topic and a success at the end, every other frame one acknowledgement |
| `Acks.NewIdIsFree` | src/ipc.rs:127-142 | within one id cycle a new confirmation never replaces a pending one |
| `Acks.HeadBelongs` | src/ipc.rs:403-412 | an acknowledgement that resolves anything resolves its own frame, with its verdict |
| `Acks.ConfirmationIsVerdict` | src/ipc.rs:403-412 | in every run a confirmation carries its frame's verdict, is there once the acknowledgements were read, and never comes unasked |
| `Acks.ResolvedOnce` | src/ipc.rs:403-412 | a resolved confirmation keeps its value for the rest of the run |
| `Registry.InsertKeepsConsistent` | src/broker.rs:621-655 | a registration keeps the registry consistent; a refused one changes nothing |
| `Registry.InsertRefusedIff` | src/broker.rs:621-655 | a registration is refused as busy exactly when the name is held, as not registered exactly when it is a secondary whose primary nobody holds; otherwise the client is registered and subscribed to the warning topic alone |
| `Registry.DropFamily` | src/broker.rs:678-703 | a drop that keeps the registry consistent removes from all three maps the holder of the name and everything registered under it |
| `Registry.DropTriggers` | src/broker.rs:687-698 | a drop tells exactly the external clients registered under the name to disconnect |
| `Registry.DropSparesOthersIff` | src/broker.rs:678-703 | a drop removes the client and its secondaries and nobody else exactly when the client holds its name or nobody does |
| `Registry.DropKeepsConsistentIff` | src/broker.rs:678-703 | a drop keeps the registry consistent exactly when the object is the registered one or nothing is registered under its name |
| `Registry.StaleDropOrphans` | src/broker.rs:86-96 | evicting, reusing the name and dropping again leaves a secondary without a primary |
| `Registry.StaleDropEvictsSuccessor` | src/broker.rs:86-96 | evicting, reconnecting under the name and dropping again unregisters the live successor, from a consistent registry to a consistent one |
| `Registry.DropTwice` | src/broker.rs:678-703 | a second drop changes nothing |
| `Registry.InsertThenDrop` | src/broker.rs:621-703 | a registration followed by its drop restores the registry |
| `Registry.RunConsistentIff` | src/broker.rs:621-703 | a run from the empty registry is consistent throughout exactly when each of its drops is sound |
| `Registry.RunSparesIff` | src/broker.rs:621-703 | a run is consistent and no drop in it removes a client it was not meant for exactly when every drop is of a client that holds its name or whose name is free |
| `Registry.RegisteredUntilDropped` | src/broker.rs:621-703 | in such a run a registered client stays registered until it or its primary is dropped |
| `Registry.BrokerDb.InsertClient` | src/broker.rs:621-655 | the maps and the primary's `secondaries` become those of the insertion on values, with the same result |
| `Registry.BrokerDb.DropClient` | src/broker.rs:678-703 | the recursive drop becomes the one-step drop on values |
| `Registry.BrokerDb.DropSecondaries` | src/broker.rs:687-698 | the cascade removes exactly the registered secondaries and triggers the external ones |
| `Registry.BrokerDb.SubscribeClient` | src/broker.rs:1561-1567 | a topic is added if a client is registered for topics under the name |
| `Registry.BrokerDb.UnsubscribeClient` | src/broker.rs:1581-1588 | the topic is taken out of the entry of the name, by `Unsubscribe`, if there is one |
| `Registry.UnsubscribeUndoes` | src/broker.rs:1561-1588 | subscribing to a new topic and taking it back, or the other way round, restores the registry; neither touches another topic, another name, or anything else |
| `Registry.BrokerDb.ListClients` | src/broker.rs:946-970 | each primary is listed once, with the length of its queue and the number of connections of its name, and these add up to the number of registered clients |
| `Locks.RunKeepsInv` | src/broker.rs:621-703 | in every interleaving stages and held locks fit together, and the registry stays well-formed |
| `Locks.NoDeadlock` | src/broker.rs:621-703 | in every state of every run no thread waits for a lock it holds, and among any group of threads under way there is one whose lock none of the group holds; if they are all, one can move |
| `Locks.CascadeOwnerIsUnregistered` | src/broker.rs:686-701 | while a drop holds a primary's mutex across other locks that primary is not in the clients map |
| `Locks.CascadeTells` | src/broker.rs:687-698 | in every interleaving only external clients are told to disconnect, and one that a cascade drops has been told before |
| `Agreement.MapsAgreeAtRest` | src/broker.rs:621-703 | in every run whose moves all keep the maps together, the three maps agree whenever all threads are idle |
| `Agreement.StepFitsIff` | src/broker.rs:621-703 | a move keeps every object in its place in the three maps exactly when it begins no drop of an object still being registered, and removes by name only its own object, nothing, or from the clients an object whose own drop has been through the other maps |
| `Agreement.RunFitsIff` | src/broker.rs:621-703 | everything is in its place throughout a run exactly when all its moves are such |
| `Agreement.EarlyDropStaysSubscribed` | src/broker.rs:636-647 | a run of twenty moves, from the empty registry to all threads idle, that leaves a dropped client in the subscriptions alone |
| `Exactness.ConsistentAtRest` | src/broker.rs:621-703 | in every run of such moves in which no drop takes a name out of a primary's `secondaries` after the name was registered again, the registry is consistent whenever all threads are idle: maps, primaries and `secondaries` |
| `Exactness.LateTakeOut` | src/broker.rs:687-701 | a run that ends with all threads idle and the maps agreeing, and a registered secondary that its primary does not know of and whose drop leaves it behind |
| `Exactness.CountedThen` | src/broker.rs:950-967 | a listing counts for a primary its registered secondaries, plus the names whose drop stands between the clients map and the set, less those an earlier holder of the primary's name is about to drop |
| `Delivery.SafeSendFrame` | src/broker.rs:75-101 | the macro changes registry, queues and counters exactly as `Offer` says, announcement of an evicted primary included |
| `Delivery.ThrowOut` | src/broker.rs:91-96 | unregistering, announcing and closing, in this order, as `Throw` says |
| `Delivery.AnnounceDeparture` | src/broker.rs:590-606 | the announcement is a publication by the broker's own client |
| `Delivery.ServeAll` | src/broker.rs:161-165 | the loop over the subscribers is `Loop`, and ends early exactly where that halts |
| `Delivery.Send` | src/broker.rs:103-134 | an unknown target is refused and only the sender is counted; otherwise the target is credited and served, and the sender is told success exactly when the frame is on the target's queue, not delivered exactly when the target was external and full and its name is free now, end of file exactly when its queue was closed, timeout exactly when it was internal, full, stalled and there was a deadline, and nothing exactly when the call never returns |
| `Delivery.SendBroadcast` | src/broker.rs:136-168 | in place, registry, queues and counters become those of one fan-out to the registered clients whose names match, and the result is its result; who they are and what each gets is `Reach.BroadcastToThoseNamed` |
| `Delivery.Publish` | src/broker.rs:170-201 | in place, registry, queues and counters become those of one fan-out to the clients with a covering subscription, and the result is its result; who they are and what each gets is `Reach.PublishedToThoseWhoAsked` |
| `Delivery.LoopKeeps` | src/broker.rs:146-166 | finished or not, a fan-out leaves a consistent registry and bounded queues behind, and exactly the families of those thrown out have left |
| `Delivery.EveryoneAccountedFor` | src/broker.rs:146-166 | a subscriber gets the notices it hears before and after its turn; at its turn exactly one copy, or none because its queue was closed, or none because it is external and its queue was full then - and is unregistered and closed for good |
| `Delivery.NobodyElse` | src/broker.rs:146-166 | who is not a subscriber gets only the notices it hears, and is untouched if it does not listen |
| `Delivery.WhoStays` | src/broker.rs:91-96 | a registered client has left exactly when it, or the primary of its name, was thrown out |
| `Delivery.AnnounceAccount` | src/broker.rs:590-606 | an announcement never returns exactly when a listener is an external primary with a full queue or a full internal client nobody drains; otherwise every listener is served and nobody else touched |
| `Delivery.LoudTurn` | src/broker.rs:91-96 | throwing a primary out closes it and serves the notice to every listener outside its family |
| `Delivery.TurnHangsIff` | src/broker.rs:75-101 | the exact states of queues and subscriptions from which a delivery never returns |
| `Delivery.LoopHangsIff` | src/broker.rs:161-165 | a fan-out never returns exactly when it comes to a subscriber from which the delivery never returns as things stand then |
| `Delivery.LoopExpiresIff` | src/broker.rs:78-87 | a fan-out ends with a timeout exactly when it comes to an internal client, open and full, that nobody drains before the deadline, and nobody after that client is served |
| `Delivery.FanOutHangsIff` | src/broker.rs:146-166 | the same for the macros |
| `Delivery.RoomyReturns` | src/broker.rs:146-166 | with room for as many frames as there are subscribers in every listening external primary, and nobody stalled, a fan-out returns in any order |
| `Delivery.SendHangs` | src/broker.rs:103-134 | a message to a slow primary never returns when another slow primary listens to announcements |
| `Delivery.NoticeTakesThePlace` | src/broker.rs:161-165 | a subscriber with one place left is thrown out without its copy because the notice about another took it |
| `Reach.SubscribeReaches` | src/broker.rs:1561-1567 | a subscription adds the holder of the entry to exactly the publications its topic covers, and nobody else |
| `Reach.UnsubscribeReaches` | src/broker.rs:1581-1588 | taking a topic back takes the holder out of exactly the publications that none of its other topics covers |
| `Reach.InsertReaches` | src/broker.rs:636-647 | a registration adds the client to exactly the broadcasts that match its name and the publications that cover the warning topic |
| `Reach.DropReaches` | src/broker.rs:678-703 | a sound drop takes exactly the family out of every broadcast and publication |
| `Reach.PublicationIsForIff` | src/broker.rs:170-201 | in every consistent run of the registry a publication is for exactly the registered clients on whose behalf a covering topic was asked for, by a subscription or by registering, and not taken back since they registered |
| `Reach.PublishedToThoseWhoAsked` | src/broker.rs:170-201 | and when it returns exactly those have one copy each, or were closed before, or are external, did not keep up and are thrown out; everybody else got notices of the broker at most |
| `Reach.BroadcastToThoseNamed` | src/broker.rs:136-168 | the same for a broadcast and the registered clients with a matching name |
| `Reach.SubscribeThenPublish` | src/broker.rs:170-201 | a client that subscribes gets the next publication its topic covers exactly once, unless it is closed or external and too slow |
| `Reach.UnsubscribeThenPublish` | src/broker.rs:170-201 | a client that takes its only covering topic back gets none |
| `Reach.QuietReaching` | src/broker.rs:136-201 | when no subscriber is external and full the registry stays as it is; the broker and the sender count one frame received, the broker as many sent as there are subscribers, each subscriber one, and the bytes likewise |
| `Reach.QuietSend` | src/broker.rs:103-134 | the same for a message |
| `Sessions.RunKeepsInv` | src/broker.rs:75-201 | in every interleaving queues, sessions and outcomes fit together |
| `Sessions.FanOutOutcome` | src/broker.rs:75-201 | in every run a finished frame has one copy on each queue of its snapshot, or none because that was closed, or none because the client was external and seen full, and is then closed and out of the clients and the broadcast names |
| `Sessions.FullIsEvicted` | src/broker.rs:75-101 | in every run a look at a queue that finds the client external and full, for anything but an acknowledgement, ends in its eviction or in the task being given up, and any other look does not end in an eviction |
| `Sessions.QueueKept` | src/broker.rs:75-101 | in every run a queue stays within its capacity, only grows at its end, and takes nothing once it is closed |
| `Sessions.SessionOrder` | src/broker.rs:1487-1739 | what reaches a socket from one session is in order, without duplicates, and all of it if the client was never closed and is drained |
| `Sessions.EvictedForGood` | src/broker.rs:90-96 | an evicted client is out of the clients and the broadcast names for the rest of the run |
| `Sessions.SubscribedAfterEviction` | src/broker.rs:636-647 | it is in the subscriptions again only if its own registration had not come to them when the eviction began |
| `Counters.LoopOwes` | src/broker.rs:156-165 | a loop owes one frame and its length for each subscriber it has not come to |
| `Counters.Conservation` | src/broker.rs:103-201 | in every state the broker's counter is the sum over all clients plus what running tasks owe plus the shares of the subscribers that tasks given up had not come to, modulo 2^64; at rest it is the sum exactly when those shares add up to nothing |
| `Counters.CountersAreTraffic` | src/broker.rs:103-201 | in every state each counter, of the broker and of every client, together with what running tasks have still to add to it, is the traffic of the run modulo 2^64: one frame and its length for each message received, one frame and six bytes for each acknowledgement, one frame and its length for each registered target found and for each subscriber collected; a client misses what was left for it in tasks given up, the broker nothing |
| `Counters.FramesReceived` | src/broker.rs:103-201 | of that traffic, the frames received are as many as the messages received |
| `Counters.LooksUpInHand` | src/broker.rs:103-201 | a target is looked up for a message and subscribers are collected for a fan-out, in both cases the last one the task received |
| `Counters.GivingUpLoses` | src/broker.rs:81-87 | in every run a task that may be given up is at a point of a fan-out loop, and what is lost with it is what it owes: the shares of the subscribers it has not come to |
| `Counters.LostIs` | src/broker.rs:81-87 | nothing received is ever lost, and nothing sent exactly when every task given up had come to all of its subscribers |
| `Counters.ExactUnlessGivenUp` | src/broker.rs:103-201 | the counters agree whenever no task runs, provided no task was given up before it came to all its subscribers |
| `Counters.EndedSessionLoses` | src/broker.rs:1439-1457 | a run in which a session ends in the middle of a broadcast: no deadline passed, no task runs, and the broker has counted one frame more than its clients |
| `RpcCodec.AcceptedInBounds` | src/rpc.rs:121-249 | of an accepted event `code` never panics, `id` exactly on a notification with fewer than five bytes of payload, `method` exactly on notifications and on replies without a separate header of more than five bytes |
| `RpcCodec.ZeroCopyIff` | src/rpc.rs:121-249 | of the headers accepted separately, nothing an application can ask tells the split from the flat form exactly when the header is well-formed and, for a notification, the data give the same id |
| `RpcCodec.ViewIff` | src/rpc.rs:181-249 | what the layer itself asks, by kind, is the same in both forms exactly for the well-formed headers |
| `RpcCodec.NotificationIds` | src/rpc.rs:129-140 | where the id of a notification panics in each form, and that the two ids agree exactly when both panic or the bytes are equal |
| `RpcCodec.NotificationIdDiffers` | src/rpc.rs:129-140 | a notification whose id differs between the two forms |
| `RpcCodec.ReplyMethodPanics` | src/rpc.rs:148-155 | asking any reply the code builds for its method panics, in both forms |
| `RpcCodec.CallParses` | src/rpc.rs:437-445 | a request header yields its id, method and parameters when split, and when flat exactly if the method has no NUL |
| `RpcCodec.ReplyParses` | src/rpc.rs:366-402 | a reply header yields its id and payload, split and flat |
| `RpcCodec.ErrorParses` | src/rpc.rs:366-402 | an error header yields its id, signed code and payload, split and flat |
| `RpcCodec.I16RoundTrip` | src/rpc.rs:163-179 | every signed 16-bit error code survives its two bytes |
| `RpcCodec.CodesDistinct` | src/rpc.rs:691-699 | error kinds map to distinct codes, none of them one of the five of section 5.1 of JSON-RPC 2.0 |
| `RpcCalls.ReplyBelongs` | src/rpc.rs:330-434 | a reply that finds a pending call was made for that call |
| `RpcCalls.NewIdIsFree` | src/rpc.rs:559-572 | within one id cycle a new call never replaces the entry of a pending one |
| `RpcCalls.RunKeepsInv` | src/rpc.rs:320-434 | in every run messages, handlers, pending calls and results fit together |
| `RpcCalls.CallGetsItsOwnResult` | src/rpc.rs:552-602 | in every run a completed call returned what its reply says; if a handler made the reply, it ran at the call's target on its own method and parameters; and if the target sends no stray replies that is so exactly when it is the sender |
| `RpcCalls.RequestStartsHandler` | src/rpc.rs:345-365 | a request that is read starts a handler at the peer called, with the method and parameters of the call |
| `RpcCalls.OutcomeIsSent` | src/rpc.rs:366-403 | whatever the handler of a call returns is sent to the caller under the id of the call |
| `RpcCalls.ReplyCompletes` | src/rpc.rs:406-419 | a reply read while its call is pending, an error or not, completes that call with the outcome of the handler and no other; otherwise it changes nothing |
| `RpcCalls.PendingUntilAnswered` | src/rpc.rs:406-419 | a pending call stays so until it is cancelled or a reply that names its id is read, and then it has it |
| `RpcCalls.PendingIffUnanswered` | src/rpc.rs:572-601 | in every run the pending calls are exactly those without a reply whose caller waits or has abandoned them |
| `RpcCalls.CallCompletes` | src/rpc.rs:320-601 | from every state in which a call may be made, for all ways its frames travel and everything its handler may return, the call can be carried through in five steps and has then returned exactly that, with nothing else touched |
| `RpcCalls.StrayResolves` | src/rpc.rs:405-420 | a reply put together by any peer resolves the call whose id it names |
| `FlushTtl.RunKeepsInv` | src/comm.rs:37-83 | in every interleaving lock, bytes and pending flushes fit together |
| `FlushTtl.WriterPromises` | src/comm.rs:64-75 | bytes go out in order, none lost or invented; queueing a token never blocks under the lock |
| `FlushTtl.UncoveredIff` | src/comm.rs:42-50 | between frames a byte waits with no flush coming exactly when the flusher timed out on it, with no token queued, since the last frame |
| `FlushTtl.FinalFlush` | src/comm.rs:51-57 | after a drop the last flush is pending until everything is out, unless it times out with bytes left; and with the flusher stopped those stay |
| `FlushTtl.RealtimeIsOut` | src/comm.rs:64-75 | when a realtime write returns everything written is out |
| `FlushTtl.FrameGoesOut` | src/broker.rs:1700-1739 | once the writes of a realtime frame have returned, the frame and everything before it is out, then and ever after; once those of any other frame have, a flush is queued |
| `FlushTtl.FlusherAdvances` | src/comm.rs:42-50 | between frames, while covered bytes wait, the flusher can always take a step that brings it nearer to an empty buffer |
| `FlushTtl.TimeoutForgets` | src/comm.rs:42-50 | a run in which a timeout leaves a byte with no flush pending |
| `Pubsub.FirstMatchIsShortest` | src/tools/pubsub.rs:114-136 | in key order the first matching prefix is the shortest |
| `Pubsub.RouteUnique` | src/tools/pubsub.rs:114-136 | a topic has one route, whatever the order of registration |
| `Pubsub.SubtopicCompletesTopic` | src/tools/pubsub.rs:37-39 | the prefix followed by the subtopic is the topic |
| `Pubsub.TopicBroker.RegisterTopic` | src/tools/pubsub.rs:83-92 | a new topic is added; a known one is refused and nothing changes |
| `Pubsub.TopicBroker.RegisterPrefix` | src/tools/pubsub.rs:93-113 | a new prefix is added in key order; a known one is refused and nothing changes |
| `Pubsub.TopicBroker.Process` | src/tools/pubsub.rs:114-136 | a frame goes to the one channel that is its only route, exact topics first, or is handed back; a closed channel is an error |

## Left out

- The `submap` tries (`SubMap`, `BroadcastMap`, `AclMap`): a map from names to clients and topics; whether a mask matches
  is a predicate supplied from outside.
- Sockets, timers, task scheduling, fifo, signals and logging; timeouts are steps or parameters where a property names them.
- src/cli.rs, src/server.rs, the examples, MessagePack and serde payloads, the Python and JavaScript bindings.
- IP matching and the AAA builders (access is a predicate), UTF-8 validation (a predicate), src/borrow.rs.
- `RpcClient::call0` and `notify`, the pinger, `BrokerStats` and the other broker RPC methods: easy members.
- src/comm.rs, the processor and `call` of src/rpc.rs, and the handshake are step machines on values, not classes: their
  subject is interleaving, which a sequential method does not show.
- IpcClient.Client.SendAddressed: a write that fails or times out, which leaves its confirmation pending, is not modelled.
- IpcClient.Client.SendTopics: the same.
- IpcClient.Client.SendPing: the same.
- Registry.BrokerDb.DropClient: the `registered` flag of an in-process handle, which only decides whether its destructor
  drops again, is not modelled.
- Registry.BrokerDb.ListClients: the order of the listing and its other columns are not modelled.
- Delivery.SafeSendFrame: one delivery runs at a time, with the announcements inside it; interleaved deliveries are in
  `Sessions`, and counter wrap-around is in `Counters`.
- Delivery.AnnounceDeparture: the announcement of a registration is the same publication with another payload and is not
  written out; the announcing client is the broker's default one, in process.
- Sessions.FanOutOutcome: names are not modelled, so the drops of others may take any entry at any time; a frame
  given up while its task waited is not covered, and its session is over.
- Locks.NoDeadlock: covers the locks of the registry; the lock of the announcing client is the subject of `Delivery`.
- Handshake.Agreement: assumes no input or output failure and a name that is valid text, as the client's type guarantees.
- Acks.ConfirmationIsVerdict: assumes less than one id cycle outstanding and a connection that stays up.
- RpcCalls.CallGetsItsOwnResult: assumes less than one id cycle outstanding and that a name is not handed to another peer.
