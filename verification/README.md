# A verified model of the Nym libp2p transport

rust-libp2p-nym gives libp2p an ordered, multiplexed connection over the Nym mixnet, which
promises delivery in no particular order. This project models the five source files that do
that work and proves what they guarantee over whole runs:

* **Wire codec** (`Codec`): nested encoders and decoders with big-endian nonces.
* **Reordering receiver** (`Queue`, `Receiver`): the nonce-ordered queue in front of each
  connection's channel. `QueueState` is the queue as a map from nonce to message;
  `MessageQueue` is the mutable object over a sorted set.
* **Transport** (`TransportSpec`, `NymTransport`): connections, pending dials and queues of
  one node, as step functions on a `Node` value and as a class refining them.
* **Handshake** (`Handshake`, `HandshakeProgress`): any number of nodes over a network that delays, reorders,
  duplicates and loses messages.
* **Multiplexer** (`MuxerSpec`, `Connection`) and **substreams** (`SubstreamSpec`,
  `Substream`): step functions and the classes refining them.
* **Two endpoints** (`Duplex`, `DuplexInvariant`, `DuplexTheorems`, `DuplexProgress`): both ends of one
  connection, with every actor's "take a nonce" and "send" as separate steps, so that all
  interleavings of the substreams and the connection are runs. The network may deliver any
  message the peer ever sent, any number of times, in any order, and the handshake message
  at any moment.

The classes follow the source's objects: fields are updated in place, the drain and poll
loops are loops, and each method's contract ties the new state to a step function. The
theorems are about runs of those step functions. `TransportSpec.NodeRunsLinks` shows that
each connection of a running node is one `Receiver` link, which is what an endpoint of
`Duplex` runs; `DuplexTheorems.WriteIsTwoSteps` and its neighbours show that the split steps,
left undisturbed, are the calls the classes implement.

Where the source panics, the model reports an outcome (`Panicked`, `Panics`); panic freedom
is the statement that this outcome is not reached.

## What the code does not keep

Seven promises fail on some inputs. Each has the exact condition, and where it helps a failing
input.

* The documented queue invariant (`src/queue.rs:22-24`) is not kept by `try_push` alone
  (`Queue.PushKeepsStrictIff`, `Queue.PushAloneBreaksStrictness`); a complete step of the
  transport restores it except in one described case (`Receiver.StepKeepsStrictIff`).
* A transport message with nonce 0 that precedes the handshake makes the handshake panic, and
  nothing else does (`TransportSpec.HandshakePanicsIff`).
* A node that dials its own address is both connected and dialing under one id, and the dial
  is never resolved; this happens for no other dial (`Handshake.Agreement`,
  `Handshake.SelfDialNeverResolves`, `Handshake.SelfDialRun`).
* `poll_close` takes its nonce before it checks whether the stream is closed, so "increments
  by 1 for every TransportMessage sent" (`src/message.rs:86`) fails exactly when a closed
  stream is closed (`SubstreamSpec.CloseBurnsIff`); from then on the whole connection is stuck
  at that nonce (`DuplexTheorems.LostNonceBlocks`). An empty write has the same effect, because
  it encodes but does not decode. Short of that everything can get through
  (`DuplexProgress.GetsThroughIff`).
* `poll_read` reports fewer bytes than it placed in exactly one case
  (`SubstreamSpec.ReportedCountIff`), so a reader that trusts the count loses bytes exactly in
  the runs in which that case occurs (`SubstreamSpec.ToldIff`, `SubstreamSpec.ShortReadHistory`,
  `DuplexTheorems.ReaderIsTold`).
* Bytes that arrived but were not read when the peer's Close is processed are never handed out
  (`SubstreamSpec.SignalStopsReading`); otherwise reading reaches every byte
  (`SubstreamSpec.ReadableIff`).
* A substream that the application drops before its peer's Close is processed makes that Close
  panic in `handle_close` (`MuxerSpec.PanicsIff`, `MuxerSpec.CloseAfterDropPanics`); between two
  endpoints this is the only panic (`DuplexTheorems.PanicFreedom`).

The control messages of a transport message take 73 bytes, 74 with the leading message tag.

## Model

| member | source | states |
|---|---|---|
| `BigEndian.FromToBytes` | src/message.rs:177 | a number below 256^k survives big-endian encoding in k bytes |
| `BigEndian.ToFromBytes` | src/message.rs:188-193 | every byte string is the big-endian form of the number read from it |
| `BigEndian.BigEndianAt` | src/message.rs:177 | the most significant byte comes first: byte i is the digit of weight 256^(k-1-i) |
| `Codec.TransportLayout` | src/message.rs:176-181 | byte by byte: nonce big-endian, connection id, substream id, type byte 0 to 3, data |
| `Codec.ConnectionLayout` | src/message.rs:112-123 | byte by byte: id, recipient flag, recipient, peer id |
| `Codec.MessageLayout` | src/message.rs:297-315 | the leading byte is 0, 1 or 2 by kind |
| `Codec.TransportAcceptedIff` | src/message.rs:183-197 | which byte strings decode, and which error every other one gets |
| `Codec.ConnectionAcceptedIff` | src/message.rs:125-172 | the same for connection messages, given what the foreign codecs accept |
| `Codec.MessageAcceptedIff` | src/message.rs:97-108 | the same for the leading byte |
| `Codec.SubstreamRoundTrip` | src/message.rs:261-293 | decoding an encoded substream message returns it, or refuses it exactly when it is an empty Data |
| `Codec.TransportRoundTrip` | src/message.rs:175-198 | the same through nonce and connection id |
| `Codec.ConnectionRoundTrip` | src/message.rs:111-173 | handshake messages round-trip, with and without a recipient, given that the foreign codecs do on their values |
| `Codec.MessageRoundTrip` | src/message.rs:96-108 | every message round-trips through all levels except an empty Data, which is always refused |
| `Codec.EncodingIsInjective` | src/message.rs:296-316 | two messages with the same bytes are equal, including those the decoder refuses |
| `Codec.SubstreamReencoding` | src/message.rs:270-293 | re-encoding an accepted substream message gives a prefix of the input |
| `Codec.TransportReencoding` | src/message.rs:183-197 | re-encoding gives the whole input for Data and its first 73 bytes otherwise |
| `Codec.MessageReencoding` | src/message.rs:97-108 | the same with the message tag: whole input or first 74 bytes |
| `Codec.SubstreamToBytes` | src/message.rs:261-268 | the buffer-filling encoder; its output decodes unless the message is an empty Data |
| `Codec.TransportToBytes` | src/message.rs:176-181 | the buffer-filling encoder and its exact output length |
| `Codec.ConnectionToBytes` | src/message.rs:112-123 | the buffer-filling encoder produces the encoding |
| `Codec.MessageToBytes` | src/message.rs:297-315 | the buffer-filling encoder; its output decodes to the message |
| `Queue.PushKeepsWeak` | src/queue.rs:55-76 | `try_push` keeps "no waiting nonce is below the expected one", and strictness when nothing is returned |
| `Queue.PushKeepsStrictIff` | src/queue.rs:22-25 | `try_push` breaks the documented invariant if and only if it hands out the expected message while the next one waits |
| `Queue.PushAloneBreaksStrictness` | src/queue.rs:22-25 | `try_push` alone breaks the documented invariant, on a concrete queue |
| `Queue.InsertRefinesMap` | src/message.rs:200-218 | inserting into the set under nonce-only equality keeps it sorted and, as a map, keeps the first message of each nonce |
| `Queue.PopFirstRefinesMap` | src/queue.rs:78-85 | the head has the least nonce, and popping it removes exactly that nonce |
| `Queue.MessageQueue.constructor` | src/queue.rs:29-34 | a new queue expects nonce 0 and is empty |
| `Queue.MessageQueue.SetConnectionMessageReceived` | src/queue.rs:43-49 | panics exactly when the expected nonce is not 0, else sets it to 1 |
| `Queue.MessageQueue.TryPush` | src/queue.rs:55-76 | the sorted-set object behaves as the map: return the expected message, drop old ones, keep the first of later ones |
| `Queue.MessageQueue.Pop` | src/queue.rs:78-89 | returns a message exactly when the least waiting nonce is the expected one |
| `Receiver.FirstByPosition` | src/queue.rs:67-72 | the reference map holds, for each nonce, the message at its earliest arrival position |
| `Receiver.Reordering` | src/transport.rs:146-183 | over every run with nonces 1 to 2^64-1: before the handshake all first arrivals wait; after it the channel holds nonces 1..k in order, k maximal, and the others wait |
| `Receiver.NothingFails` | src/transport.rs:255-304 | in such a run no step panics or fails, apart from a repeated connection message |
| `Receiver.ArrivalSettles` | src/transport.rs:255-304 | one transport message, in any position relative to the expected nonce, restores that picture |
| `Receiver.DrainSettles` | src/transport.rs:289-297 | the drain loop forwards exactly up to the first missing nonce |
| `Receiver.OrderIndependence` | src/transport.rs:255-304 | runs with the same arrivals, in any order, with any duplicates and handshake moment, forward the same sequence and leave the same queue |
| `Receiver.DeliveredIff` | src/queue.rs:55-89 | nonce n is delivered if and only if the handshake and all of 1..n arrived, and then nothing at or below n waits |
| `Receiver.MissingNonceBlocks` | src/queue.rs:78-89 | if nonce k never arrives, no continuation delivers nonce k or above |
| `Receiver.ForwardingOnlyAppends` | src/queue.rs:60-72 | later events only append; a duplicate never replaces or re-delivers a message |
| `Receiver.ReceiveFailsIff` | src/transport.rs:268-287 | a transport message fails if and only if it carries the expected nonce and finds no connection or nobody behind it; its nonce is used up, nothing is forwarded |
| `Receiver.DeadLinkForwardsNothing` | src/transport.rs:284-287 | once its `Connection` is gone a link forwards nothing more, in any continuation |
| `Receiver.DrainToNobody` | src/transport.rs:289-297 | a drain with nobody behind it loses exactly the one message it popped |
| `Receiver.DrainRestoresStrictness` | src/transport.rs:162-170 | a drain turns "at least the expected nonce" into "strictly greater" |
| `Receiver.StepKeepsStrictIff` | src/queue.rs:22-25 | every complete step restores the documented invariant except in exactly one case |
| `TransportSpec.ReceiveKeepsEstablished` | src/transport.rs:255-304 | on a numbered message an established link stays established and neither panics nor misses its connection |
| `TransportSpec.OwnStepKeepsEstablished` | src/transport.rs:328-356 | the same for every event a node handles |
| `TransportSpec.Establishment` | src/transport.rs:187-216 | over every run with nonces from 1, an id is connected if and only if its queue expects nonce 1 or later, until all of 1 to 2^64-1 have arrived for it; the "received twice" panic and the missing-connection errors never occur |
| `TransportSpec.WrapsWhenExhausted` | src/queue.rs:61 | that limit is exact: a live connection's queue expects 0 again if and only if all of 1 to 2^64-1 arrived |
| `TransportSpec.BeforeHandshake` | src/queue.rs:55-58 | before the handshake every nonce below the expected one has arrived, and the expected one is 0 only if nonce 0 has not arrived or all u64 nonces have |
| `TransportSpec.HandshakePanicsIff` | src/queue.rs:43-49 | a connection message otherwise accepted panics if and only if a nonce-0 message of that id arrived earlier; only after all 2^64 nonces arrived may it escape |
| `TransportSpec.ZeroNonceThenRequestPanics` | src/transport.rs:157-159 | a concrete failing input for the above |
| `TransportSpec.HandshakeLink` | src/transport.rs:220-253 | a connection message leaves its link alone or initiates it; a connection that cannot be handed over is dropped at once |
| `TransportSpec.RequestIsAnsweredIff` | src/transport.rs:220-253 | every way a connection request can end, with its exact condition; it is accepted if and only if one response with the node's own peer id goes to its sender |
| `TransportSpec.ResponseResolvesIff` | src/transport.rs:187-216 | every way a connection response can end; the connection is handed over if and only if the dial is still waited for and no nonce-0 message came first |
| `TransportSpec.RequestIsAnswered` | src/transport.rs:220-253 | so after any run a stranger's request, with no nonce-0 message before it, is accepted and answered |
| `TransportSpec.ForeignEventsDoNothing` | src/transport.rs:328-356 | handling an event changes nothing of another connection |
| `TransportSpec.OwnEventsDependOnSlice` | src/transport.rs:328-356 | what an event does to its connection depends only on that connection's state |
| `TransportSpec.Isolation` | src/transport.rs:255-304 | what a node holds about a connection after any run is what that connection's own events produce |
| `TransportSpec.NodeRunsLinks` | src/transport.rs:328-356 | each connection of a running node behaves as one reordering link |
| `TransportSpec.NodeDeliversInOrder` | src/transport.rs:255-304 | so each was forwarded exactly the first arrivals of 1..k, k maximal |
| `NymTransport.DrainQueue` | src/transport.rs:289-297 | the drain loop on the mutable queue computes the specified drain, also when the receiver is gone |
| `NymTransport.ReceiveOn` | src/transport.rs:268-297 | push, then drain, on the mutable queue |
| `NymTransport.InitiateOn` | src/transport.rs:156-171 | the handshake reaches the mutable queue |
| `NymTransport.NymTransport.HandleTransportMessage` | src/transport.rs:255-304 | the object's new state and outcome are those of the step function |
| `NymTransport.NymTransport.EstablishConnection` | src/transport.rs:200-201 | likewise for storing a connection and releasing what waited |
| `NymTransport.NymTransport.HandleConnectionRequest` | src/transport.rs:220-253 | likewise, with the response sent, the refusals and the failed send |
| `NymTransport.NymTransport.HandleConnectionResponse` | src/transport.rs:187-216 | likewise, with the dial resolved or its waiter gone |
| `NymTransport.NymTransport.HandleInboundMessage` | src/transport.rs:328-356 | likewise for any inbound message |
| `NymTransport.NymTransport.StartDialing` | src/transport.rs:409-440 | a dial is recorded as pending and its request sent |
| `NymTransport.NymTransport.Poll` | src/transport.rs:470-497 | the loop handles messages in order, sends what they call for and stops exactly at the first accepted request or failure |
| `NymTransport.InboundRunIsNodeRun` | src/transport.rs:470-497 | what the loop runs is a run in the sense of the theorems |
| `Handshake.InboundEffect` | src/transport.rs:328-356 | one message keeps connections and remotes, removes a dial only when a response connects it, and answers only a request just accepted |
| `Handshake.StepKeepsInv` | src/transport.rs:187-253 | every step of the network of nodes keeps the handshake invariant |
| `Handshake.Agreement` | src/transport.rs:187-253 | at every moment of every run, a connected dialer is matched by the listener it dialed, with the same id and its own address; a connected node still dials under that id if and only if it dialed itself |
| `Handshake.ResolvingConnects` | src/transport.rs:192-201 | a dial disappears only by becoming a connection to the address dialed |
| `Handshake.ResolvedAtMostOnce` | src/transport.rs:188-194 | each pending dial is resolved at most once and stays connected |
| `Handshake.ResponseResolves` | src/transport.rs:187-216 | a response to a pending dial resolves it if and only if the node did not dial itself |
| `Handshake.SelfDialNeverResolves` | src/transport.rs:188-190 | the dial of one's own address is never resolved, in any continuation of any run |
| `Handshake.SelfDialRun` | src/transport.rs:409-441 | a run of two steps after which a node is connected and dialing under one id |
| `HandshakeProgress.StepKeepsHonest` | src/transport.rs:187-253 | every step keeps: each call was asked for under the dialer's identity, each answer bears the target's, a connected target has answered |
| `HandshakeProgress.IdentityAgreement` | src/transport.rs:192-197 | in every run, a connection knows its remote by the peer id the remote really has |
| `HandshakeProgress.WaitingIff` | src/transport.rs:418-440 | a pending dial is waited for if and only if its future was not dropped |
| `HandshakeProgress.DialCanComplete` | src/transport.rs:187-253 | from any moment of any run, a pending dial of another node has a continuation that connects both ends to each other, unless a nonce-0 message was sent for it; the dialer's connection is handed over if and only if the dial is still waited for |
| `SubstreamSpec.ReadConserves` | src/substream.rs:93-149 | bytes placed, kept back and waiting are the bytes there before; the rest of the buffer is untouched |
| `SubstreamSpec.ReadResultIff` | src/substream.rs:98-149 | for every state and buffer: error iff closed or signalled, `Pending` iff nothing can be handed out, a count otherwise |
| `SubstreamSpec.ReportsZeroIff` | src/substream.rs:129-146 | a read with room reports 0, the end of the stream, only for an empty chunk |
| `SubstreamSpec.ReadFillsBuffer` | src/substream.rs:103-138 | an open read takes at most one chunk and fills the buffer as far as left-over and chunk go; a closed one touches nothing |
| `SubstreamSpec.ReportedCountIff` | src/substream.rs:129-146 | the reported count is the number placed except exactly when 0 < left-over < buffer length and a chunk is ready, and then it omits the left-over |
| `SubstreamSpec.ToldIff` | src/substream.rs:129-141 | over any history, the bytes the reported counts account for are the bytes placed if and only if no read had left-over bytes, room for more and a chunk ready; otherwise they are strictly fewer |
| `SubstreamSpec.ShortReadHistory` | src/substream.rs:136-141 | a failing history: three bytes placed, two reported |
| `SubstreamSpec.NothingPlacedIff` | src/substream.rs:98-149 | exactly when a read places nothing |
| `SubstreamSpec.StreamConservation` | src/substream.rs:93-149 | conservation over any sequence of calls, buffer sizes and arrivals |
| `SubstreamSpec.EmissionsOrdered` | src/substream.rs:153-222 | what one end sends has increasing nonces and at most one Close, which is last |
| `SubstreamSpec.CloseIsFinal` | src/substream.rs:71-89 | once closed: closed for good, nothing more sent or read, and each further close call burns one nonce |
| `SubstreamSpec.ClosedIff` | src/substream.rs:71-89 | an end is closed exactly when it called close, or looked after the peer's Close was processed |
| `SubstreamSpec.CloseBurnsIff` | src/substream.rs:194-200 | a close call burns its nonce, instead of sending, exactly in that case |
| `SubstreamSpec.WriteRefusedIff` | src/substream.rs:153-184 | a write is refused iff this end called close or the peer's Close was processed; otherwise all its bytes are reported and sent |
| `SubstreamSpec.CloseRefusedIff` | src/substream.rs:194-222 | a close call is refused iff it burns its nonce |
| `SubstreamSpec.SendFailsIff` | src/substream.rs:162-181 | with the mixnet channel gone an open end takes a nonce, sends nothing and reports it; a close still closes |
| `SubstreamSpec.NoncesAddUp` | src/substream.rs:162-200 | one nonce per sending call: sent, burnt and others' nonces add up to the counter |
| `SubstreamSpec.WritesAreSent` | src/substream.rs:153-184 | over any history, the bytes reported written are the bytes sent, in order |
| `SubstreamSpec.CloseCarriesLargestNonce` | src/substream.rs:194-222 | the Close carries the largest nonce this end ever sends there, in every continuation |
| `SubstreamSpec.SignalStopsReading` | src/substream.rs:98-101 | after the peer's Close was processed no byte is handed out any more |
| `SubstreamSpec.ReadingPlacesEverything` | src/substream.rs:93-149 | before that, as many reads as bytes and chunks are left, into any non-empty buffers, place every byte that arrived |
| `SubstreamSpec.ReadableIff` | src/substream.rs:98-101 | all that arrived can still be read if and only if the end is open and unsignalled, or nothing is left |
| `Substream.Substream.CheckIfClosed` | src/substream.rs:71-89 | the object's check is the specified one |
| `Substream.Substream.TakeUnread` | src/substream.rs:105-116 | the left-over is copied to the front of the buffer in place |
| `Substream.Substream.TakeChunk` | src/substream.rs:128-138 | the chunk follows it and what does not fit is kept |
| `Substream.Substream.Read` | src/substream.rs:93-149 | the in-place read is the specified one, for state, buffer and count |
| `Substream.Substream.Write` | src/substream.rs:153-184 | state and result; under the shared counter's old value goes out one Data with the caller's bytes, this substream's and connection's ids, to the remote; nothing when refused or the channel is closed |
| `Substream.Substream.FlushAll` | src/substream.rs:186-192 | a flush only checks |
| `Substream.Substream.CloseStream` | src/substream.rs:194-222 | likewise one Close; the nonce is taken in every case |
| `MuxerSpec.StepKeepsBooks` | src/connection.rs:196-257 | one operation keeps the books below |
| `MuxerSpec.Bookkeeping` | src/connection.rs:124-179 | for arbitrary inbound messages the two channel maps have the same keys, and accepted requests, responses sent and substreams offered are the same sequence, and each processed Close is reported once, in order |
| `MuxerSpec.PanicsIff` | src/connection.rs:150-163 | after any run: exactly which messages panic and which fail; the missing close sender never occurs |
| `MuxerSpec.CloseAfterDropPanics` | src/connection.rs:155-157 | a dropped substream and its peer's Close panic, on a concrete run |
| `MuxerSpec.StepOnChannel` | src/connection.rs:238-251 | what each operation does to one substream's channel: its Data is appended, its Close removes it, nothing else touches it |
| `MuxerSpec.StepWithoutChannel` | src/connection.rs:124-136 | a channel comes into being, empty, exactly with its substream |
| `MuxerSpec.ChannelHoldsArrivals` | src/connection.rs:241-251 | over any history, the channel of an open, undropped substream receives exactly the Data that arrives for it, in order |
| `MuxerSpec.DroppedChannelIsSilent` | src/connection.rs:248-250 | and that of a dropped one nothing |
| `MuxerSpec.OpenedChannel` | src/connection.rs:124-148 | from the opening on, by either side, that is all it holds |
| `MuxerSpec.SendsInSequence` | src/connection.rs:90-112 | whoever sends, the messages of a connection carry 1, 2, 3 and so on, its id and its remote |
| `MuxerSpec.OpenOutboundIff` | src/connection.rs:95-121 | when an outbound open fails and with what, what it sends and what it leaves behind |
| `MuxerSpec.RequestIff` | src/connection.rs:202-229 | the same for an inbound request, answered with the connection's next nonce |
| `MuxerSpec.PollAllIsRun` | src/connection.rs:196-257 | the poll loop is a run: it handles every message in turn, stops at the first failure and reports it |
| `Connection.Connection.NewSubstream` | src/connection.rs:124-148 | refuses a used id, else stores both senders and returns a fresh substream with the connection's address and id, sharing its counter and channel |
| `Connection.Connection.NewOutboundSubstream` | src/connection.rs:95-121 | request sent, substream created, pending and sharing the connection's counter and channel, or the failure and what it leaves behind |
| `Connection.Connection.HandleClose` | src/connection.rs:150-163 | the object's close is the specified one, panics included |
| `Connection.Connection.HandleOpenRequest` | src/connection.rs:202-229 | likewise for an inbound request; the substream offered is new and speaks for this connection |
| `Connection.Connection.HandleData` | src/connection.rs:241-251 | likewise for data, also to a dropped substream |
| `Connection.Connection.HandleMessage` | src/connection.rs:201-252 | likewise for any message |
| `Connection.Connection.Poll` | src/connection.rs:196-257 | the loop is the specified one: how far it got and what stopped it; all substreams it offers speak for this connection |
| `Connection.Connection.PollInboundSubstream` | src/connection.rs:170-179 | the oldest offered substream is the one handed out |
| `Connection.Connection.PollClosed` | src/connection.rs:188-194 | closing is reported once for every substream the peer closed |
| `Duplex.ForwardedWasSent` | src/transport.rs:255-304 | what reached a connection is what the peer sent, nonce by nonce, and never an empty Data |
| `DuplexInvariant.SendKeepsLedger` | src/connection.rs:97-112 | sending under a held nonce keeps the nonce ledger truthful |
| `DuplexInvariant.EmissionKeepsStreams` | src/substream.rs:162-181 | a substream's Data and Close keep its messages ordered: opening, data, one close |
| `DuplexInvariant.AcceptorHasOpener` | src/connection.rs:202-204 | a side accepts only what the other side opened before |
| `DuplexInvariant.TrafficIsKnown` | src/connection.rs:238-251 | the next Data or Close is about a substream this side has, not yet closed, and no longer pending |
| `DuplexInvariant.NextIsRouted` | src/connection.rs:200-253 | so the next message is always one the multiplexer can route, or a Close of a dropped substream |
| `DuplexInvariant.DropKeepsMux` | src/substream.rs:26-49 | dropping a substream closes its receiving ends and keeps the bookkeeping of every substream true |
| `DuplexInvariant.TakingKeepsTxs` | src/connection.rs:241-251 | what the multiplexer sends into a channel is what reaches its substream |
| `DuplexInvariant.StepKeepsInv` | src/connection.rs:196-257 | every step of either side, in every interleaving, keeps the two-party invariant |
| `DuplexTheorems.PanicFreedom` | src/connection.rs:150-163 | over every run, an endpoint is free of panics and protocol errors if and only if it never processed a Close for a substream its application had dropped |
| `DuplexTheorems.StepPanicsIff` | src/connection.rs:155-157 | step by step: what fails is exactly the second `unwrap` of `handle_close`, on a dropped substream; never the missing channel, the first `unwrap`, an unknown or a repeated substream id |
| `DuplexTheorems.NothingDroppedNothingPanics` | src/connection.rs:150-163 | so no run in which nothing is dropped reaches any of them |
| `DuplexTheorems.NextMessageRoutes` | src/connection.rs:243-246 | at every moment of every run the next message routes, except a Close of a dropped substream |
| `DuplexTheorems.SubstreamFifo` | src/substream.rs:153-184 | end-to-end: chunks routed into a substream are a prefix of those its peer sent there, in order, without repeats; until the peer's Close they are what the multiplexer sent into its channel |
| `DuplexTheorems.ByteStream` | src/substream.rs:93-149 | end-to-end: bytes placed in read buffers are a prefix of the bytes given to the peer's writer |
| `DuplexTheorems.ReaderIsTold` | src/substream.rs:129-141 | end-to-end: the reader is told of all bytes placed, hence of a prefix of what the peer wrote, if and only if none of its reads was the miscounting one |
| `DuplexTheorems.AllTakenAllRouted` | src/connection.rs:238-251 | once every nonce the peer took was taken here, an undropped substream was routed all its peer sent |
| `DuplexTheorems.NonceAccounting` | src/connection.rs:205-220 | sent, held and burnt nonces are disjoint and together exactly 1..counter-1, none twice |
| `DuplexTheorems.ReachesIff` | src/queue.rs:55-89 | n messages can still get through if and only if the peer sent all of 1..n and none of them as an empty write |
| `DuplexTheorems.LostNonceBlocks` | src/substream.rs:195-200 | after a burnt nonce or an empty write, nothing from that nonce on is ever forwarded, on any substream |
| `DuplexProgress.EverythingGetsThrough` | src/transport.rs:255-304 | from any moment of any run with nothing dropped and no nonce lost or about to be, some continuation routes everything the peer sent to its substream |
| `DuplexProgress.GetsThroughIff` | src/substream.rs:195-200 | that limit is exact: a continuation that takes every nonce the peer took exists if and only if none was burnt, spent on an empty write, or is held by a call that will do so |
| `DuplexTheorems.PendingIsLive` | src/connection.rs:114-121 | a pending substream is a live one this side opened and that was not answered yet |
| `DuplexTheorems.ClearedAtMostOnce` | src/connection.rs:230-237 | a pending entry is cleared by the response and never comes back |
| `DuplexTheorems.CloseIsLast` | src/substream.rs:194-222 | per side and substream: opening message first, at most one Close, last |
| `DuplexTheorems.WriteIsTwoSteps` | src/substream.rs:153-184 | taking a nonce and sending, undisturbed, are one write |
| `DuplexTheorems.CloseIsTwoSteps` | src/substream.rs:194-222 | likewise one close, which sends or burns |
| `DuplexTheorems.OpenIsTwoSteps` | src/connection.rs:95-121 | likewise one outbound open |
| `DuplexTheorems.AnswerIsTwoSteps` | src/connection.rs:202-229 | likewise one answered request |
| `DuplexTheorems.ProcessIsOneIteration` | src/connection.rs:230-252 | taking any other message is one iteration of `poll`, panics and failures included |

## Left out

- Mixnet I/O (`src/mixnet.rs`): websocket, task loop and Nym client requests are replaced by a network of sent messages.
- Wakers, `Pin`, `Context`, scheduling and tracing: no protocol state; polls are plain calls.
- Clocks: the dial timeout is the event `DialDropped`, which may happen at any time.
- The dial future: the connection request is sent with the dial; a future that is never polled is a request the network never delivers.
- Foreign codecs: recipients are 96 opaque bytes (the length does not matter to any proof) and peer ids are opaque; that their codecs round-trip is assumed, value by value (`Foreign.Lawful`).
- Random ids: freshness is assumed where ids are generated (`Handshake.Enabled`, `Duplex.Allowed`).
- Shared channel ends: in the classes each end of a channel holds its own value (what was sent, or what waits); `Duplex` joins the two ends.
- Listener events, multiaddresses, keys and error texts: constant or foreign behaviour.
- Nonce exhaustion: an endpoint of `Duplex` stops taking nonces after 2^64-1; the classes wrap around as the source does.
- Closing of the mixnet channel: an endpoint of `Duplex` always can send; the classes and `TransportSpec` also cover the closed channel.
- After a panic or once its `Connection` is dropped, an endpoint of `Duplex` opens, hears and processes nothing more, while its substreams go on writing, closing and reading what they have; a `Connection` is not dropped half-way through a call.
- NymTransport.NymTransport.Poll: the listener events that `poll` returns before it looks at inbound messages are not modelled.
- TransportSpec.HandshakePanicsIff: does not say which of the queues that took all 2^64 nonces before the handshake escape the panic; that depends on the order of arrival.
- DuplexProgress.EverythingGetsThrough: an endpoint answers requests under nonces of its own, so it asks for as many unused ones as the peer has taken.
