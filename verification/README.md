# KimRpc, modelled and proved in Dafny

KimRpc is an RPC framework: an io_uring server that dispatches requests as coroutines on a worker pool, a multiplexed
asynchronous client, and service discovery over etcd. This project models these three parts, and the muduo server's
parser beside them, and proves what they are relied on for.

## The model

**Wire format** (`ByteStrings`, `Wire`, `WireFormat`, `MuduoProvider`, `HeaderCodec`). Request and response frames byte
by byte, with the limits the providers apply. Protobuf is abstract: a header decoder, a header encoder, and a predicate
that says which argument strings decode. The one law asked of the codec is `Lawful`: a header whose fields and whose
encoding fit their wire types decodes to itself. `HeaderCodec` is the encoding that the client's serializer writes, with
a decoder of it, and meets the law for every header.

**Server** (`Connections`, `ConnectionManager`, `Reactor*`, `UringRpcProvider`). `Reactor` describes every handler of
the event loop as a function on the server's state. `ReactorRun` puts the server beside a kernel and a worker pool: the
kernel completes what it likes in any order with any result, partial sends and recvs included, gives out any descriptor
that is not open, lends any provided buffer, wakes the notify read for no reason; `io_uring_get_sqe` fails according to
an arbitrary function; workers interleave freely. A context is named by its place in the owning vector, which identifies
the object for ever. A submission entry holds a descriptor number and meets a socket only when the queue is handed over;
the loop then waits until a completion is posted, and only after that retries what found no entry. `ReactorInvariant` to
`ReactorSafety` prove one invariant of all runs; `ReactorStreams` to `ReactorStreamSafety` prove what passes over each
socket; `ReactorTheorems` says what follows. What each completion does to a connection is told by its fields alone in
`ReactorReceiving`, `ReactorSending`, `ReactorDelivering` and `ReactorTargets`, in every reachable world and for every
result: besides being safe, no step closes or leaves alone what it should go on with. `ReactorStale`, `ReactorStarved`
and `ReactorSleep` are about everything that can follow a given world, `ReactorSplit` about one thing that always can.
`ReactorFeed`, `ReactorAnswer` and `ReactorDrops` put runs together step by step, for the results that exhibit one
(`ReactorOvershoot`, `ReactorStaleRun`, `ReactorSleep`, `EndToEndRun`). The classes in `ConnectionManager` and
`UringRpcProvider` are the code itself, updating objects in place, and each method is proved to do what the function of
its name says; `UringRpcProvider.React` states it for a whole step of the loop.

**Client** (`Channel*`, `KimRpcChannel`). Callers, the receive thread, the timer thread and the destructor take steps in
any order; what happens under a lock is one step. `ChannelTorn` says when frames on a connection get mixed up,
`ChannelOrders` that no two connections carry frames of the same call, `ChannelHosts` when a request goes to the right
host, `ChannelProgress` what becomes of a call. The class in `KimRpcChannel` holds the critical sections and the socket
loops; `ChannelSections` shows that each critical section, run on the records, is one step of the thread that runs it.
The loops are proved against what they read, send and run, and not tied to the steps.

**Discovery** (`Base64`, `PrefixRange`, `Watch`, `AddressCache`, `Discovery`). The store is a log of events by revision;
a watch line is decoded abstractly into events and a revision. What a connection delivers is a function of the revision
it was asked for.

**End to end** (`EndToEnd`, `EndToEndOnce`, `EndToEndRun`). One channel, any number of io_uring providers, FIFO byte
streams between them: whose answer a call gets, that none is dispatched or answered twice, which responses are
discarded; and a run that meets every hypothesis of the theorem.

## What the proofs found

- *A response can go out on the wrong connection.* The generation number that `deliverResponse` checks guards the output
  queue, not the submission entries. If a connection is closed while an entry of it is still queued, and the kernel
  accepts a new connection under the same descriptor number before the next flush, the entry acts on the new socket.
  `ReactorStaleRun.ResponseOnWrongConnection` is a run in which this happens, for any provider, any request it accepts and
  any response. `ReactorStale.StreamsSurviveIff` shows that it is the only way: after an accept and the flush that follows
  it, the bytes on all sockets stay right in every continuation up to the next accept if and only if no queued entry names
  the accepted descriptor. The repository's README says that connId keeps reused descriptors from mixing connections up;
  the code does that for the queue (`ReactorTheorems.NoCrossTalk`, without any hypothesis) and not for the entries.
  Statements about bytes therefore carry the history flag `clean`: no accept so far returned a descriptor that a queued
  entry named.
- *256 is a soft limit.* It is tested only after the drain loop. If no request is shorter than L bytes, a connection has at
  most 256 + 4095 / L requests pending (`ReactorTheorems.PendingRequests`), and any accepted message whose frame has L
  bytes takes it there (`ReactorOvershoot.OvershootReached`). Where services and methods have names, and
  a header with both takes six bytes, as in every protobuf encoding, that is never more than 665
  (`ReactorOvershoot.NamedAtMost`), which one-letter names and empty arguments reach (`ReactorOvershoot.NamedReached`).
  1279 is an upper bound whatever the codec.
- *A response that does not serialise is never uncounted.* A connection with nothing in flight stays open and without any
  operation for good, whatever anyone does, exactly if 256 of its responses were dropped
  (`ReactorStarved.StarvedExactlyByDrops`). Any accepted message takes a connection there
  (`ReactorDrops.StarvedReached`).
- *The loop can sleep over a ready coroutine.* If `io_uring_get_sqe` fails when the notify read is to be armed again, that is
  retried only after the next wait, and the wait ends only when some other completion is posted. `ReactorSleep.SleepsExactly`
  shows when that matters: while the loop waits, ready coroutines are left until a peer acts if and only if the notify read
  is marked pending. `ReactorSleep.SleepReached` is a run to such a world, and `ReactorSleep.WakesIff` says what ends it: any
  completion at all, after which nothing is left pending as far as entries are free (`ReactorSleep.FlushRearms`).
- *A failed send can leave half a frame behind.* `sendLocked` neither closes the connection nor notices a reconnect in
  mid-frame. `ChannelTorn.SendTearsIff` says exactly when a send mixes frames up: it begins a frame after one that was cut
  off, or goes on with a frame that did not begin on this connection. `ChannelTorn.UnsentRequest` is a run after which the
  provider dispatches a request that no call sent: the first call's header, with the second call's frame as the end of its
  arguments. A connection on which that has happened is `torn` in the model, and statements about what a connection
  carries are about connections that are not.
- *A request can go to the wrong host.* `callAsync` leaves `ensureConnected`, and with it the lock, before it sends. If in
  between another caller connects the channel to a host of its own, the request goes there (`ChannelHosts.WrongHost`, for
  any two hosts and any requests). `ChannelHosts.RightHostIff`: it goes to the right one exactly if nobody has dialled since,
  or the last who did wanted the same host.
- *Paths below a path share its watch.* A lookup of a path also reads the keys of every path that goes on after a slash
  (`Discovery.ReadForPathIff`). Names of services and methods have no slash, and with that a lookup finds exactly the
  addresses registered for its method (`Discovery.FirstLookup`).
- *The two parsers differ beyond the limits.* The muduo provider skips a frame that it cannot serve, the io_uring provider
  closes the connection (`RpcProviders.LooseDrainOfFrames`, `RpcProviders.DrainOfFramesExactly`).

## Hypotheses

- `connId`, `m_nextId` and `rr` do not wrap.
- Statements that read integers back ask that they fit: ids in 8 bytes, sizes in 4, the encoded header's too (`Fits`,
  `ResponseFits`). The frames themselves are built with the truncation the code has.
- Nothing else in the process opens a descriptor between a channel thread's load of `m_clientfd` and the recv or send it
  is loaded for. The channel itself does not for the receive thread, however long its other threads run in between
  (`ChannelTheorems.OnlyClosedMeanwhile`); so load and call are one step, and a call on a closed number is a failed one.
- The channel is destroyed only when no call is being issued on it, and callbacks do not re-enter it.
- Asked for the events from revision r on, the store sends lines of which each takes up after the revision of the one
  before, the first at r, and carries every event up to its own revision (`Serves`); what arrives is that up to any byte
  (`Delivers`), on every connection and for every r up to the next revision (`HonestStore`).
- End to end, of the one connection that the answer came in on: each side has seen a prefix of what the other sent, it is
  not torn, the run of its provider is clean, and the codec is lawful. `EndToEndRun.HypothesesMet` shows that all of it
  can hold at once.
- In the runs that exhibit something, `io_uring_get_sqe` always finds an entry, except in `ReactorSleep.SleepReached`, where
  it fails once: when the first response wakes the loop.

## Model

| member | source | states |
|---|---|---|
| Wire.TryParse | src/uringrpcprovider.cc:663-761 | A verdict never reaches past the buffer; a dispatched frame is within the header and body limits, and the parser waits only while the buffer is below them. |
| Wire.ParseOfFrame | src/uringrpcprovider.cc:665-754 | A client frame parses to the very message it was built from if the message is acceptable, and is rejected otherwise: never misread, never waited for. |
| Wire.PartOfFrame | src/uringrpcprovider.cc:665-713 | A proper part of an acceptable frame makes the parser wait, whatever the part. |
| Wire.VerdictStable | src/uringrpcprovider.cc:665-713 | A decision once taken does not change when more bytes arrive. |
| Wire.DrainChunked | src/uringrpcprovider.cc:591-598 | Draining two chunks one after the other equals draining them at once: requests, close verdict and bytes left. |
| Wire.ChunkingIrrelevant | src/uringrpcprovider.cc:591-598 | For any split of a stream into recvs the requests, the close verdict and the rest depend on the concatenation only. |
| Wire.DrainLeavesIncomplete | src/uringrpcprovider.cc:591-598 | The drain loop leaves no complete request in the buffer unless it closes the connection. |
| Wire.ChunkCount | src/uringrpcprovider.cc:591-606 | If no request is shorter than L bytes, a chunk of n bytes completes at most 1 + (n - 1) / L requests. |
| Wire.ChunkCountTight | src/uringrpcprovider.cc:591-606 | For every accepted message with a frame of L bytes there are a buffer that waits and a chunk of n bytes that completes exactly 1 + (n - 1) / L requests. |
| Wire.DrainOfFrames | src/channel.cc:448-452 | Concatenated acceptable client frames, then an incomplete tail, are dispatched as the original messages, in order, and the tail is kept. |
| Wire.DrainOfTruncatedStream | src/channel.cc:448-452 | However such a stream is truncated, exactly the whole frames are dispatched. |
| Wire.DrainOfClientStream | src/channel.cc:448-452 | Of any client stream, acceptable or not, only a prefix of the messages sent is ever dispatched. |
| Wire.ReadOfResponseFrames | src/channel.cc:117-144 | Reading any prefix of concatenated response frames gives a prefix of the responses, and the whole gives all of them. |
| WireFormat.RequestBytes | src/channel.cc:448-452 | Byte by byte: header size in four bytes, low one first, then the header, then the arguments. |
| WireFormat.ResponseBytes | src/uringrpcprovider.cc:806-819 | Byte by byte: four of size, which counts id and body, eight of id, the body. |
| WireFormat.DispatchedIff | src/uringrpcprovider.cc:665-754 | A frame is dispatched if and only if its header takes at most 65536 bytes, its arguments at most 67108864, and they are those of a registered method; otherwise it is refused. |
| WireFormat.OversizedHeaderCloses | src/uringrpcprovider.cc:673-680 | A header size above 65536 closes the connection as soon as its four bytes are there. |
| WireFormat.BadHeaderCloses | src/uringrpcprovider.cc:687-694 | Behind frames that both providers serve, a header that does not decode makes both close, having served those and nothing else. |
| WireFormat.ShortSizeEndsReading | src/channel.cc:125-128 | Behind whole responses, a size below eight ends the reading; those before it have been read. |
| HeaderCodec.RoundTrip | src/rpcheader.proto:8-14 | Every header decodes from its encoding: fields in order, defaults left out, varints. |
| HeaderCodec.MeetsLaw | src/rpcheader.proto:8-14 | That encoding and its decoder meet the codec law, whatever is registered. |
| HeaderCodec.TenBytes | src/uringrpcprovider.cc:727-741 | Where services and methods have names, no request takes fewer than ten bytes, for any decoder that needs six bytes for a header with two names. |
| HeaderCodec.MeetsSixBytes | src/rpcheader.proto:8-14 | The decoder of the client's encoding does need six. |
| ConnectionManagers.ConnectionContext.Reset | src/include/connectionmanager.h:26-37 | Reset replaces every field but the generation number. |
| ConnectionManagers.ConnectionManager.Acquire | src/connectionmanager.cc:4-23 | The context comes from the back of the pool or is new, has the next generation number, and is the active one of its descriptor; nothing else changes. |
| ConnectionManagers.ConnectionManager.Find | src/connectionmanager.cc:25-29 | Null exactly if the descriptor is not active; otherwise its context. |
| ConnectionManagers.ConnectionManager.OnSubmit | src/include/connectionmanager.h:56 | Counts one operation more on that context, and changes nothing else. |
| ConnectionManagers.ConnectionManager.OnComplete | src/connectionmanager.cc:31-40 | Counts one operation less; true exactly if the context is closing and this was its last, and then it is in the pool. |
| ConnectionManagers.ConnectionManager.Close | src/connectionmanager.cc:42-58 | An active descriptor is closed and its context recycled or left to drain; otherwise nothing happens. |
| UringRpcProviders.UringRpcProvider.SubmitAccept | src/uringrpcprovider.cc:381-391 | Adds an accept exactly if the ring has an entry free. |
| UringRpcProviders.UringRpcProvider.SubmitRecv | src/uringrpcprovider.cc:393-410 | Adds a recv for the active context of the descriptor and counts it, or fails and changes nothing but the ring's call count. |
| UringRpcProviders.UringRpcProvider.SubmitSend | src/uringrpcprovider.cc:412-438 | Adds a send of exactly the unsent rest of the front frame, or ends the send chain if there is none. |
| UringRpcProviders.UringRpcProvider.SubmitNotifyRead | src/uringrpcprovider.cc:440-451 | Adds a read of the eventfd exactly if the ring has an entry free. |
| UringRpcProviders.UringRpcProvider.HandleNotify | src/uringrpcprovider.cc:453-466 | Swaps the ready list out and resumes every coroutine in it, in order. |
| UringRpcProviders.UringRpcProvider.DeliverResponse | src/uringrpcprovider.cc:470-488 | Queues the frame only on a connection of the same generation, and starts the send chain unless it runs. |
| UringRpcProviders.UringRpcProvider.ResumeOnReactor | src/uringrpcprovider.cc:490-498 | Appends the coroutine to the ready list, then adds one to the eventfd. |
| UringRpcProviders.UringRpcProvider.PopTask | src/uringrpcprovider.cc:500-517 | After the wait: takes the oldest task, or leaves exactly if the pool was stopped and no task is left. |
| UringRpcProviders.UringRpcProvider.HandleAccept | src/uringrpcprovider.cc:528-557 | Sets the connection up with a recv or closes it, and re-arms the accept or marks it pending. |
| UringRpcProviders.UringRpcProvider.ReadFrame | src/uringrpcprovider.cc:665-713 | The checks in the code's order find exactly the next frame of the buffer. |
| UringRpcProviders.UringRpcProvider.TryHandleRequest | src/uringrpcprovider.cc:663-761 | One turn of the drain loop: waits, closes, or dispatches one request, with the bytes consumed in each case. |
| UringRpcProviders.UringRpcProvider.DrainInput | src/uringrpcprovider.cc:591-598 | The loop terminates and does what its turns do one after the other; false exactly if it closed the connection. |
| UringRpcProviders.DrainLoopDone | src/uringrpcprovider.cc:591-598 | Those turns together dispatch exactly what Drain says of the whole buffer and leave exactly its rest. |
| UringRpcProviders.UringRpcProvider.HandleRecv | src/uringrpcprovider.cc:559-614 | Ignores a closing connection, re-arms on ENOBUFS, closes on end or error, otherwise drains and pauses or re-arms. |
| UringRpcProviders.UringRpcProvider.HandleSend | src/uringrpcprovider.cc:616-661 | Closes on failure; otherwise advances or pops the front frame, resumes reading when that releases the backpressure, and continues the send chain. |
| UringRpcProviders.UringRpcProvider.HandleRpc | src/uringrpcprovider.cc:764-783 | Starts one coroutine and queues its task. |
| UringRpcProviders.UringRpcProvider.Resume | src/uringrpcprovider.cc:777-782 | The second half of the coroutine: delivers its frame unless it is empty. |
| UringRpcProviders.UringRpcProvider.OnPoolDone | src/uringrpcprovider.cc:806-829 | The frame is the response frame of the coroutine's own request, or empty if the response does not serialise. |
| UringRpcProviders.UringRpcProvider.TakeBuffer | src/uringrpcprovider.cc:340-351 | The bytes are copied out unless the connection is closing, and the buffer goes back in either case. |
| UringRpcProviders.UringRpcProvider.TakeRecv | src/uringrpcprovider.cc:337-368 | A recv completion is taken off, its buffer returned, its context recycled or handled. |
| UringRpcProviders.UringRpcProvider.TakeSend | src/uringrpcprovider.cc:353-368 | A send completion is taken off and its context recycled or handled; the queue it pops is never empty. |
| UringRpcProviders.UringRpcProvider.TakeNotify | src/uringrpcprovider.cc:369-375 | After the handler the notify read is armed again or marked pending. |
| UringRpcProviders.UringRpcProvider.Flush | src/uringrpcprovider.cc:300-315 | Every queued entry is handed to the kernel; then, if the wait has ended with a completion posted, deferred submissions are retried, and if it failed they are not. |
| UringRpcProviders.UringRpcProvider.React | src/uringrpcprovider.cc:296-379 | A step of this code is a step of the machine whose runs are studied, and keeps its invariant. |
| ReactorSafety.StepKeeps | src/uringrpcprovider.cc:296-379 | Every step of kernel, loop or workers keeps the invariant of the whole machine. |
| ReactorSafety.ReachableOk | src/uringrpcprovider.cc:296-379 | The invariant holds in every reachable world. |
| ReactorStreamSafety.ReachableClean | src/uringrpcprovider.cc:296-379 | In every reachable world of a clean run the byte streams of every connection are right. |
| ReactorReceiving.RecvCompletes | src/uringrpcprovider.cc:559-614 | For every result on an open connection: bytes are drained, dispatched in order and counted, the recv armed again below 256 and reading paused from there on, a refused frame closes; -105 has the recv armed again and changes nothing; any other result closes; a full ring closes. |
| ReactorReceiving.AcceptCompletes | src/uringrpcprovider.cc:528-557 | A connection takes a context of the pool, or a new one if there is none, and is read from, or is closed at once if the ring is full; a failure changes nothing; the accept is armed again or marked pending. |
| ReactorSending.SendCompletes | src/uringrpcprovider.cc:616-661 | For every result on an open connection: a failure closes; a partial send goes on with exactly the rest; a whole frame gives way to the next, counts one request off and resumes reading if that goes below 256; a full ring closes. |
| ReactorSplit.AnySplit | src/uringrpcprovider.cc:629-660 | However the kernel splits what is left of a frame, all of it passes over the connection's socket and the frame leaves the queue, by steps of that connection alone. |
| ReactorDelivering.NotifyCompletes | src/uringrpcprovider.cc:453-488 | Every open connection gets the frames that are ready for it at the end of its queue, in order, is sending if it has any, and is not changed otherwise; the wakeup is armed again. |
| ReactorTargets.SubmitHandsOver | src/uringrpcprovider.cc:300 | In a clean run every operation of an open connection is, once submitted, on the connection's own socket. |
| ReactorTheorems.ActiveOperations | src/uringrpcprovider.cc:559-661 | An open connection has one recv outstanding unless paused and one send exactly while it has something to send; inflight is their number; it is paused exactly from 256 pending requests on. |
| ReactorTheorems.ContextsPartitioned | src/connectionmanager.cc:31-58 | Every context is active, or in the pool once with nothing outstanding, or closed and waiting for exactly one completion. |
| ReactorTheorems.NoHandlerOnClosed | src/uringrpcprovider.cc:353-376 | A completion finds its connection open, or is the last of a closed one and only recycles it; so handleSend may omit the test that handleRecv makes. |
| ReactorTheorems.SocketsClosedOnce | src/connectionmanager.cc:42-58 | No socket is closed twice, no close misses, and an open connection's descriptor names its own socket. |
| ReactorTheorems.SendBufferIntact | src/uringrpcprovider.cc:430-436 | While a send is outstanding its buffer is the unsent rest of the front frame, also after the connection was closed. |
| ReactorTheorems.PendingRequests | src/uringrpcprovider.cc:602-606 | pendingReqs is coroutines not resumed plus frames queued plus responses dropped, and never exceeds 256 + 4095 / L if no request is shorter than L bytes. |
| ReactorTheorems.PendingAtMost | src/uringrpcprovider.cc:602-606 | So 1279 is an upper bound, whatever the codec. |
| ReactorOvershoot.OvershootReached | src/uringrpcprovider.cc:591-606 | For any accepted message with a frame of L bytes a connection is reached that has exactly 256 + 4095 / L requests pending. |
| ReactorOvershoot.NamedAtMost | src/uringrpcprovider.cc:591-606 | With named services and methods no connection has more than 665 requests pending, whatever encodings of a header the decoder accepts that take six bytes for two names. |
| ReactorOvershoot.NamedReached | src/uringrpcprovider.cc:591-606 | And 665 is reached by a method with one-letter names and empty arguments. |
| ReactorStarved.StarvedExactlyByDrops | src/uringrpcprovider.cc:778-781 | An open connection with nothing in flight stays as it is, open and with no operation outstanding, in every continuation whatsoever if and only if 256 of its responses were dropped. |
| ReactorDrops.StarvedReached | src/uringrpcprovider.cc:806-829 | For any accepted message there is a run to such a connection: 256 requests, no response that serialises. |
| ReactorSleep.SleepsExactly | src/uringrpcprovider.cc:300-315 | While the loop waits with coroutines ready, they are left in every continuation in which no peer acts if and only if the notify read is not armed but marked pending. |
| ReactorSleep.FlushRearms | src/uringrpcprovider.cc:307-315 | When a wait has ended, an accept or notify read that was pending is in the ring exactly if an entry was free for it, and one that was armed is as it was. |
| ReactorSleep.FlushArmsAll | src/uringrpcprovider.cc:307-315 | With entries free nothing stays pending. |
| ReactorSleep.WakesIff | src/uringrpcprovider.cc:300-375 | Given an entry for it, ready coroutines can be resumed without a peer acting if and only if some completion is posted or the notify read is not pending. |
| ReactorSleep.SleepReached | src/uringrpcprovider.cc:369-375 | For any accepted message there are a failure of get_sqe and a run to a world in which the loop so waits and a coroutine is ready. |
| ReactorTheorems.InputBounded | src/uringrpcprovider.cc:673-713 | Between completions the buffer holds no complete request and is below header and body limit together. |
| ReactorTheorems.BuffersConserved | src/uringrpcprovider.cc:337-351 | Every provided buffer is in the ring or in exactly one completion not yet taken. |
| ReactorTheorems.NoLostWakeup | src/uringrpcprovider.cc:490-498 | A coroutine to resume is announced by the eventfd, a worker about to write it, or a completion not yet taken; the notify read and the accept are each armed or marked pending (when pending is too late, see SleepsExactly). |
| ReactorTheorems.TasksExactlyOnce | src/uringrpcprovider.cc:500-526 | Queued tasks are exactly the requests not started, in dispatch order; the ready list is exactly the coroutines to resume, each once; frames are what the service produced. |
| ReactorTheorems.AtMostFourAtWork | src/uringrpcprovider.cc:82-86 | At most four requests are being computed at a time. |
| ReactorTheorems.WorkersDrainQueue | src/uringrpcprovider.cc:500-517 | When the last worker has left, no task is queued or half done. |
| ReactorTheorems.NoCrossTalk | src/uringrpcprovider.cc:470-488 | A connection generation queues only frames of requests it dispatched, each once, under the request's id. |
| ReactorTheorems.AcceptedBytes | src/uringrpcprovider.cc:616-661 | What the kernel took is the frames fully sent, in delivery order, then the written part of the front frame, then what a posted completion took. |
| ReactorTheorems.ReceivedBytes | src/uringrpcprovider.cc:591-598 | What an open connection received is exactly what it dispatched and what waits in its buffer, up to a posted completion. |
| ReactorTheorems.SocketContract | src/uringrpcprovider.cc:470-488 | For every connection there ever was: only its own frames went out, only requests it received were dispatched. |
| ReactorStale.StreamsSurviveIff | src/uringrpcprovider.cc:300-315 | After an accept and the flush that follows it, the bytes that pass over all sockets stay right, whatever happens until the next accept, if and only if no queued entry names the accepted descriptor. |
| ReactorStaleRun.ResponseOnWrongConnection | src/uringrpcprovider.cc:300-315 | For any provider, any request it accepts and any response there is a run in which that response to connection 1 is sent on connection 2. |
| ReactorAnswer.RequestServed | src/uringrpcprovider.cc:663-829 | Any accepted request can be served with any response, in a clean run. |
| RpcProviders.RpcProvider.OnMessage | src/provider.cc:110-192 | The loop calls exactly what LooseDrain says, keeps exactly its rest, and shuts down exactly if a header does not decode. |
| RpcProviders.RpcProvider.SendRpcResponse | src/provider.cc:194-220 | The bytes sent are the response frame, or none. |
| RpcProviders.LooseDrainChunked | src/provider.cc:110-192 | Chunks do not matter to the muduo parser either. |
| RpcProviders.NothingAfterShutdown | src/provider.cc:129-134 | After a header that does not decode nothing more is ever called, however much arrives. |
| RpcProviders.ParsersAgree | src/provider.cc:110-192 | On every byte string the io_uring provider's requests are a prefix of the muduo provider's, and where it closes nothing the two do the same. |
| RpcProviders.LooseDrainOfFrames | src/provider.cc:110-192 | Of whole client frames the muduo provider calls every registered method, whatever else is among them. |
| RpcProviders.DrainOfFramesExactly | src/uringrpcprovider.cc:727-754 | Of the same frames the io_uring provider dispatches exactly those before the first it refuses, and closes exactly if it refuses one. |
| ChannelSafety.StepKeeps | src/channel.cc:37-256 | Every step of callers, receive thread, timer and destructor keeps each call's record with exactly one owner. |
| ChannelSafety.ReachableOk | src/channel.cc:405-553 | So it is in every interleaving. |
| ChannelTheorems.CallbackAtMostOnce | src/include/channel.h:61-62 | No callback runs twice, no record is deleted twice. |
| ChannelTheorems.CallbackExactlyOnceAfterTeardown | src/channel.cc:37-99 | After destruction every call's callback has run exactly once and every record allocated was deleted. |
| ChannelTheorems.OnlyOwnerTouches | src/channel.cc:146-176 | Outside the lock a record is touched only by its owner and never after deletion. |
| ChannelTheorems.TimerScanExact | src/channel.cc:522-535 | A scan takes exactly the waiting calls whose deadline has passed. |
| ChannelTheorems.ReadsOwnConnection | src/channel.cc:102-115 | The receive thread reads only its own connection, although it reads the descriptor without a lock. |
| ChannelTheorems.OnlyClosedMeanwhile | src/channel.cc:102-115 | However long the other threads run between its load of the descriptor and its recv, they may close its connection but make no new one. |
| ChannelTheorems.IdsUnique | src/channel.cc:432 | No two calls share a request id. |
| ChannelTheorems.AnswerCameIn | src/channel.cc:138-168 | An answered call got a body that was read off some connection under its own id. |
| ChannelTheorems.ConnectionCarriesFrames | src/channel.cc:239-256 | Unless torn, a connection carries a prefix of the frames of distinct calls. |
| ChannelOrders.OneConnectionEach | src/channel.cc:239-256 | No two connections of a channel carry a frame of the same call, however often it reconnects. |
| ChannelHosts.WrongHost | src/channel.cc:457-480 | For any two hosts and requests there is a run in which the whole request to the one goes out on a connection to the other. |
| ChannelHosts.RightHostIff | src/channel.cc:178-237 | From the moment a call is connected on, the connection there is is to its host if and only if nobody has dialled since or the last who did had the same host. |
| ChannelProgress.WaitingIsAnswered | src/channel.cc:146-176 | A response whose call waits answers that call, with its body, and no other; its callback runs and its record is deleted. |
| ChannelProgress.FailedSendFails | src/channel.cc:480-502 | A sender whose record was not claimed takes it back, deletes it and fails its call. |
| ChannelProgress.RefusedCallFails | src/channel.cc:411-465 | A call that cannot be serialised, addressed or connected fails at once, without having waited. |
| ChannelProgress.WaitsOnlyIfSent | src/channel.cc:480-504 | A call that waits after its caller has returned was handed to send whole. |
| ChannelProgress.ReusesLiveConnection | src/channel.cc:179-185 | A connection is used again only for its host, and only while its receive thread is there and has not begun to fail those that wait. |
| ChannelProgress.LeavingTakesAll | src/channel.cc:78-85 | A receive thread that leaves takes everyone who waits, and nobody else. |
| ChannelTorn.SendTearsIff | src/channel.cc:239-256 | A send mixes frames up exactly if it begins a frame after one that was cut off, or goes on with a frame that did not begin on this connection. |
| ChannelTorn.UnsentRequest | src/channel.cc:239-256 | There is a run after which a provider dispatches a request that no call sent. |
| ChannelSections.RegisterSection | src/channel.cc:474-478 | Entering the record of a call is the step Register of the machine. |
| ChannelSections.LookupSection | src/channel.cc:146-156 | The receive thread's lookup is its step RxLookup, and the record it takes is that of the call the step takes. |
| ChannelSections.UndoSection | src/channel.cc:483-495 | The sender's second look at the table is its step Undo, with the same outcome. |
| ChannelSections.ScanSection | src/channel.cc:522-535 | The timer's loop over the table is a step TimerScan: its list is the records of a batch of exactly the overdue calls. |
| ChannelSections.SwapSection | src/channel.cc:78-85 | Taking the whole table is the swap of the receive thread or of the destructor, with the records of exactly its batch. |
| KimRpcChannels.KimRpcChannel.Claim | src/channel.cc:146-156 | Whoever finds the record removes it. |
| KimRpcChannels.KimRpcChannel.SendFailed | src/channel.cc:480-502 | The sender marks its call failed and runs its callback exactly if nobody has claimed it, and changes nothing of it otherwise. |
| KimRpcChannels.KimRpcChannel.Scan | src/channel.cc:522-535 | The loop takes out exactly the overdue records, each once, and leaves the others. |
| KimRpcChannels.KimRpcChannel.Tick | src/channel.cc:520-552 | Every call whose deadline has come, and no other, leaves the table and is failed, once. |
| KimRpcChannels.KimRpcChannel.FailAllPending | src/channel.cc:78-99 | Every waiting call is failed once and the table is empty. |
| KimRpcChannels.KimRpcChannel.SendLocked | src/channel.cc:239-256 | Whatever the partial sends, the frame goes out whole, or a proper part of its front if a send fails; each piece goes to the connection the descriptor names at that send. |
| KimRpcChannels.KimRpcChannel.RecvAll | src/channel.cc:102-115 | The next bytes of the stream, however they are split; failure exactly if there are fewer. |
| KimRpcChannels.KimRpcChannel.RecvFrame | src/channel.cc:120-144 | The next response frame of the stream, or none if the stream holds none. |
| KimRpcChannels.KimRpcChannel.RecvLoop | src/channel.cc:118-177 | The frames taken are exactly those of the stream, up to the first failed test of m_running; a waiting call is answered by the first with its id, and marked failed exactly if that does not parse, or failed if there is none; each runs once. |
| EndToEnd.ResponseComputed | src/channel.cc:118-177 | Every response a client reads was computed by the provider for a request of the same id from the same connection. |
| EndToEnd.RequestSent | src/channel.cc:448-480 | Every request a provider parses was sent by some call. |
| EndToEnd.AnswerIsForItsCall | src/channel.cc:405-504 | An answered call was answered with what the service computed for exactly the request that this call sent; only the connection its answer came in on has to meet anything. |
| EndToEndOnce.DispatchedOnce | src/uringrpcprovider.cc:764-783 | No call is dispatched twice: two coroutines with one request id, on any connections of the channel, are the same coroutine on the same connection. |
| EndToEndOnce.ResponsesOnce | src/channel.cc:118-177 | No two responses read off a connection have the same id. |
| EndToEndOnce.DiscardedNeverAnswered | src/channel.cc:146-160 | A response that finds no call waiting is one to a call that was sent on this connection and never answered: the timer or its own sender has claimed it, or it is over and has failed. |
| EndToEndRun.AnswerHappens | src/channel.cc:405-504 | Any accepted request is answered with any body in some run that meets every hypothesis. |
| EndToEndRun.HypothesesMet | src/channel.cc:405-504 | So it is with the encoding of the client and a service of one method. |
| Base64.B64Encode | src/etcdclient.cc:26-54 | The loop computes the encoding. |
| Base64.B64Decode | src/etcdclient.cc:66-86 | The loop over a wrapping 32-bit accumulator computes the decoding of the text's digits. |
| Base64.EncodeExactLength | src/etcdclient.cc:28-29 | The encoding has length 4 * ceil(n / 3), as reserved. |
| Base64.Alphabet | src/etcdclient.cc:24-53 | The 64 characters of the alphabet and the padding, by name. |
| Base64.SameNumber | src/etcdclient.cc:33-50 | Four digits are the same number as the three bytes, most significant first. |
| Base64.RoundTrip | src/etcdclient.cc:26-86 | Decoding an encoding gives the bytes back. |
| Base64.BreaksInvisible | src/etcdclient.cc:70-76 | Characters outside the alphabet may stand anywhere. |
| Base64.RoundTripDespiteBreaks | src/etcdclient.cc:66-86 | Every text that is an encoding once all characters outside the alphabet are removed from both decodes to the bytes encoded. |
| Base64.WrapInvisible | src/etcdclient.cc:69-84 | The wrapping accumulator and an unbounded one yield the same bytes. |
| PrefixRange.ComputePrefixEnd | src/etcdclient.cc:104-116 | The loop computes the end of the range. |
| PrefixRange.EndIsMarker | src/etcdclient.cc:115 | The marker is returned exactly for prefixes without a byte below 0xff. |
| PrefixRange.RangeIsPrefix | src/etcdclient.cc:103-116 | A key has the prefix if and only if it is at or above it and, unless the marker stands, below its end. |
| Watch.ChunksIrrelevant | src/etcdclient.cc:172-188 | How a stream is split into chunks does not matter, nor where lines are cut. |
| Watch.LinesOfWritten | src/etcdclient.cc:172-188 | A text is cut into lines at byte 10 and nowhere else, and what follows the last is kept. |
| Watch.ApplyAllShows | src/rpcaddresscache.cc:91-106 | Applying events to the table is applying them to the set of live keys, and the table stays free of duplicates. |
| Watch.SeedSynced | src/rpcaddresscache.cc:80-85 | A range read seeds a table that shows the keys live at its revision. |
| Watch.SessionSynced | src/etcdclient.cc:133-188 | One connection that was asked for the revision after the last processed, and cut anywhere, leaves the table at the last revision processed. |
| Watch.WatchStaysSynced | src/etcdclient.cc:383-433 | Over any number of connections, each asked for the revision after the last processed on those before and cut anywhere: every event after the seed was applied once and in order, and the table is the live key set at the last revision. |
| Watch.SeededAndWatched | src/rpcaddresscache.cc:68-108 | So it is from a range read on that lists the live keys, watched from the revision after it. |
| AddressCaches.MethodEntry.OnEvent | src/rpcaddresscache.cc:91-106 | The callback adds an instance once, removes every copy, and ignores a key that is only the prefix. |
| AddressCaches.MethodEntry.Choose | src/rpcaddresscache.cc:114-123 | The instance in turn; a lookup that finds none leaves the cursor. |
| AddressCaches.MethodEntry.ChooseMany | src/rpcaddresscache.cc:121-122 | Over k selections every instance is chosen k/n times, rounded down or up. |
| AddressCaches.FullRound | src/rpcaddresscache.cc:121-122 | Any n selections in a row reach every one of n instances, once. |
| AddressCaches.WatchCtx.ParseLine | src/etcdclient.cc:133-170 | Applies a frame's events in order, then advances the revision if it is higher. |
| AddressCaches.WatchCtx.Write | src/etcdclient.cc:172-188 | The splitting loop processes exactly the lines the chunk completes and keeps the rest. |
| AddressCaches.WatchPrefix | src/etcdclient.cc:383-433 | The resume loop asks each connection for the revision after the last processed before it, and takes in what it delivers as Watched says. |
| AddressCaches.AddressCache.Seed | src/rpcaddresscache.cc:80-85 | The table is the range's keys without their prefix, in order. |
| AddressCaches.AddressCache.GetRpcAddress | src/rpcaddresscache.cc:50-124 | The first successful range read of the path's own prefix creates the entry and starts a watch at its revision plus one, a failed one changes nothing; a lookup returns the instance in turn, moves the cursor of its entry by one unless there is none, and touches no other entry. |
| AddressCaches.SeedAndWatch | src/rpcaddresscache.cc:68-108 | The entry that a lookup creates, watched over any number of connections, holds exactly the addresses a for which path + "/" + a is live at the last revision processed. |
| Discovery.FirstLookup | src/rpcaddresscache.cc:50-124 | In any store of registered instances, the first lookup of a method finds exactly the addresses registered under "/service/method/", in the store's order, returns the first, and starts a watch at the next revision. |
| Discovery.ReadForPathIff | src/rpcaddresscache.cc:70-85 | A key is read for a path if and only if it is a key of that path or of one that goes on after a slash; one that only extends the name is not. |

## Left out

- ReactorRun: each handler of the event loop is one step, although workers may pop a task or push a coroutine while it
  runs. The shared lists are touched under their own locks, at most once a request and once a handler, and the handlers
  read nothing that a worker writes in between.
- ReactorRun: completions are taken in any order, and whether or not the loop has waited since they were posted; that the
  kernel posts those of one operation kind in some order is not used.
- UringRpcProviders.UringRpcProvider.Flush: a submission that fails is taken to hand over every queued entry or none.
- UringRpcProviders.UringRpcProvider.ResumeOnReactor: in the runs the write to the eventfd is a step of its own,
  ReactorRun.WriteEventfd, so that anything may happen in between.
- HeaderCodec: the decoder reads fields in the order in which they are written; what else a protobuf decoder would accept
  is left to the abstract codec, of which the bound of 665 asks only `SixBytes`.
- ReactorSleep.SleepReached: the failure of io_uring_get_sqe is given; the run does not fill the ring to bring it about.
- UringRpcProviders.UringRpcProvider.React: packing pointer and operation into user_data, completions of foreign
  coroutines, TCP_NODELAY and non-blocking mode are left out.
- ReactorRun.Begin: the runs begin where Run enters the loop with both first submissions made; a failure before that exits
  the process.
- UringRpcProviders.UringRpcProvider.OnPoolDone: the memory of messages and awaiters is not modelled, only what they hold.
- RpcProviders.RpcProvider.OnMessage: a service is assumed to return; when it answers, and in which order answers are sent,
  is its own affair.
- Channel: the address lookup is any outcome and the host any value; a malformed port, which throws, is left out, and so are
  the blocking variants that the header compiles out.
- Channel: a call with no timeout that registers after its connection has failed waits until the next connection fails or
  the channel is destroyed. Nothing is claimed about when a call is answered.
- KimRpcChannels.KimRpcChannel: runs one thread at a time; Channel is what covers interleavings.
- AddressCaches.AddressCache.GetRpcAddress: the watch thread and the lookups take turns on the entry's lock; the connection
  to etcd is the parameter `range`.
- Watch: JSON, HTTP, the stop flag and the pause before reconnecting.
- Leases, keepalive, registration in etcd, configuration, logging, the one-shot client of uringchannel.cc and the coroutine
  library: plumbing, or compiler lowering.
