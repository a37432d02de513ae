# Verification of the queues and the network server

A model, in Dafny, of three parts of the repository, and proofs of what they are for.

**The circular queue in shared memory** (`cpplibrary/circularqueue`). One flat byte region holds
elements of any length, a 24-byte header and a body each, laid out one behind the other and round the
end. `write` distinguishes four scenes and five layouts and copies by parts; `read` finds its way back
from a one-byte layout code. `RingModel` is the simple form: a modular ring of bytes. `ElementOp` is
the code, field by field and memcpy by memcpy on an `array`, in unsigned 64-bit arithmetic whose every
sum and difference is checked not to wrap; each of its routes is proved to do what the modular ring
does. `Fifo` proves that the modular ring is a bounded FIFO of byte strings over every run, and
`CircularQueue` puts the guards of `TryPut` and `TryGet` around it. `BlockingQueue` is the monitor of
`Put` and `Get` for one producer process and one consumer process on one condition variable: no lost
wake-up, no deadlock, no livelock, everything delivered.

**The thread queues** (`cf_concurrency_queue.hpp`). `RawQueue` is a machine for any number of threads at
the grain of single accesses to the shared fields, with spurious wake-ups and with the stop flags set
outside the lock. `RawQueueCalls` tells from the calls alone what every run stores, takes, ends and refuses.
`FastFindQueue` is the queue with a set index.

**The event handler of the network server** (`cpplibrary/netserver`, with the epoll bookkeeping, the
buffers, the partial sends and receives, and the event loop). `NetModel` says what each handler call
does to connections, chains of buffers, pools, interest bits and listener counts. `NetInvariants`,
`NetPools`, `NetHandlers`, `NetLifecycle` and `NetRuns` prove what every call and every run of the
event loop keeps. `NetLedger` is the simple form of it all: for each connection a line of what was asked
for, received, given to send and sent, with no buffers, chains, pools or interest map; handlers, rounds and
runs are proved to do exactly what the ledger's arithmetic says. `NetProgress` states from that what gets
done: which bytes a report brings, which it lets go, when input stays of interest, when a connection counts
as hung up. `NetStreams` proves stream reassembly from end to end. `Network`, `Epoll`,
`EventHandler` and `EventLoop` are the code with its loops and its updates in place, proved equal to
`NetModel`, so every invariant holds of the objects.

How a pair fits together: a class keeps a `Snapshot()` (or `Fields()`), its value; each method's
`ensures` equates the new snapshot with a function of the old one; and the lemmas are about those
functions.

## Environment

What the network model assumes of its surroundings:

- a callback makes any sequence of `AsyncRead` and `AsyncWrite` calls, on any descriptors, of positive
  sizes below 2^32; it does not throw, close connections or keep buffers;
- `recv` answers 1 to `len` of the next bytes, -1 with EAGAIN, or 0; `send` takes 1 to `len` bytes or
  answers -1 with EAGAIN;
- `epoll_wait` reports a descriptor at most once a round, and input or output only where there is
  interest in it; a report stays good while other descriptors of the round are handled (this is proved);
- `accept` never returns a listener's descriptor.

## Where code and comments or names disagree

- `sizeof(QMeta)` is 168 on LP64, while `elementBegin` lies at offset 164; the model follows the code,
  which subtracts 168, so the last four bytes of the region are never used.
- `TryGet` on an empty queue throws the exception named `QueueFullException`; so does the model.
- A listener's limit is checked after a whole batch of accepts, so one batch may exceed it. The
  admission law is about registration: a listener is registered exactly while its count is below its
  limit.
- `StopPut` and `StopPutAndGet` of the thread queues broadcast so that sleepers leave, but set their flags
  without the lock. `BroadcastIsEnough` says exactly when the broadcast reaches everybody, and
  `StopCanStrandConsumer` is a run where it does not.
- `Find` and the index of the fast-find queue are meant to stand for a search of the queue. They do exactly
  in runs that put no element the index already holds (`IndexAgreement`).

## Model

| member | source | states |
|---|---|---|
| `Bytes.LittleEndianRoundTrip` | cpplibrary/circularqueue/include/circularqueue/cl_queue_def.hpp:88-96 | a header's length field, stored as little-endian bytes, reads back as the number it was |
| `RingModel.HeaderRoundTrip` | cpplibrary/circularqueue/include/circularqueue/cl_queue_def.hpp:88-96 | layout code and body length of a stored header decode to what was encoded, whatever the padding and time stamp |
| `RingModel.PutIsModular` | cpplibrary/circularqueue/src/cl_queue_operation.cpp:311-411 | byte i of header and body lands at (head + i) mod size, the head advances by header + body mod size, and no other byte changes |
| `RingModel.TakeIsModular` | cpplibrary/circularqueue/src/cl_queue_operation.cpp:163-309 | the body is gathered from (tail + header + i) mod size and the tail advances likewise |
| `RingModel.PutKeepsInv` | cpplibrary/circularqueue/src/cl_queue_operation.cpp:311-411 | storing appends one record to the records laid out from the tail; every header stays sound |
| `RingModel.TakeKeepsInv` | cpplibrary/circularqueue/src/cl_queue_operation.cpp:163-309 | reading yields the oldest record's body and leaves the others |
| `RingModel.TailHoldsFirstRecord` | cpplibrary/circularqueue/src/cl_queue_operation.cpp:204-271 | the bytes at the tail are the oldest record, wherever the end of the region falls in it |
| `RingModel.WalkVisitsQueue` | cpplibrary/circularqueue/src/cl_queue_operation.cpp:163-411 | decoding headers from the tail on visits exactly the queued elements, in order, and ends at the head |
| `RingModel.PutKeepsWalk` | cpplibrary/circularqueue/src/cl_queue_operation.cpp:335-391 | storing touches free bytes only: all queued elements still decode to the same bodies |
| `RingModel.PutExtendsWalk` | cpplibrary/circularqueue/src/cl_queue_operation.cpp:335-396 | after storing, the walk finds the old elements, then the new one, and ends at the new head |
| `RingModel.SpaceConservation` | cpplibrary/circularqueue/src/cl_queue_operation.cpp:294-396 | used space = sum of header + body over the queue = cyclic distance from tail to head, with head = tail told apart by the count; count * 25 <= size |
| `RingModel.LayoutCodesSound` | cpplibrary/circularqueue/src/cl_queue_operation.cpp:181-289 | exactly one queued element has a layout code other than 1 when the queue is non-empty with head <= tail, none otherwise |
| `Fifo.StepRefines` | cpplibrary/circularqueue/src/cl_circular_queue.cpp:60-178 | one TryPut or TryGet on any valid ring answers, and changes the decoded contents, as the bounded FIFO does; TryPut succeeds exactly if header + size fits into the space the queued elements leave |
| `Fifo.RunRefinesFifo` | cpplibrary/circularqueue/src/cl_circular_queue.cpp:60-178 | the same over every run of calls |
| `Fifo.StepAnswers` | cpplibrary/circularqueue/src/cl_circular_queue.cpp:72-118 | which of its four answers TryPut gives, each if and only if, from the sizes alone; TryGet fails exactly on the empty queue, else removes and returns the oldest body |
| `Fifo.FifoRunConserves` | cpplibrary/circularqueue/src/cl_circular_queue.cpp:60-178 | initial contents followed by accepted bodies = delivered bodies followed by final contents |
| `Fifo.ReadsReturnOldestWrites` | cpplibrary/circularqueue/src/cl_queue_operation.cpp:163-411 | from a fresh region, the bodies read are the bodies stored, in order, and the bytes still decode to the rest |
| `QueueOperation.SpreadInParts` | cpplibrary/circularqueue/src/cl_queue_operation.cpp:347-374 | copying two parts, the second where the first ends round the ring, equals copying the whole modularly |
| `QueueOperation.PutGeometry` | cpplibrary/circularqueue/src/cl_queue_operation.cpp:378-393 | an element that fits by the space count fits between head and tail in scene 2, and scene 4 does not occur |
| `QueueOperation.TakeGeometry` | cpplibrary/circularqueue/src/cl_queue_operation.cpp:181-289 | the layout code at the tail is that of the element there, whose end does not pass the head |
| `QueueOperation.ElementOp.Init` | cpplibrary/circularqueue/src/cl_queue_operation.cpp:28-59 | a fresh region is an empty queue of memSize - 168 bytes |
| `QueueOperation.ElementOp.QueueScene` | cpplibrary/circularqueue/src/cl_queue_operation.cpp:121-137 | which of the four scenes |
| `QueueOperation.ElementOp.QueueWriteCase` | cpplibrary/circularqueue/src/cl_queue_operation.cpp:138-161 | the layout code, with all sums in range |
| `QueueOperation.ElementOp.WriteWhole` | cpplibrary/circularqueue/src/cl_queue_operation.cpp:337-346 | routes 1 and 5 store header and body modularly from the head |
| `QueueOperation.ElementOp.WriteSplitHeader` | cpplibrary/circularqueue/src/cl_queue_operation.cpp:347-356 | so does the route that splits the header |
| `QueueOperation.ElementOp.WriteSplitBody` | cpplibrary/circularqueue/src/cl_queue_operation.cpp:357-367 | so does the route that splits the body |
| `QueueOperation.ElementOp.WriteBodyFromStart` | cpplibrary/circularqueue/src/cl_queue_operation.cpp:368-374 | so does the route that splits between them |
| `QueueOperation.ElementOp.WriteElement` | cpplibrary/circularqueue/src/cl_queue_operation.cpp:335-393 | every scene and case stores modularly; no throw is reached |
| `QueueOperation.ElementOp.Write` | cpplibrary/circularqueue/src/cl_queue_operation.cpp:311-411 | the new state of all fields and bytes is the modular ring's Put; the empty body is refused and changes nothing; nothing wraps in 64 bits |
| `QueueOperation.ElementOp.ReadWhole` | cpplibrary/circularqueue/src/cl_queue_operation.cpp:181-231 | read routes 1 and 2 gather the body modularly and pass every check |
| `QueueOperation.ElementOp.ReadSplitHeader` | cpplibrary/circularqueue/src/cl_queue_operation.cpp:232-250 | so does route 3 |
| `QueueOperation.ElementOp.ReadSplitBody` | cpplibrary/circularqueue/src/cl_queue_operation.cpp:251-270 | so does route 4 |
| `QueueOperation.ElementOp.ReadBodyFromStart` | cpplibrary/circularqueue/src/cl_queue_operation.cpp:271-287 | so does route 5 |
| `QueueOperation.ElementOp.ReadElement` | cpplibrary/circularqueue/src/cl_queue_operation.cpp:181-292 | the scene or the stored code selects the route that matches the element; no throw is reached |
| `QueueOperation.ElementOp.Read` | cpplibrary/circularqueue/src/cl_queue_operation.cpp:163-309 | new state and result are the modular ring's Take; on an empty queue it throws and changes nothing |
| `CircularQueue.CircularQueue.TryPut` | cpplibrary/circularqueue/src/cl_circular_queue.cpp:60-121 | contents and answer are the bounded FIFO's; each refusal and success if and only if its sizes say so |
| `CircularQueue.CircularQueue.TryGet` | cpplibrary/circularqueue/src/cl_circular_queue.cpp:128-178 | contents and answer are the FIFO's, all fields those of the modular ring; an empty queue is left as it is |
| `CircularQueue.Create` | cpplibrary/circularqueue/src/cl_queue_operation.cpp:28-59 | a region is refused exactly when it is no larger than its bookkeeping and one header; else it is an empty queue |
| `CircularQueue.GuardExact` | cpplibrary/circularqueue/src/cl_circular_queue.cpp:76-88 | in 64-bit arithmetic the guard is right for exactly those sizes whose sum with the header does not wrap to something that fits |
| `CircularQueue.GuardWraps` | cpplibrary/circularqueue/src/cl_circular_queue.cpp:76-88 | a size for which it is wrong |
| `BlockingQueue.StepKeepsInv` | cpplibrary/circularqueue/src/cl_circular_queue.cpp:64-178 | each step keeps: one lock owner, a sleeper whose guard holds has a signal coming, never both asleep, stored = delivered + contents |
| `BlockingQueue.RunKeepsInv` | cpplibrary/circularqueue/src/cl_circular_queue.cpp:64-178 | so does every run |
| `BlockingQueue.StuckOnlyForWantOfCalls` | cpplibrary/circularqueue/src/cl_circular_queue.cpp:83-121 | nothing can move any more exactly when all calls are done, or the only one left waits for a call the other side will not make |
| `BlockingQueue.StepsUseUpMeasure` | cpplibrary/circularqueue/src/cl_circular_queue.cpp:64-178 | every step but a spurious wake-up uses up work |
| `BlockingQueue.RunsAreFinite` | cpplibrary/circularqueue/src/cl_circular_queue.cpp:64-178 | the length of every run is bounded by the calls and the spurious wake-ups |
| `BlockingQueue.RunKeepsAccounts` | cpplibrary/circularqueue/src/cl_circular_queue.cpp:64-178 | stored bodies and storable calls left, and deliveries and calls left, add up to the same throughout |
| `BlockingQueue.AllDelivered` | cpplibrary/circularqueue/src/cl_circular_queue.cpp:64-178 | with as many Get calls as storable Put calls, every run that comes to rest has delivered all bodies in order and finished all calls |
| `RawQueue.StepKeepsInv` | cppfoundation/include/cppfoundation/cf_concurrency_queue.hpp:54-107 | any access by any thread keeps: sleepers <= wait count; while someone sleeps, threads awake in Get >= queued elements; puts = gots + queue; no pop of an empty queue |
| `RawQueue.RunKeepsInv` | cppfoundation/include/cppfoundation/cf_concurrency_queue.hpp:54-107 | so does every run of any number of threads |
| `RawQueue.NoLostWakeUp` | cppfoundation/include/cppfoundation/cf_concurrency_queue.hpp:54-96 | with an element queued and a consumer asleep, some thread inside a call can run on |
| `RawQueue.SleepersOnlyOnEmptyQueue` | cppfoundation/include/cppfoundation/cf_concurrency_queue.hpp:54-96 | when all threads are at rest, sleepers remain only in front of an empty queue |
| `RawQueue.EndIsFinal` | cppfoundation/include/cppfoundation/cf_concurrency_queue.hpp:62-107 | after QueueEmptyAndStopToPutException everything put has been delivered in order, and nothing is put or taken ever again |
| `RawQueue.BroadcastIsEnough` | cppfoundation/include/cppfoundation/cf_concurrency_queue.hpp:97-107 | after a stop's broadcast somebody can still fall asleep if and only if a consumer stood between its test and its wait |
| `RawQueue.StopCanStrandConsumer` | cppfoundation/include/cppfoundation/cf_concurrency_queue.hpp:54-107 | a run from the start in which a consumer sleeps on a stopped, empty queue with nobody to wake it |
| `RawQueueCalls.StepFollowsCalls` | cppfoundation/include/cppfoundation/cf_concurrency_queue.hpp:54-107 | a thread in a call is always at a place of that call, with that call's argument |
| `RawQueueCalls.CallsDoTheirWork` | cppfoundation/include/cppfoundation/cf_concurrency_queue.hpp:54-107 | a call returns only after storing its argument at the back, taking the front, or setting its flags, or with the flag or emptiness that excuses it; before its last step it leaves the queue alone |
| `RawQueueCalls.FlagsAndCount` | cppfoundation/include/cppfoundation/cf_concurrency_queue.hpp:56-107 | the stop flags are set by the stop calls alone and never unset; the wait count counts waits up and signalling Puts down |
| `RawQueueCalls.AccessesAreBounded` | cppfoundation/include/cppfoundation/cf_concurrency_queue.hpp:54-107 | every access brings its thread nearer to its return or its sleep |
| `RawQueueCalls.StepBalances` | cppfoundation/include/cppfoundation/cf_concurrency_queue.hpp:54-96 | one step: what is put, taken and ended, counting what the lock's owner has decided, grows by exactly what a call finds at its test of its stop flag |
| `RawQueueCalls.RunBalances` | cppfoundation/include/cppfoundation/cf_concurrency_queue.hpp:54-96 | the same over every run |
| `RawQueueCalls.RunStoresAndTakes` | cppfoundation/include/cppfoundation/cf_concurrency_queue.hpp:54-96 | from the start: puts = arguments of the Puts that owned the lock and found the stop flag unset, in lock order; gots = the fronts that Gets and TryGets found with their flag unset; puts = gots + queue; ended exactly if some Get found the queue empty past its loop |
| `FastFindQueue.RawFastFindQueue.Put` | cppfoundation/include/cppfoundation/cf_concurrency_queue.hpp:176-190 | the element joins the back of the queue and the index, unless the stop flag is set, which alone refuses it; wait count and signal |
| `FastFindQueue.RawFastFindQueue.TryGet` | cppfoundation/include/cppfoundation/cf_concurrency_queue.hpp:163-175 | the element leaves the queue before the index is asked, also when that throws |
| `FastFindQueue.RawFastFindQueue.Get` | cppfoundation/include/cppfoundation/cf_concurrency_queue.hpp:144-162 | the same for Get, up to its wait |
| `FastFindQueue.RawFastFindQueue.Find` | cppfoundation/include/cppfoundation/cf_concurrency_queue.hpp:192-196 | membership in the index; a linear search of the queue as long as the index owes nothing |
| `FastFindQueue.StepIsFifo` | cppfoundation/include/cppfoundation/cf_concurrency_queue.hpp:144-232 | each call adds at the back and removes at the front, in queue and index alike, by flags and emptiness; which answer it gives, each if and only if; flags and wait count |
| `FastFindQueue.RunIsFifo` | cppfoundation/include/cppfoundation/cf_concurrency_queue.hpp:144-232 | over every run: old queue + accepted elements = elements that left, returned or lost, + new queue |
| `FastFindQueue.RunReturnsFifo` | cppfoundation/include/cppfoundation/cf_concurrency_queue.hpp:144-232 | in a run that puts no indexed element, what is returned is what was put, in order |
| `FastFindQueue.IndexIsQueue` | cppfoundation/include/cppfoundation/cf_concurrency_queue.hpp:220-240 | queue and index are of one size exactly when the elements are distinct and the index is their set |
| `FastFindQueue.StepBalance` | cppfoundation/include/cppfoundation/cf_concurrency_queue.hpp:144-232 | each call: size difference of queue and index, plus a loss, grows by one exactly when the call puts an indexed element |
| `FastFindQueue.RunBalance` | cppfoundation/include/cppfoundation/cf_concurrency_queue.hpp:144-232 | the same over every run |
| `FastFindQueue.IndexAgreement` | cppfoundation/include/cppfoundation/cf_concurrency_queue.hpp:144-232 | from an empty queue: index = set of queued elements, all distinct, nothing lost, if and only if no call put an element that Find reported |
| `FastFindQueue.OneLossPerRepetition` | cppfoundation/include/cppfoundation/cf_concurrency_queue.hpp:144-232 | once drained, exactly one element has been lost per such call |
| `FastFindQueue.RepetitionLosesElement` | cppfoundation/include/cppfoundation/cf_concurrency_queue.hpp:144-232 | a run of four calls that loses one |
| `Stream.ReadChainKeepsBuffers` | cpplibrary/netserver/src/cl_event_handler.cpp:237-280 | completed buffers and remaining chain are the old chain, in order; a chain that is not finished has used all bytes |
| `Stream.ReadChainCutsStream` | cpplibrary/netserver/src/cl_event_handler.cpp:237-280 | partial front + bytes read = completed buffers + new partial front |
| `Stream.WriteChainKeepsBuffers` | cpplibrary/netserver/src/cl_event_handler.cpp:299-340 | the same for the write chain |
| `Stream.WriteChainSendsPrefix` | cpplibrary/netserver/src/cl_event_handler.cpp:299-340 | what is sent continues the payloads where the last write stopped |
| `ChainLoops.FillingStep` | cpplibrary/netserver/src/cl_event_handler.cpp:248-270 | one turn of the read loop brings the whole chain's result one buffer nearer |
| `ChainLoops.DrainingStep` | cpplibrary/netserver/src/cl_event_handler.cpp:312-330 | one turn of the write loop likewise |
| `Network.RecvSegmentAsync` | cppfoundation/src/class/cf_network.cpp:374-409 | over any cutting into recv calls: exactly the first min(totalLen, available) bytes, the rest stays in the socket, peer closed exactly if it stopped short on a 0 |
| `Network.SendSegmentAsync` | cppfoundation/src/class/cf_network.cpp:343-372 | sends exactly the prefix the socket has room for |
| `Network.CounterIsRight` | cpplibrary/netserver/src/cl_buffer.cpp:34-47 | a byte count returned as signed 32 bits and added to an unsigned counter is right, also from 2 GiB on |
| `Network.ReadInto` | cpplibrary/netserver/src/cl_buffer.cpp:34-67 | ReadBuffer::Read puts the bytes behind those it has, and is complete exactly when enough were there |
| `Network.WriteFrom` | cpplibrary/netserver/src/cl_buffer.cpp:79-116 | WriteBuffer::Write sends from where it stopped |
| `Epoll.Epoll.constructor` | cppfoundation/src/class/cf_epoll.cpp:25-36 | every listener is registered for input, and nothing else |
| `Epoll.Epoll.AddConn` | cppfoundation/src/class/cf_epoll.cpp:40-51 | a new descriptor gets its interest and RDHUP, a known one keeps what it has; the map still mirrors the kernel |
| `Epoll.Epoll.DelConn` | cppfoundation/src/class/cf_epoll.cpp:52-57 | the descriptor leaves both |
| `Epoll.Epoll.AddEvent` | cppfoundation/src/class/cf_epoll.cpp:58-86 | adds the one flag to a known descriptor, in both |
| `Epoll.Epoll.DelEvent` | cppfoundation/src/class/cf_epoll.cpp:87-115 | removes it, in both |
| `NetPools.ChainIdsSplit` | cpplibrary/netserver/include/netserver/cl_buffer.hpp:100-165 | the multiset of buffers in all chains does not depend on the order of counting |
| `NetPools.CountsAddUp` | cpplibrary/netserver/include/netserver/cl_buffer.hpp:136-165 | free buffers + lengths of all chains = allocation counter |
| `NetPools.ExactlyOnePlace` | cpplibrary/netserver/include/netserver/cl_buffer.hpp:136-165 | every allocated buffer is either free or in a chain, exactly once |
| `NetPools.InSomeChain` | cpplibrary/netserver/include/netserver/cl_buffer.hpp:136-165 | that multiset holds exactly the buffers some chain has |
| `NetInvariants.ServeKeeps` | cpplibrary/netserver/src/cl_event_handler.cpp:115-152 | any AsyncRead and AsyncWrite calls, at any point of a handler call, keep streams, interest bits and pools |
| `NetInvariants.CutRead` | cpplibrary/netserver/src/cl_event_handler.cpp:237-280 | reading keeps: sizes asked for = buffers cut + chain, bytes received = buffers cut + partial front |
| `NetInvariants.CutWrite` | cpplibrary/netserver/src/cl_event_handler.cpp:299-340 | writing keeps: bytes sent = finished payloads + done part of the next, chain = payloads not finished |
| `NetRequests.AsyncReadAsks` | cpplibrary/netserver/src/cl_event_handler.cpp:97-134 | AsyncRead of size k adds exactly k to the sizes asked for and one buffer of total k to the chain, registers input, and changes no other connection |
| `NetRequests.AsyncWriteAsks` | cpplibrary/netserver/src/cl_event_handler.cpp:105-152 | AsyncWrite adds exactly its data to the payloads and the chain, registers output, and changes no other connection |
| `NetRequests.ServeAsks` | cpplibrary/netserver/src/cl_event_handler.cpp:115-152 | any requests: each connection is asked for exactly the sizes and given exactly the payloads that name it, in order; interest grows by exactly what that takes; listeners stay as they are |
| `NetHandlers.OnReadKeeps` | cpplibrary/netserver/src/cl_event_handler.cpp:237-297 | OnRead keeps every invariant, with callbacks in between, and takes no interest from other descriptors |
| `NetHandlers.OnWriteKeeps` | cpplibrary/netserver/src/cl_event_handler.cpp:299-351 | so does OnWrite |
| `NetLifecycle.OnCloseKeeps` | cpplibrary/netserver/src/cl_event_handler.cpp:352-379 | so do OnClose and OnError; exactly the one connection goes |
| `NetLifecycle.CountIsPositive` | cpplibrary/netserver/src/cl_event_handler.cpp:434-443 | the decrement of a listener's count never underflows |
| `NetLifecycle.AddNewConnKeeps` | cpplibrary/netserver/src/cl_event_handler.cpp:381-414 | a new connection, callback included, keeps what must hold between two accepts |
| `NetLifecycle.OnAcceptKeeps` | cpplibrary/netserver/src/cl_event_handler.cpp:187-236 | OnAccept keeps every invariant: counts = live connections per listener, registered, for input, exactly while below the limit, which never changes |
| `NetRuns.DispatchKeepsOthers` | cppfoundation/include/cppfoundation/cf_event_loop.hpp:83-127 | one dispatch keeps all invariants and limits, closes no other connection and takes no interest from one |
| `NetRuns.DispatchKeeps` | cppfoundation/include/cppfoundation/cf_event_loop.hpp:83-127 | handling one reported descriptor keeps all invariants and leaves the reports on all others good |
| `NetRuns.HandlersHaveWork` | cpplibrary/netserver/src/cl_event_handler.cpp:237-309 | OnRead and OnWrite run on non-empty chains only, so stepping back from the end is safe |
| `NetRuns.RunLoop` | cppfoundation/include/cppfoundation/cf_event_loop.hpp:83-127 | all invariants hold after every run of rounds, timeouts included, and every listener's limit is what it was |
| `NetRuns.InitialIsValid` | cpplibrary/netserver/src/cl_event_handler.cpp:52-70 | they hold at the start |
| `NetRuns.DeliveredIsCutStream` | cpplibrary/netserver/src/cl_event_handler.cpp:115-297 | the i-th buffer delivered has the i-th size asked for and is that stretch of the bytes received |
| `NetRuns.DeliveredAsSoonAsReceived` | cpplibrary/netserver/src/cl_event_handler.cpp:115-297 | the first k requests have been answered if and only if the bytes they ask for have been received |
| `NetRuns.UndeliveredIsInFront` | cpplibrary/netserver/src/cl_event_handler.cpp:237-297 | received bytes not yet delivered are in the front buffer, which is short of its size |
| `NetRuns.SentIsPayloadPrefix` | cpplibrary/netserver/src/cl_event_handler.cpp:135-351 | bytes sent are a prefix of the payloads in call order; OnWriteComplete has been called once for each payload wholly sent and for no other |
| `NetLedger.ReadChainTakes` | cpplibrary/netserver/src/cl_event_handler.cpp:248-281 | a chain takes min(bytes there, bytes it needs), is empty after exactly when it got all it needs, and completes exactly the buffers that fills |
| `NetLedger.WriteChainGives` | cpplibrary/netserver/src/cl_event_handler.cpp:312-340 | the same for sending |
| `NetLedger.OnReadOnBook` | cpplibrary/netserver/src/cl_event_handler.cpp:237-297 | OnRead is the ledger's input: receive what is there and wanted, hang up and keep interest as the socket says, one callback per request answered, their requests entered |
| `NetLedger.OnWriteOnBook` | cpplibrary/netserver/src/cl_event_handler.cpp:299-351 | OnWrite is the ledger's output |
| `NetLedger.OnCloseOnBook` | cpplibrary/netserver/src/cl_event_handler.cpp:352-379 | closing strikes the line and enters the callback's requests for the others |
| `NetLedger.OnAcceptOnBook` | cpplibrary/netserver/src/cl_event_handler.cpp:187-236 | every accepted descriptor not yet known gets an empty line of its listener and its callback's requests |
| `NetLedger.DispatchOnBook` | cppfoundation/include/cppfoundation/cf_event_loop.hpp:98-122 | one reported descriptor is handled as the ledger says |
| `NetLedger.RunOnBook` | cppfoundation/include/cppfoundation/cf_event_loop.hpp:83-127 | over every run of the event loop the connections are what the ledger's fold over the reports says |
| `NetProgress.LedgerTells` | cpplibrary/netserver/src/cl_event_handler.cpp:115-351 | deliveries, notifications and interest bits all follow from the ledger, each if and only if |
| `NetProgress.OnReadMoves` | cpplibrary/netserver/src/cl_event_handler.cpp:237-297 | received grows by exactly the first min(bytes there, asked for and not received); hung up exactly if it was or the peer closed short of that; input stays of interest exactly if a callback asks again or the socket only would block |
| `NetProgress.OnWriteMoves` | cpplibrary/netserver/src/cl_event_handler.cpp:299-351 | sent grows by exactly the next min(room, unsent) payload bytes; output stays of interest exactly while bytes are unsent |
| `NetProgress.DispatchMoves` | cppfoundation/include/cppfoundation/cf_event_loop.hpp:98-122 | a reported input is received and a reported output sent, each as far as bytes, requests, room and payloads go at that moment |
| `NetProgress.BatchMoves` | cppfoundation/include/cppfoundation/cf_event_loop.hpp:96-122 | in a round every report does so, in the state the reports before it left, and no other report moves its connection's bytes |
| `NetProgress.RunBrings` | cppfoundation/include/cppfoundation/cf_event_loop.hpp:83-127 | over every run that does not close it, a connection has received exactly what was offered up to what was asked for, sent exactly what there was room for up to what was given, and is hung up exactly if it was or some report ended in a close too early |
| `NetProgress.HungUpOnlyAfterClose` | cpplibrary/netserver/src/cl_event_handler.cpp:248-271 | from the start: hung up only after a report that found the peer's close; without one, a connection with requests unanswered has its input registered |
| `NetStreams.OnReadReceives` | cpplibrary/netserver/src/cl_event_handler.cpp:237-297 | OnRead takes what the chain had room for, and touches no other connection's stream |
| `NetStreams.DispatchReceives` | cppfoundation/include/cppfoundation/cf_event_loop.hpp:83-127 | every handler keeps each connection's received bytes a prefix of its peer's stream |
| `NetStreams.RunReceives` | cppfoundation/include/cppfoundation/cf_event_loop.hpp:83-127 | so does every run, with connections opening, closing and descriptors being used again |
| `NetStreams.DeliveredIsPeersStream` | cpplibrary/netserver/src/cl_event_handler.cpp:115-297 | over every run from the start: what OnReadComplete was given is the peer's stream cut at the sizes asked for, in order, however recv and readiness split it |
| `EventHandler.BufferPool.GetFromPool` | cpplibrary/netserver/include/netserver/cl_buffer.hpp:136-158 | oldest free buffer, or a new one counted |
| `EventHandler.BufferPool.PutIntoPool` | cpplibrary/netserver/include/netserver/cl_buffer.hpp:159-165 | the buffer is free again, behind the others |
| `EventHandler.EventHandler.Init` | cpplibrary/netserver/src/cl_event_handler.cpp:52-70 | every invariant holds of a new handler |
| `EventHandler.EventHandler.AsyncRead` | cpplibrary/netserver/src/cl_event_handler.cpp:115-134 | exactly the size given is asked for, with one buffer of that size in the chain and input registered; no other connection changes; an unknown descriptor is refused and changes nothing |
| `EventHandler.EventHandler.AsyncWrite` | cpplibrary/netserver/src/cl_event_handler.cpp:135-152 | exactly the data given is queued and output registered; no other connection changes; an unknown descriptor is refused |
| `EventHandler.EventHandler.FillChain` | cpplibrary/netserver/src/cl_event_handler.cpp:248-270 | the read loop reads the chain as the function on the whole chain does, loses no byte of the socket, and withdraws interest exactly on completion or close |
| `EventHandler.EventHandler.ReadIntoChain` | cpplibrary/netserver/src/cl_event_handler.cpp:237-281 | completed buffers, and only they, leave the chain |
| `EventHandler.EventHandler.HandOut` | cpplibrary/netserver/src/cl_event_handler.cpp:282-291 | they go to the callback and the pool one by one, requests of each served before the next |
| `EventHandler.EventHandler.OnRead` | cpplibrary/netserver/src/cl_event_handler.cpp:237-297 | the whole new state is the model's and its ledger the one `NetLedger` calls for; all invariants hold; unread bytes stay in the socket; an unknown descriptor changes nothing |
| `EventHandler.EventHandler.DrainChain` | cpplibrary/netserver/src/cl_event_handler.cpp:312-330 | the write loop sends as the function on the whole chain does |
| `EventHandler.EventHandler.OnWrite` | cpplibrary/netserver/src/cl_event_handler.cpp:299-351 | the whole new state is the model's and its ledger the one `NetLedger` calls for; all invariants hold; the room used is the bytes sent |
| `EventHandler.EventHandler.CheckMaxConnection` | cpplibrary/netserver/src/cl_event_handler.cpp:466-500 | deregisters a listener at its limit after accepts, registers one below it after a close |
| `EventHandler.EventHandler.ClearSessionAndBuffer` | cpplibrary/netserver/src/cl_event_handler.cpp:434-463 | connection, count and registration are settled and all its buffers go back |
| `EventHandler.EventHandler.OnClose` | cpplibrary/netserver/src/cl_event_handler.cpp:352-379 | the whole new state is the model's; all invariants hold; an unknown descriptor changes nothing |
| `EventHandler.EventHandler.AddNewConn` | cpplibrary/netserver/src/cl_event_handler.cpp:381-414 | the whole new state is the model's |
| `EventHandler.EventHandler.OnAccept` | cpplibrary/netserver/src/cl_event_handler.cpp:187-236 | the whole new state is the model's; all invariants hold |
| `EventLoop.EventLoop.DispatchEvent` | cppfoundation/include/cppfoundation/cf_event_loop.hpp:98-122 | the handlers called are those of the model, in order, each with its precondition met; the ledger moves as the report says |
| `EventLoop.EventLoop.WaitEvent` | cppfoundation/include/cppfoundation/cf_event_loop.hpp:83-127 | the objects do, over every run, what the model's run and the ledger's fold do, and keep every invariant |

## Left out

- CircularQueue.CircularQueue.TryPut: takes byte strings shorter than 2^63, as any that exist in memory are; what the guard does for sizes near 2^64 is `GuardExact`.
- CircularQueue.Create: makes regions of less than 2^63 bytes, as any that exist in memory are.
- FastFindQueue.RawFastFindQueue.Get: is modelled as one hold of the lock, up to its wait or its return; the wait itself is that of the plain queue.
- EventLoop.EventLoop.WaitEvent: takes the waits it makes as a list, so the flag that stops the loop is only the end of the list; the list of events that the wait collects and the loop that dispatches them are one loop.
- EventHandler.EventHandler.AsyncRead: a buffer is a numbered value in a chain, so one buffer shared by several owners, such as a callback that keeps it, is not captured.
- EventHandler.EventHandler.OnClose: stands for OnError too, which differs only in the callback's name.
- Stopping the circular queue: its stop methods never set the status, so all is proved for the normal status.
- Timed waits of either queue.
- Critical sections of `Put` and `Get` on the circular queue are single steps of the blocking machine; lock, wait, unlock and signal are steps of their own.
- Wake-ups of the circular queue with several producers or consumers, which its single signal does not guarantee.
- The circular queue's attaching to an existing region, and its serial number, time, process id, magic and version fields.
- The wait count's 32-bit width.
- Hard errors of send, recv and epoll_wait, which throw.
- Closing from inside a callback, connections without a listener, starting and stopping listeners by hand.
- The epoll_wait system call, sockets, accept, fd passing and the synchronous segment calls.
- `RawNotifySet`, `RawMap`, `RawSet`, and the wrappers of threads, locks, processes, files, logging, compression and databases: foreign calls, or thin locks over containers.
- High-water marks and status dumps.
