# Bycorf in Dafny

Bycorf is a per-core coroutine runtime. Its correctness rests on small hand-written protocols:
how workers hand messages to each other and go to sleep, how an I/O backend keeps track of the
operations it has accepted, when a connection's memory may be freed, and a number of sequential
structures with invariants of their own. This project models those protocols and proves what they
promise, for all inputs, all interleavings and all runs.

| file | what it models |
|---|---|
| `CrossCore.dfy` | cross-core lanes, the active-sender bitmap, deferred republication, overflow queues and parking, as atomic steps of n workers and any number of foreign producers |
| `SpscRing.dfy` | the single-producer single-consumer ring with its cached head and bulk dequeue |
| `DrainCursor.dfy` | the cyclic drain with its 64-message batches and its 256-message quota |
| `IoUring.dfy` | the io_uring backend: submission ring, software FIFO, deferred completions, cancellation; the kernel is an environment |
| `Connections.dfy` | connection storage on top of that backend: in-flight counts, re-arming, closing, reclaiming |
| `SpdkStorage.dfy` | SPDK queue pairs with deferred submission, and a channel table that changes under callbacks |
| `InlineRing.dfy` | the growing and shrinking ring queue and the cost of its copying |
| `SocketTable.dfy` | socket handles, pins and the free list; handle ranges per worker |
| `WorkerMutex.dfy` | the FIFO mutex shared by workers, step by step under its spin guard |
| `ConnectRace.dfy` | a connect racing its timer and the caller's cancellation |
| `RpcFraming.dfy` | RPC headers and the server's parse loop over a chunked byte stream |
| `StreamOutput.dfy` | vectored writes, segmented HTTP bodies and the response head |
| `Callouts.dfy` | the timer list and its deadline arithmetic |
| `FlowSteering.dfy` | client ports, listener placement and the destination of a frame |
| `Bits.dfy` | masks, shifts and powers of two as arithmetic on numbers |

Concurrent protocols are state machines whose steps are single atomic accesses, under sequential
consistency. Code that changes objects in place is a class whose methods are proved against
functions on values; the theorems are about those functions and about whole runs of them. Foreign
code (the kernel, the device, the TCP stack, completion callbacks, allocation failure) is a
nondeterministic step or a parameter, with the assumptions made explicit where a step is enabled.

Where the code and its comments differ, the model follows the code. The comment in
`ConnectOperation::await_resume` says only the deadline cancels a connect; a caller's cancellation
does so too, and the enclosing awaitable then reports it as cancelled, which is what
`ConnectRace.StatusIsDetermined` states. `OpenClient` means to try every port of its stripe, but its
32-bit counter can jump when it wraps around; `FlowSteering.TriesEveryPort` says exactly when a call
does try them all, and `FlowSteering.AJumpExists` gives a call that does not. Steering by RSS takes a
listener placement with as many entries as there are workers for the set of all workers;
`FlowSteering.PlacedFrames` says exactly when a frame then still reaches a placed worker.

## Model

| member | source | states |
|---|---|---|
| `CrossCore.StepKeeps` | src/runtime/worker.cpp:840-1058 | every atomic step of every worker and foreign producer keeps the invariant that ties lane flags, bitmap bits, token holders, overflow flags and wake sequences together |
| `CrossCore.ActiveTokenIsUnique` | include/bycorf/runtime/cross_core.h:209-229 | in every interleaving a lane's active flag is up exactly when one party holds its token, and never two do |
| `CrossCore.MessagesConserved` | include/bycorf/runtime/cross_core.h:324-383 | in every run, for every receiver, producer and kind: the messages posted are exactly those handed to the receiver by its dequeues and overflow drains, those in the lane and the overflow queue, and the one the producer is about to put there |
| `CrossCore.NoLostWork` | src/runtime/worker.cpp:895-952 | every message in a lane or overflow queue is announced, or its sender still owes the announcement, or the receiver is about to look again; with MessagesConserved, every message posted |
| `CrossCore.WaitingLaneIsAnnounced` | src/runtime/worker.cpp:842-952 | between drains a nonempty lane has its bit set, unless its sender is in the middle of a post or owes a deferred publication; so every drain takes it, which is what NoStarvation asks of its drains |
| `CrossCore.NoLostWakeup` | src/runtime/worker.cpp:1036-1056 | while a worker is parked, a wake is pending or in flight, or every message left for it belongs to a producer that has yet to bump its wake sequence |
| `CrossCore.EmptyDrainTriesToSleep` | src/runtime/worker.cpp:1257-1273 | a drain ends in an attempt to sleep exactly if it belongs to a park section and took nothing |
| `CrossCore.SleepsIffNoBump` | src/runtime/worker.cpp:1257-1273 | that attempt succeeds exactly if no producer has bumped the wake sequence since the snapshot, in spite of the 32-bit wrap-around |
| `CrossCore.AwakeClearsSentinel` | src/runtime/worker.cpp:1257-1273 | a worker that wakes up takes the signal and runs with the sentinel gone |
| `CrossCore.BumpPaysDebt` | src/runtime/worker.cpp:1036-1056 | a bump clears the producer's pending entry for that receiver, counts once, and is followed by a wake exactly if it met the sentinel |
| `CrossCore.NoStall` | src/runtime/worker.cpp:1257-1273 | when all workers are parked without a pending wake and no producer is in the middle of anything, every queue is empty |
| `CrossCore.SendStepKeeps` | include/bycorf/runtime/cross_core.h:293-383 | posting, deferred publication and wake bumps keep the invariant from any state, also between the accesses of one post |
| `CrossCore.RecvStepKeeps` | src/runtime/worker.cpp:942-1056 | clearing a lane's flag, rechecking it and republishing keep the invariant, and so does every step of parking |
| `CrossCore.DrainOverflowKeeps` | src/runtime/worker.cpp:954-1003 | draining an overflow queue keeps the invariant whatever part of it the batch limit leaves behind |
| `SpscRing.DequeuedIsPrefix` | include/bycorf/runtime/cross_core.h:95-141 | in every interleaving the dequeued sequence is a prefix of the enqueued one, and the ring never holds more than capacity - 1 messages |
| `SpscRing.FirstInFirstOut` | include/bycorf/runtime/cross_core.h:95-141 | what all bulk dequeues together returned to their callers is a prefix of the values that the enqueues not refused were given, in order |
| `SpscRing.NoOverwrite` | include/bycorf/runtime/cross_core.h:101-116 | the producer, though its view of the head is stale, never writes a slot holding an unread message, even one being copied |
| `SpscRing.RefusesIffFull` | include/bycorf/runtime/cross_core.h:101-116 | an enqueue is refused exactly when the ring is full at the moment the producer refreshes its cached head |
| `SpscRing.BatchIsExact` | include/bycorf/runtime/cross_core.h:117-141 | a bulk dequeue returns exactly the messages published when it read the tail, oldest first, up to its maximum, whatever the producer does meanwhile |
| `DrainCursor.LowestBit` | src/runtime/worker.cpp:903-906 | the bit handled next is the lowest of those taken |
| `DrainCursor.Receiver.DrainQueue` | src/runtime/worker.cpp:914-924 | one bulk dequeue takes as much as the batch and the remaining quota allow and charges it to the cursor |
| `DrainCursor.Receiver.DrainLane` | src/runtime/worker.cpp:925-929 | the three kinds share one quota, in the order requests, replies, notifications |
| `DrainCursor.Receiver.VisitLane` | src/runtime/worker.cpp:909-940 | a visit takes from the three queues what the batch and the shared quota allow and moves the cursor only when the quota is used up or the batch is not full |
| `DrainCursor.Receiver.HandleWord` | src/runtime/worker.cpp:903-949 | the taken bits of one word that name a sender are visited once each, lowest first |
| `DrainCursor.Receiver.DrainSpsc` | src/runtime/worker.cpp:886-952 | one drain visits every taken sender exactly once, in cyclic order from the cursor, across the wrapped bitmap words |
| `DrainCursor.VisitWithinQuota` | src/runtime/worker.cpp:914-940 | no visit takes more than 256 messages in all kinds together, and a visit before the batch is full takes something from a nonempty lane |
| `DrainCursor.VisitIsGreedy` | src/runtime/worker.cpp:909-940 | a visit leaves messages of a kind behind only if that kind's batch or the quota is used up, and keeps the cursor exactly if a batch is full and quota is left |
| `DrainCursor.SweepOrder` | src/runtime/worker.cpp:887-908 | going through the words from the cursor's, splitting that word, is going through the senders in cyclic order |
| `DrainCursor.DrainProgress` | src/runtime/worker.cpp:886-952 | a drain serves a waiting sender or brings the cursor strictly closer to it |
| `DrainCursor.NoStarvation` | src/runtime/worker.cpp:842-952 | a sender whose lane is announced and nonempty in each of 4n consecutive drains has a message consumed in one of them, whatever the others do; CrossCore.WaitingLaneIsAnnounced says when a lane is announced |
| `IoUring.IoUringBackend.SubmitOrQueue` | src/io/io_uring_backend.cpp:248-282 | an operation goes behind everything accepted before, never overfills the ring, and waits in the FIFO only behind others or for want of room |
| `IoUring.IoUringBackend.DrainPending` | src/io/io_uring_backend.cpp:391-406 | waiting operations move behind those in the ring, in order, until none waits or the ring is full |
| `IoUring.IoUringBackend.CancelInSq` | src/io/io_uring_backend.cpp:442-451 | matching ring entries become no-ops in place and their completions are deferred in ring order |
| `IoUring.IoUringBackend.CancelQueued` | src/io/io_uring_backend.cpp:452-460 | matching FIFO entries leave, the rest keep their order, and completions are deferred in FIFO order |
| `IoUring.IoUringBackend.CancelUnsubmittedMatching` | src/io/io_uring_backend.cpp:428-462 | matching entries become no-ops in the ring, leave the FIFO, and complete through the deferred list in order |
| `IoUring.RetiredInOrder` | src/io/io_uring_backend.cpp:428-462 | the deferred completions come in the order in which the entries were accepted |
| `IoUring.IoUringBackend.CancelByData` | src/io/io_uring_backend.cpp:464-485 | a cancel retires an unsubmitted target at once and is itself completed, and is sent to the kernel otherwise |
| `IoUring.CancelTakesEffect` | src/io/io_uring_backend.cpp:464-485 | an unsubmitted target leaves at once and completes as cancelled, with the cancel done; else the cancel itself waits for the kernel; nothing else is affected |
| `IoUring.IoUringBackend.CancelUnsubmittedForFd` | src/io/io_uring_backend.cpp:487-503 | every unsubmitted socket operation on the descriptor is retired |
| `IoUring.CloseTakesEffect` | src/io/io_uring_backend.cpp:487-503 | exactly the unsubmitted sends, receives, accepts, connects and polls on the plain descriptor leave, each completing as cancelled |
| `IoUring.IoUringBackend.RetireUnsubmittedCancels` | src/io/io_uring_backend.cpp:884-897 | every unsubmitted cancel aimed at the tag is retired and the flag is recomputed |
| `IoUring.FlagIsExact` | src/io/io_uring_backend.cpp:884-897 | the flag is then up exactly if another unsubmitted cancel is left |
| `IoUring.IoUringBackend.PrepareDispatch` | src/io/io_uring_backend.cpp:898-902 | what a completion does to waiting cancels before its callback runs, skipped when the flag is down |
| `IoUring.StepKeeps` | src/io/io_uring_backend.cpp:898-981 | submissions, cancellations, descriptor closes, kernel progress and both ways of dispatching keep the invariant |
| `IoUring.RingFits` | src/io/io_uring_backend.cpp:248-282 | in every run the ring never holds more than its entries |
| `IoUring.ExactlyOnce` | src/io/io_uring_backend.cpp:413-426 | every accepted operation is in exactly one of FIFO, ring, kernel, completion queue, deferred completions or delivered, and nothing else is in any of them |
| `IoUring.SubmissionOrder` | src/io/io_uring_backend.cpp:248-282 | operations enter the kernel in acceptance order through any backlog, and what waits was accepted later |
| `IoUring.BacklogReachesKernel` | src/io/io_uring_backend.cpp:391-406 | however long the backlog, rounds of draining and entering hand every waiting entry to the kernel, in order |
| `IoUring.DeferredAreDelivered` | src/io/io_uring_backend.cpp:414-426 | one round delivers every completion deferred when it began, in order |
| `IoUring.NothingReappears` | src/io/io_uring_backend.cpp:391-485 | an entry that has left the queues never comes back |
| `IoUring.NoStaleCancel` | src/io/io_uring_backend.cpp:884-902 | after a terminal completion is dispatched, no cancel accepted before it and aimed at its tag is waiting or ever enters the kernel |
| `IoUring.NoStaleDescriptor` | src/io/io_uring_backend.cpp:487-503 | after a descriptor is closed, no send, receive, accept, connect or poll on it accepted before is waiting or can still reach the kernel |
| `IoUring.SkipIsSound` | src/io/io_uring_backend.cpp:898-902 | while the may-have-cancels flag is down there is no unsubmitted cancel |
| `Connections.StepKeeps` | src/io/io_uring_backend.cpp:662-753 | arming, polling, writing, cancelling, closing, dispatching, re-arming, adding and reclaiming keep the connection table in agreement with what is outstanding |
| `Connections.StartsOperation` | src/io/io_uring_backend.cpp:662-741 | starting a receive, poll or write on an open connection that has none of that kind submits one |
| `Connections.HandleTerminal` | src/io/io_uring_backend.cpp:799-882 | handling a terminal receive, poll or write completion, with its re-arm decision, keeps the connection table in agreement with what is outstanding |
| `Connections.CompletionReachesReader` | src/io/io_uring_backend.cpp:799-865 | data that came with a buffer is there to be read, a result of 0 ends the stream, and a waiting reader is woken unless the receive was cancelled or found no buffer |
| `Connections.InflightIsExact` | src/net/tcp_stream.cpp:245-287 | a connection's in-flight count is always the number of its receives, polls and writes that are queued, in the kernel or not yet dispatched |
| `Connections.NoUseAfterReclaim` | src/io/io_uring_backend.cpp:898-943 | every completion is handled by the very connection that started the operation, also when addresses are reused |
| `Connections.RearmQueueIsLive` | src/io/io_uring_backend.cpp:945-962 | every entry of the re-arm queue names a live connection, and the queue is empty between polls |
| `Connections.NoReceiveForgotten` | src/io/io_uring_backend.cpp:840-855 | when the last completion of a multishot receive finds its reader still wanting data, the connection is re-armed before the poll ends, unless it stops wanting them |
| `Connections.ReclaimIsSafe` | src/runtime/worker.cpp:760-794 | when storage is reclaimed, no queued entry, kernel operation, completion, deferred completion, unsubmitted cancel, re-arm entry or borrow refers to it |
| `Connections.ReclaimableIffIdle` | src/runtime/worker.cpp:760-794 | storage can be reclaimed exactly if the connection is not active, no operation refers to it, and its reader has no data, read, waiter or borrow left |
| `Connections.ConnectionTable.Disconnect` | src/runtime/worker.cpp:366-394 | the poll is cancelled unless that was already asked for, the receive if armed, and the descriptor's unsubmitted operations before it is given up |
| `Connections.ConnectionTable.BeginClose` | src/runtime/worker.cpp:347-409 | closing leaves no unsubmitted socket operation on the descriptor, takes an armed receive and poll back, and lists the connection for reclaiming once |
| `Connections.CloseReleases` | src/runtime/worker.cpp:366-394 | after a close no socket operation on the descriptor is unsubmitted, and an armed receive, and an armed poll not yet cancelled, has been retired or has a cancel of its own accepted |
| `Connections.ClosedDescriptorIsQuiet` | src/runtime/worker.cpp:382-394 | in every later state of a run, no socket operation on that descriptor accepted before the close waits or has entered the kernel since |
| `Connections.CancelledPollsAreAsked` | src/io/io_uring_backend.cpp:743-753 | in every run an armed poll marked as cancelled has had a cancel accepted after it |
| `Connections.DrainsWhileReferenced` | src/runtime/worker.cpp:347-429 | a first close wakes the reader, drops unread data and rules out any further receive, poll or write; the connection counts as retired at once exactly if no operation that refers to it is outstanding, nothing was unread and no read was under way, and drains otherwise |
| `Connections.ClosedAgain` | src/runtime/worker.cpp:347-418 | closing once more keeps what is outstanding and unread and only sets the state |
| `Connections.ConnectionTable.Sweep` | src/runtime/worker.cpp:777-791 | a listed connection is freed if it can be reclaimed and is marked as draining otherwise |
| `Connections.ConnectionTable.ReclaimConnections` | src/runtime/worker.cpp:769-794 | exactly the retired connections that nothing needs are freed, and the rest stay listed with their operations unchanged |
| `SpdkStorage.SpdkBackend.SubmitOrDefer` | src/io/spdk_storage.cpp:671-690 | a request goes to the device only when none of its queue pair waits, waits when the device is full but will have room, and is refused otherwise |
| `SpdkStorage.SpdkBackend.QueuePending` | src/io/spdk_storage.cpp:692-706 | a waiting request is counted on admission, and a failed allocation changes nothing |
| `SpdkStorage.SpdkBackend.SubmitOpenDirect` | src/io/spdk_storage.cpp:497-538 | the file is then open on the channel of its controller, created if there is none, and no other file changes |
| `SpdkStorage.SpdkBackend.FindChannel` | src/io/spdk_storage.cpp:513-517 | the search ends at the controller's channel, or past the end when it has none |
| `SpdkStorage.SpdkBackend.RemoveChannel` | src/io/spdk_storage.cpp:549-565 | the channel goes, the generation advances, later indices move down by one, and the cursor stays where it is if that is still in range and is brought into range otherwise |
| `SpdkStorage.SpdkBackend.SubmitCloseDirect` | src/io/spdk_storage.cpp:540-569 | a close is refused while anything is outstanding; else the file is closed, the last user removes the channel, and every other file stays on its queue pair |
| `SpdkStorage.SpdkBackend.RetryDeferred` | src/io/spdk_storage.cpp:708-738 | of everything that has waited, the requests tried so far are held by the device if it answered 0 and have completed, in order, if it answered an error; the rest still waits, unless the table has changed; it ends when none waits, at the limit, at ENOMEM while the device holds a command, or when a callback has changed the table |
| `SpdkStorage.SpdkBackend.RetryOne` | src/io/spdk_storage.cpp:718-736 | the oldest waiting request goes to the device exactly if that answers 0, stays exactly if that answers ENOMEM while holding a command, and completes otherwise |
| `SpdkStorage.AnswerDecides` | src/io/spdk_storage.cpp:718-736 | the same for every retry in every run |
| `SpdkStorage.SpdkBackend.CompleteIssued` | src/io/spdk_storage.cpp:414-433 | exactly that command is completed, once; its callback, whatever it does, keeps the invariant, and table and cursor stay as they were while the generation is the same |
| `SpdkStorage.SpdkBackend.Visit` | src/io/spdk_storage.cpp:769-785 | a visit enters the device for the queue pair, lets no more complete than allowed, and then, if requests wait and the table is as it was, retries them |
| `SpdkStorage.SpdkBackend.PollOne` | src/io/spdk_storage.cpp:758-785 | a channel is polled exactly if the limit is not reached, with the cursor set behind it before its callbacks run and on it otherwise |
| `SpdkStorage.SpdkBackend.DispatchReady` | src/io/spdk_storage.cpp:743-751 | exactly the completions that were ready are handed out, in order, whatever their callbacks add |
| `SpdkStorage.SpdkBackend.PollChannels` | src/io/spdk_storage.cpp:752-786 | a pass is such a visit of each channel of the table in cyclic order from the cursor, with what the completions so far leave of the limit; the cursor ends behind the last one visited, the returned count is what has completed, and the pass stops short only if that has reached the limit or a callback has changed the table |
| `SpdkStorage.NoChannelSkipped` | src/io/spdk_storage.cpp:754-764 | a pass that is not cut short enters the device for every queue pair of the table |
| `SpdkStorage.CyclicIsRemainder` | src/io/spdk_storage.cpp:759 | going around once by comparison is going around by remainder, as the code does |
| `SpdkStorage.SpdkBackend.Poll` | src/io/spdk_storage.cpp:740-787 | a poll hands out everything that was ready when it began, in order, then makes one such pass over the table as those callbacks left it, and returns how many completions it caused |
| `SpdkStorage.StepKeeps` | src/io/spdk_storage.cpp:497-787 | every user call, retry, device completion and dispatch keeps the invariant |
| `SpdkStorage.OutstandingIsExact` | src/io/spdk_storage.cpp:429-433 | the admission count is what the devices hold plus what waits, and is positive whenever it is decremented |
| `SpdkStorage.DecidedInOrder` | src/io/spdk_storage.cpp:671-738 | each queue pair's accepted requests are issued or failed in the order of acceptance, and all of them once nothing is outstanding |
| `SpdkStorage.OneCompletionEach` | src/io/spdk_storage.cpp:429-433 | every accepted request is in exactly one place and completes at most once, and has completed once everything is drained |
| `SpdkStorage.IndexNamesChannel` | src/io/spdk_storage.cpp:540-569 | an open file's cached index always names the channel holding its queue pair |
| `InlineRing.InlineRingQueue.PushBack` | include/bycorf/base/inline_ring_queue.h:103-110 | the element is appended to the abstract sequence through wrap and growth, or nothing changes when growing fails |
| `InlineRing.InlineRingQueue.PopFront` | include/bycorf/base/inline_ring_queue.h:112-127 | the oldest element leaves the abstract sequence, and the ring shrinks after a full capacity's worth of low-water pops |
| `InlineRing.InlineRingQueue.Grow` | include/bycorf/base/inline_ring_queue.h:172-186 | growing keeps the contents and copies each element once |
| `InlineRing.InlineRingQueue.Shrink` | include/bycorf/base/inline_ring_queue.h:188-208 | shrinking fits the live elements and keeps them, and a failed allocation leaves the ring alone |
| `InlineRing.InlineRingQueue.CopyTo` | include/bycorf/base/inline_ring_queue.h:210-220 | the two copy loops lay the elements out from the start of the destination, in order |
| `InlineRing.InlineRingQueue.At` | include/bycorf/base/inline_ring_queue.h:86-93 | indexing through the mask reads the element at that position of the abstract sequence |
| `InlineRing.InlineRingQueue.Front` | include/bycorf/base/inline_ring_queue.h:94-101 | the front is the oldest element |
| `InlineRing.InlineRingQueue.Clear` | include/bycorf/base/inline_ring_queue.h:129-131 | the queue is empty afterwards and keeps its storage |
| `InlineRing.InlineRingQueue.MoveFrom` | include/bycorf/base/inline_ring_queue.h:57-79 | a move takes over contents and shape and leaves the other queue empty, inline and with storage of its own |
| `InlineRing.NextOk` | include/bycorf/base/inline_ring_queue.h:165-208 | every operation keeps size, capacity and low-water count in bounds, so no 32-bit sum overflows |
| `InlineRing.AmortisedCopies` | include/bycorf/base/inline_ring_queue.h:103-208 | from an empty queue, growing and shrinking copy at most 2 * pushes + pops elements, for all operation sequences and allocation failures |
| `InlineRing.ShrinksOnlyAfterCalm` | include/bycorf/base/inline_ring_queue.h:112-127 | the capacity does not drop before a full capacity's worth of pops, however mixed with pushes |
| `InlineRing.ShrinksAfterCalm` | include/bycorf/base/inline_ring_queue.h:112-127 | a queue that stays nearly empty for a full capacity's worth of pops, however mixed with pushes, gets a smaller capacity |
| `Bits.MaskWraps` | include/bycorf/base/inline_ring_queue.h:86-93 | masking with capacity - 1 is one turn around a ring of power-of-two capacity |
| `SocketTable.DpdkSocketTable.Insert` | src/io/dpdk_socket_table.h:87-101 | insertion fails exactly when live and draining slots fill the capacity, and never hands out a pinned slot |
| `SocketTable.DpdkSocketTable.Acquire` | src/io/dpdk_socket_table.h:107-109 | a pin is taken on the socket the handle names at that moment |
| `SocketTable.DpdkSocketTable.Copy` | src/io/dpdk_socket_table.h:25-27 | a copied pin holds the same slot for the same socket |
| `SocketTable.DpdkSocketTable.Get` | src/io/dpdk_socket_table.h:48-50 | a pin resolves to the socket it was taken on or to none |
| `SocketTable.DpdkSocketTable.Reset` | src/io/dpdk_socket_table.h:52-58 | the last pin of a closed socket returns the slot to the free list, and no handle changes its meaning |
| `SocketTable.DpdkSocketTable.Recycle` | src/io/dpdk_socket_table.h:140-143 | a slot that has just become free goes to the front of the free list |
| `SocketTable.DpdkSocketTable.Close` | src/io/dpdk_socket_table.h:113-120 | a close gives up the transport of that handle only, and the slot only when nothing pins it |
| `SocketTable.DpdkSocketTable.CloseAll` | src/io/dpdk_socket_table.h:122-127 | no handle resolves afterwards |
| `SocketTable.FreeTake` | src/io/dpdk_socket_table.h:87-101 | taking the head keeps the free list an acyclic list of exactly the free slots |
| `SocketTable.FreeRecycle` | src/io/dpdk_socket_table.h:140-143 | recycling keeps the free list an acyclic list of exactly the free slots |
| `SocketTable.HandleRanges` | src/io/dpdk_backend.cpp:66-71 | every worker's handles are positive ints above the kernel's, and no two workers share one |
| `SocketTable.HandleSpaceIsUsed` | src/io/dpdk_backend.cpp:66-71 | the ranges together use all bits below the first handle, with no more bits for the worker than needed |
| `WorkerMutex.StepKeeps` | include/bycorf/runtime/sync.h:147-194 | every access of AcquireOrQueue, Unlock and await_resume keeps the invariant |
| `WorkerMutex.AtMostOneOwner` | include/bycorf/runtime/sync.h:147-164 | at most one coroutine owns the mutex, and then the flag is set |
| `WorkerMutex.FreeMeansNobodyWaits` | include/bycorf/runtime/sync.h:167-174 | the flag is clear only when nobody owns the mutex, waits for it or is being handed it |
| `WorkerMutex.GrantsInOrder` | include/bycorf/runtime/sync.h:167-194 | waiters are granted ownership and resumed once each, in the order they queued, and a newcomer takes the mutex directly only when nobody waits |
| `WorkerMutex.ListIsQueue` | include/bycorf/runtime/sync.h:158-164 | whenever the guard is free, the intrusive list from head to tail is the queue of waiters |
| `WorkerMutex.NeverDangles` | include/bycorf/runtime/sync.h:147-194 | every record that is followed belongs to a coroutine that still waits: a newcomer links behind one in the queue, ownership goes to one that is queued and asleep, and the one resumed is asleep and owns the mutex; so only the guard makes a coroutine wait |
| `ConnectRace.ConnectOperation.Suspend` | src/net/tcp_stream.cpp:362-389 | what is submitted, recorded and cancelled for every outcome of the two submissions, with a replayed early cancellation |
| `ConnectRace.ConnectOperation.Complete` | src/net/tcp_stream.cpp:406-414 | the connect's completion records the result, cancels a pending timer and resumes if everything is done |
| `ConnectRace.ConnectOperation.OnTimeoutComplete` | src/net/tcp_stream.cpp:422-431 | the timer's completion cancels a pending connect and resumes if everything is done |
| `ConnectRace.ConnectOperation.CancelLoser` | src/net/tcp_stream.cpp:433-442 | a loser is cancelled at most once |
| `ConnectRace.ConnectOperation.MaybeResume` | src/net/tcp_stream.cpp:444-453 | the coroutine is enqueued exactly when both parts are done for the first time |
| `ConnectRace.ConnectOperation.Cancel` | src/net/tcp_stream.cpp:726-730 | a caller's cancellation reaches the connect only while the awaitable is bound |
| `ConnectRace.ConnectOperation.Resume` | src/net/tcp_stream.cpp:391-404 | the status returned for every combination of recorded failure, result and cancellation |
| `ConnectRace.ResumedExactlyOnce` | src/net/tcp_stream.cpp:444-453 | over all orders of events the coroutine is enqueued at most once, only after everything accepted has completed, and always by then |
| `ConnectRace.OneLoserCancel` | src/net/tcp_stream.cpp:433-442 | there is at most one loser cancel in a run, and no cancel at all after the frame has finished |
| `ConnectRace.CancelsAreExact` | src/net/tcp_stream.cpp:362-442 | in every run the cancels sent to the connect are one if the timer completed first, one if the timer could not be submitted and one if the caller cancelled it while under way or before, and the timer is sent one exactly if the connect completed first |
| `ConnectRace.ExpiryReachesConnect` | src/net/tcp_stream.cpp:422-431 | a timer that completes before the connect always pulls the connect back and never itself |
| `ConnectRace.StatusIsDetermined` | src/net/tcp_stream.cpp:391-404 | the status is determined by what had happened when the coroutine was resumed: cancelled exactly if the caller had cancelled by then, else the failed submission, else the connect's result |
| `ConnectRace.DeadlineMeansTimerFirst` | src/net/tcp_stream.cpp:391-404 | a deadline is reported only if the timer completed while the connect had not and the connect was cancelled, success only if the connect returned 0, an invalid target only if no connect completed |
| `RpcFraming.DecodeInvertsEncode` | src/rpc/rpc.cpp:83-99 | decoding a header inverts encoding it, for all field values and whatever follows |
| `RpcFraming.EncodeInvertsDecode` | src/rpc/rpc.cpp:83-99 | encoding inverts decoding on every 16 bytes |
| `RpcFraming.WireLayout` | src/rpc/rpc.cpp:42-99 | which byte of which field stands at each position of a header, lowest byte first |
| `RpcFraming.Store` | src/rpc/rpc.cpp:42-57 | the store loops write the value's bytes, lowest first, and touch nothing else |
| `RpcFraming.LoadInvertsStore` | src/rpc/rpc.cpp:59-81 | loading inverts storing for every width |
| `RpcFraming.ParseResumes` | src/rpc/rpc.cpp:126-170 | parsing a longer stream resumes where parsing its beginning stopped, so where reads split the stream does not matter |
| `RpcFraming.ParseGrows` | src/rpc/rpc.cpp:126-170 | requests found stay found when more bytes arrive, and a malformed header stays the end of the stream |
| `RpcFraming.ParseInvertsStream` | src/rpc/rpc.cpp:101-108 | parsing a framed sequence of well-formed requests yields exactly those requests |
| `RpcFraming.RpcServer.OnVerb` | src/rpc/rpc.cpp:114-116 | from then on the handler answers every request with that verb, unless an asynchronous handler does, and the answers to all other requests stay the same |
| `RpcFraming.RpcServer.OnVerbAsync` | src/rpc/rpc.cpp:118-120 | from then on the handler answers every request with that verb, whatever answered it before, and the answers to all other requests stay the same |
| `RpcFraming.RpcServer.Handle` | src/rpc/rpc.cpp:139-157 | asynchronous handlers come first, unknown verbs get an empty response, and an oversized response is refused |
| `RpcFraming.ReplyMatches` | src/rpc/rpc.cpp:150-157 | a response carries the number and verb of its request and exactly the handler's answer |
| `RpcFraming.RpcServer.DrainBuffer` | src/rpc/rpc.cpp:129-160 | one pass calls the handlers on the buffer's complete requests in order, up to a malformed header or the first oversized response, and otherwise leaves their responses in order and the incomplete rest |
| `RpcFraming.RpcServer.Serve` | src/rpc/rpc.cpp:122-174 | for any split into reads, up to an empty one: the server serves the stream to its end exactly if all its headers and responses are acceptable, with the responses written in order and less than one frame left; else the handlers were called on its requests in order up to the malformed header or the first oversized response, which shows in the bytes read so far, and exactly the requests complete before the last read have been answered, in order |
| `StreamOutput.TcpStream.WriteAll` | src/net/tcp_stream.cpp:576-600 | succeeds exactly if every write took something, and then the buffer went out once; else the status is the cause of the first write that did not, which is the last one made, and a prefix of the buffer went out |
| `StreamOutput.TcpStream.DropEmpty` | src/net/tcp_stream.cpp:603-607 | the non-empty buffers are kept in order |
| `StreamOutput.TcpStream.WriteAllV` | src/net/tcp_stream.cpp:602-633 | for any partial writes: succeeds exactly if every write took something and not more than offered, and then the concatenation of the buffers went out once and in order; else the status is the cause of the first bad write, which is the last one made, and a prefix went out |
| `StreamOutput.TcpStream.Skip` | src/net/tcp_stream.cpp:619-623 | the pieces stepped over are those the write has taken in full |
| `StreamOutput.HttpResponse.AppendBody` | src/net/http_service.cpp:51-62 | owned text is appended to what will be sent, extending the last piece where possible |
| `StreamOutput.HttpResponse.AppendBorrowedBody` | src/net/http_service.cpp:43-49 | borrowed text is appended to what will be sent |
| `StreamOutput.HttpResponse.BodySize` | src/net/http_service.cpp:64-69 | the size is the length of what will be sent |
| `StreamOutput.HttpResponse.Replace` | src/net/http_service.cpp:173-178 | a failed handler's pieces are dropped and only the replacement text is sent |
| `StreamOutput.WriteBatches` | src/net/http_service.cpp:202-215 | the pieces go out in order through batches of at most 1024; success exactly if every write of every batch was good, else the first bad one ends it and gives the status |
| `StreamOutput.WriteResponse` | src/net/http_service.cpp:187-217 | succeeds exactly if every write was good, and then the head, announcing the body's length, and exactly the appended texts in order went out; else the first bad write ends it and gives the status |
| `StreamOutput.LengthIsReadBack` | src/net/http_service.cpp:189-193 | the printed Content-Length reads back as the number of octets sent, as section 8.6 of RFC 9110 asks |
| `Callouts.CalloutList.Reset` | src/io/freebsd/timers.c:112-136 | a reset takes an earlier arming off the list, tells whether there was one, and inserts the new one behind everything that is not due later |
| `Callouts.CalloutList.Insert` | src/io/freebsd/timers.c:127-134 | the walk inserts before the first callout that is due later, else at the end |
| `Callouts.CalloutList.Stop` | src/io/freebsd/timers.c:97-106 | a stop removes exactly that callout and tells whether it was pending |
| `Callouts.CallsAreLocal` | src/io/freebsd/timers.c:97-136 | a stop leaves nothing of the callout pending and a reset one arming, for the time asked for; the others stay as they are |
| `Callouts.CalloutList.Poll` | src/io/freebsd/timers.c:141-159 | a poll is at most 256 times: take the first callout off while it is due, run it, and let its function reset and stop callouts as it likes |
| `Callouts.FiresTheLeast` | src/io/freebsd/timers.c:147-155 | the callout run is one that was pending and due, before every other pending one in time and then in order of arming |
| `Callouts.PolledRuns` | src/io/freebsd/timers.c:141-159 | a poll runs at most its bound, and fewer only if nothing due is left |
| `Callouts.RunsAtItsTime` | src/io/freebsd/timers.c:107-159 | a callout reset for a time is not run by a poll before it, and a poll from then on runs it unless it is stopped or reset first or the poll has run its bound |
| `Callouts.AnySequence` | src/io/freebsd/timers.c:97-159 | under any sequence of resets, stops and polls, with whatever the callouts do, the list stays sorted and stable, every callout run was due and first, and each arming is exactly one of pending, run, or stopped or replaced |
| `Callouts.InsertedSorted` | src/io/freebsd/timers.c:127-135 | the list stays sorted by time and, among equals, by arming order |
| `Callouts.WithoutSorted` | src/io/freebsd/timers.c:97-106 | removal keeps the order and leaves no second entry |
| `Callouts.UptimeIsFloor` | src/io/freebsd/timers.c:31-34 | converting seconds and nanoseconds separately rounds like converting the whole |
| `Callouts.DueAtDeadline` | src/io/freebsd/timers.c:160-168 | once the clock reaches the computed deadline the head callout is due, in spite of both roundings and two clock readings |
| `Callouts.NotDueBefore` | src/io/freebsd/timers.c:160-168 | with one clock reading the callout is not due two nanoseconds before the deadline |
| `Callouts.DueOneBefore` | src/io/freebsd/timers.c:160-168 | it is due one nanosecond before exactly if the reading was further past a clock tick than the last nanosecond has to cover |
| `Callouts.OneNanosecondEarly` | src/io/freebsd/timers.c:160-168 | a reading and a time for which it is |
| `FlowSteering.StripeInRange` | src/io/dpdk_backend.cpp:1195-1200 | a worker's client ports lie in the ephemeral range |
| `FlowSteering.StripesDisjoint` | src/io/dpdk_backend.cpp:1195-1200 | no two workers have a client port in common |
| `FlowSteering.StripesCover` | src/io/dpdk_backend.cpp:1195-1200 | every ephemeral port belongs to a worker |
| `FlowSteering.Fabric.ConfigureListenerWorkers` | src/io/dpdk_backend.cpp:599-612 | placements are fixed before startup and never contradict each other |
| `FlowSteering.Fabric.PrepareRuntime` | src/io/dpdk_backend.cpp:614-640 | startup succeeds exactly if it has not before, the number of workers is within the limit, every placement is on existing workers, and stack, environment and device can serve them; a failure changes nothing |
| `FlowSteering.Fabric.Claim` | src/io/dpdk_backend.cpp:1174-1178 | a port changes owner only from unused, and the previous owner is reported |
| `FlowSteering.Fabric.TryPort` | src/io/dpdk_backend.cpp:1198-1206 | a tried port is claimed for the worker, or is placed or owned by somebody else |
| `FlowSteering.Fabric.Listen` | src/io/dpdk_backend.cpp:1165-1188 | an unused port is claimed for listeners before the socket is opened and stays claimed if that fails; listening succeeds exactly if the port is then a listener's and the stack grants the socket, and no claimed port changes owner |
| `FlowSteering.Fabric.OpenClient` | src/io/dpdk_backend.cpp:1190-1218 | the ports of the stripe are tried in turn from the counter; each one passed over was placed, owned by somebody else, or claimed and answered as in use; the call ends at the first port claimed and not in use, with a socket on it or the stack's other error, or after a stripe's worth of tries, and no claimed port changes owner whatever the other workers do |
| `FlowSteering.ClientFramesReachOpener` | src/io/dpdk_backend.cpp:144-163 | every unfragmented TCP frame to a port a worker opened goes to that worker, by hash and by RSS, now and after any later claims |
| `FlowSteering.TargetIsWorker` | src/io/dpdk_backend.cpp:144-175 | every TCP frame goes to a worker that exists |
| `FlowSteering.WhoIsConcerned` | src/io/dpdk_backend.cpp:144-156 | a frame goes to all workers exactly if it is ARP or ICMP, and to none exactly if it is neither that nor an unfragmented TCP segment |
| `FlowSteering.PlacedFrames` | src/io/dpdk_backend.cpp:157-175 | a frame to a port with placed listeners goes to one of their workers, unless RSS steering takes a placement with as many entries as there are workers for all of them and the receiving queue's worker is not in it |
| `FlowSteering.DistinctPlacementCovers` | src/net/tcp_service.cpp:39-52 | a placement without duplicates, as the TCP service makes it, never runs into that |
| `FlowSteering.DoublePlacementLeaks` | src/io/dpdk_backend.cpp:163-165 | a placement that names a worker twice can |
| `FlowSteering.HashedFrames` | src/io/dpdk_backend.cpp:166-175 | without RSS, a frame that no client owns is spread by the hash of its flow over the placed workers or over all |
| `FlowSteering.TargetFixedByFlow` | src/io/dpdk_backend.cpp:163-175 | with fixed tables the target depends on the addresses and ports only, and on the receive queue under RSS |
| `FlowSteering.TriesEveryPort` | src/io/dpdk_backend.cpp:1195-1200 | a call of OpenClient tries every port of its stripe exactly when its counter does not wrap during the call or the stripe's size divides 2^32 |
| `FlowSteering.InUseMeansFull` | src/io/dpdk_backend.cpp:1195-1218 | under that condition a call that finds nothing has tried every port of the stripe, and each was placed, owned by somebody else, or claimed by this worker and answered as in use |
| `FlowSteering.AJumpExists` | src/io/dpdk_backend.cpp:1195-1200 | with one worker, a call starting at the counter's last value never tries the last port |

## Left out

- Weak memory: every step is sequentially consistent, so acquire and release choices are not examined.
- The vendored concurrent queue: overflow queues are atomic queues, counted per producer and kind.
- CrossCore.StepKeeps: fewer than 2^32 bumps of a wake sequence are assumed between a snapshot and its compare-and-swap; a wake is delivered in one step; the order in which FlushWakes goes through its targets and in which a drain takes words and kinds is arbitrary; a drain leaves messages behind only in a queue it took something from, which DrainCursor justifies.
- DrainCursor.NoStarvation: is about drains that find no overflow work; with overflow work the batch is shared with it. That each drain takes the sender's bit is a premise here; CrossCore.WaitingLaneIsAnnounced proves it in the concurrent model for a sender that has completed its posts and owes no deferred publication.
- IoUring.ExactlyOnce: Shutdown, fixed-buffer registration and the ring's own setup are not modelled; nor is the shutdown of the SPDK backend.
- Connections.StepKeeps: the connection table is a value in the state machine; only closing and reclaiming are also modelled as updates in place. Idle-connection checks, TLS and the DPDK variant of the network backend are not modelled.
- Liveness of reclamation: a data completion that arrives after retirement can queue a buffer again, so only safety is stated.
- SpdkStorage.SpdkBackend.RetryDeferred: the device's answers are a parameter, and it may also stop after a given number of turns, because callbacks that resubmit failing requests could keep the original going for ever.
- SPDK path parsing, range and alignment checks, and synchronous metadata I/O.
- InlineRing.InlineRingQueue.MoveFrom: inline slots and heap slots are both arrays; the union that overlays them is not modelled.
- SocketTable.DpdkSocketTable.Acquire: Pin objects are named values; the C++ move operations only rename them.
- WorkerMutex.StepKeeps: resuming a waiter on its own worker or through a notification is one step; CrossCore covers the notification.
- RpcFraming.RpcServer.Serve: the transport delivers every read and accepts every write, and handlers are functions of the payload.
- RpcClient: its write coalescing and read loop are easier than the server's loop; calls after its read loop has ended are not promised to complete.
- StreamOutput.WriteResponse: text is a sequence of characters; request parsing and routing are not modelled.
- Callouts.CalloutList.Poll: what the callouts' functions do is a parameter; the queue links are a sequence; locks and the per-CPU check are not modelled, and the 64-bit clock does not wrap.
- FlowSteering.Fabric.OpenClient: the answers of the TCP stack, and whether the worker can own another socket, are parameters; other workers' claims happen between two tries.
- FlowSteering.Fabric.PrepareRuntime: whether the stack, the environment and the device can serve the workers is one parameter.
- Statistics, logging, error-code mapping, option handling, device setup, coroutine frames and their pooling, CircularQueue and the detached-task list.
