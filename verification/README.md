# Velox: a verified model of the receive queue, its wire codec and its lookups

Velox is a userspace TCP/IP stack. Packets that a protocol thread accepts travel to the event loop
through a lock-free queue with a blocking layer on top; applications talk to the daemon in
`Request` messages. This project models that path in Dafny and proves what the code relies on.

Concurrent code is a transition system. A `State` holds the shared words, one program counter per
thread names the atomic operation that the thread performs next, and `Step` performs it. There may be
any number of threads, they interleave in any way, and operations are sequentially consistent.
A load that only the loading thread's own stores can affect goes with the step after it. `Run` says
that a sequence of states starts initially and makes one step at a time; `Inv` is inductive,
and the main results hold of every state of every run. Two kinds of results say what calls deliver:
those about a whole call in a run, from the step that makes it with its arguments to its return, with
any other steps between; and those about a thread that runs a call alone. Fields called history exist
only to state results. Loops over buffers and arrays are methods with loops, proved against functions.

| module | models |
|---|---|
| `FreeList` | the reference-counted lock-free free list of blocks |
| `ClaimProtocol`, `ClaimCalls` | how consumers claim indices: optimistic count, overcommit, head, tail |
| `BlockIndex` | the implicit producer's ring of index entries and its doubling headers |
| `SubQueue`, `SubQueueProducer`, `SubQueueConsumers`, `SubQueueRuns`, `SubQueueProgress` | one producer's sub-queue with blocks, index and the pool it shares |
| `ClaimedQueue` | the claim protocol and the sub-queue running together |
| `ProducerHash`, `ProducerHashCalls` | the chain of hash tables that maps threads to their producers |
| `IndexArithmetic` | wrapped indices against the unbounded ones of the protocols |
| `Semaphore`, `BlockingQueue`, `BlockingQueueCalls` | the two-level semaphore and the blocking queue over it |
| `Endpoint`, `EndpointCalls` | receive queue, notify pipe and `waiting` flag of an endpoint |
| `Wire`, `RequestCodec`, `RequestBytes` | wire format, parser, printer, size and merge of `Request` |
| `Checksum`, `Sessions`, `Poll` | Internet checksum, session lookup, the intercepted `poll` |
| `Basics`, `Tally`, `Modular` | shared definitions; sums over threads; quotients and remainders |

How the parts fit together. A single enqueue, dequeue or wait is the bulk form with a count of one; both
forms have the same steps in the source. `SubQueue` claims indices in one step; `ClaimedQueue` runs it
together with `ClaimProtocol`, step by step, and shows that the two always agree. `SubQueue` takes
blocks from a pool that is the abstract value of `FreeList` (`FreeList.StepRefinesPool`) and that other
producers use too. `BlockingQueue` sees the inner queue as one first-in
first-out sequence per producer thread, which is what `SubQueueRuns.StepRefinesQueue` and
`ProducerHash.NoSharing` provide, and contains `Semaphore` step by step. `Endpoint` in turn contains
`BlockingQueue` step by step. Protocols count with unbounded integers; `IndexArithmetic` shows that the
wrapped comparisons and lookups decide alike.

## What is not as one might expect

- A byte in the notify pipe can outlive its packet: `try_takeFromRecvQ` takes packets without reading
  the pipe, and `putToRecvQ` writes a byte even if its enqueue failed. If `waiting` is then set, the
  callback takes from an empty queue and blocks the event loop. A run leads there
  (`Endpoint.StaleByteReachable`). When the callback is due and somebody waits, it can block the event
  loop if and only if the queue is empty at that moment (`Endpoint.CallbackBlocksIffEmpty`). One way to
  be sure that it is not empty: the pipe was empty and nobody was about to write to it when `waiting`
  was set, and since then no enqueue failed and no other request took a packet
  (`Endpoint.CleanCallbackIsServed`).
- `waitMany(max)` without a timeout asserts that it got a permit. That holds exactly for `max` above zero
  (`Semaphore.WaitReturnsPermit`, `Semaphore.WaitForNothing`), although the bulk wait is documented to
  return at least one element.
- `circular_less_than` is not an order at exactly half the range (`IndexArithmetic.CircularLessIsLess`).
- The comment in the block lookup asks for a signed division; the division is unsigned because
  `BLOCK_SIZE` is. The position found is the same (`IndexArithmetic.SignDoesNotMatter`).
- The checksum is right exactly as long as its 32-bit accumulator does not overflow (`Checksum.Checksum`;
  `Checksum.OverflowIsWrong` gives an input).
- Merging requests is associative exactly if no call of another kind comes between two calls of one kind,
  or the later of the two has every field that the earlier one has and the earlier one carries nothing
  unknown (`RequestCodec.MergeAssociatesIff`; `RequestCodec.MergeOrderMatters` gives three requests).

## Model

| member | source | states |
|---|---|---|
| `FreeList.StepKeepsInv` | third-party/concurrentqueue/concurrentqueue.h:1342-1421 | every atomic step of `add` and `try_get` keeps each node's reference word equal to its references plus its flag, with the node in at most one hand |
| `FreeList.ExactlyOnePlace` | third-party/concurrentqueue/concurrentqueue.h:1342-1421 | in every run each node is in exactly one of four places: with a client, on the list once, pushed by one thread, or flagged with a reference holder who must push it |
| `FreeList.ExchangeIsCurrent` | third-party/concurrentqueue/concurrentqueue.h:1355-1421 | a head exchange that succeeds installs the node's current next pointer, so there is no ABA problem |
| `FreeList.TakenNodeIsUnflagged` | third-party/concurrentqueue/concurrentqueue.h:1355-1381 | a node just taken off the list has its flag down and at least the two references that are dropped |
| `FreeList.StepRefinesPool` | third-party/concurrentqueue/concurrentqueue.h:1342-1421 | a step adds to the set of free nodes only a node that was not in it, and removes only one that was |
| `FreeList.NothingLostAtRest` | third-party/concurrentqueue/concurrentqueue.h:1342-1421 | with all calls returned, each node is with a client or on the list and not both, and its word says which |
| `FreeList.TryGetIsHonest` | third-party/concurrentqueue/concurrentqueue.h:1356-1393 | in every run a call of `try_get` comes back with a node that it took off the front of the list during the call and that no client had, or with nothing, and then the list was empty at some moment of the call |
| `FreeList.LoneTryGetIsExact` | third-party/concurrentqueue/concurrentqueue.h:1356-1393 | from rest a thread that calls `try_get` alone gets the front of the list, or nothing exactly if the list is empty |
| `FreeList.LoneAddIsExact` | third-party/concurrentqueue/concurrentqueue.h:1342-1421 | from rest a thread that adds a node alone puts it at the front |
| `ClaimProtocol.StepKeepsInv` | third-party/concurrentqueue/concurrentqueue.h:2441-2510 | every step of any number of dequeuers keeps the reservation history consistent with the four shared counters |
| `ClaimProtocol.OptimisticCountBalances` | third-party/concurrentqueue/concurrentqueue.h:2444-2455 | the optimistic count is what was claimed, plus what was overcommitted, plus what is undecided or on its way; the asserted order of overcommit and count holds |
| `ClaimProtocol.HeadStaysBehindTail` | third-party/concurrentqueue/concurrentqueue.h:2663-2763 | the head plus all claims under way never exceeds the tail |
| `ClaimProtocol.StepClaims` | third-party/concurrentqueue/concurrentqueue.h:2663-2763 | each index below the head is given once, to one thread, when it is published, and never changes hands |
| `ClaimProtocol.LoneDequeueIsExact` | third-party/concurrentqueue/concurrentqueue.h:2663-2763 | a consumer that runs alone gets exactly the smaller of its maximum and what is there |
| `ClaimCalls.ShortOnlyIfAllSpoken` | third-party/concurrentqueue/concurrentqueue.h:2663-2690 | in every run a dequeue claims at most what it asks for, and less only if at some moment of the call all that was published before it was claimed, held by an unsettled reservation, or given back by one since |
| `BlockIndex.WriteKeyKeepsInv` | third-party/concurrentqueue/concurrentqueue.h:2785-2812 | reusing or first using an entry keeps every block that consumers may still look up |
| `BlockIndex.RewindTailKeepsInv` | third-party/concurrentqueue/concurrentqueue.h:2814-2818 | undoing an insertion keeps the ring consistent |
| `BlockIndex.NoRoomMeansFull` | third-party/concurrentqueue/concurrentqueue.h:2785-2800 | an entry test that fails means that the whole ring has been used, which stays so whatever consumers empty meanwhile |
| `BlockIndex.GrowKeepsInv` | third-party/concurrentqueue/concurrentqueue.h:2845-2887 | doubling an index whose ring has been used up copies the ring so that all headers agree on every block they know |
| `BlockIndex.GrowMakesRoom` | third-party/concurrentqueue/concurrentqueue.h:2785-2812 | after doubling, the second attempt to insert finds an unused entry |
| `BlockIndex.LookupFinds` | third-party/concurrentqueue/concurrentqueue.h:2820-2843 | through any header that was ever current and any tail position that reaches the block, the lookup finds the entry that holds it |
| `BlockIndex.GrowKeepsSight` | third-party/concurrentqueue/concurrentqueue.h:2845-2887 | a consumer that holds an older header goes on seeing the blocks it could see |
| `SubQueueProducer.ProducerStepKeepsInv` | third-party/concurrentqueue/concurrentqueue.h:2377-2438 | every step of an enqueue, with allocation failures, keeps the invariant over blocks, index, pool and elements |
| `SubQueueProducer.OtherStepKeepsInv` | third-party/concurrentqueue/concurrentqueue.h:2970-2987 | whatever other producers do with blocks of the shared pool keeps it too |
| `SubQueueConsumers.ConsumerStepKeepsInv` | third-party/concurrentqueue/concurrentqueue.h:2663-2763 | every step of every consumer keeps it too |
| `SubQueueRuns.RunInv` | third-party/concurrentqueue/concurrentqueue.h:2377-2510 | the invariant holds in every state of every interleaving |
| `SubQueueRuns.StepRefinesQueue` | third-party/concurrentqueue/concurrentqueue.h:2377-2510 | every step is a step of a first-in first-out queue over head to tail: nothing, a whole batch appended, or some taken off the front |
| `SubQueueRuns.DeliversWhatWasEnqueued` | third-party/concurrentqueue/concurrentqueue.h:2441-2510 | what a consumer delivers for an index is what was enqueued there |
| `SubQueueRuns.StepDelivers` | third-party/concurrentqueue/concurrentqueue.h:2441-2510 | a consumer step that moves an element out delivers an index that nobody delivered before and that its thread has claimed; no other consumer step delivers anything |
| `SubQueueRuns.DeliveredOnce` | third-party/concurrentqueue/concurrentqueue.h:2441-2510 | in every run each index is delivered by at most one step, of the thread that claimed it, and delivered as it was enqueued |
| `SubQueueRuns.ConsumersNeverStuck` | third-party/concurrentqueue/concurrentqueue.h:2663-2763 | a consumer with a claim always has its next operation defined: entry, block and element are there |
| `SubQueueRuns.LookupIsRight` | third-party/concurrentqueue/concurrentqueue.h:2827-2843 | the lookup's two assertions hold: the entry found has the key of the index and a block, and the block's cell holds the element |
| `SubQueueRuns.PoolIsASet` | third-party/concurrentqueue/concurrentqueue.h:2970-2987 | no block is in the pool twice, and one in the pool is clean and serves no index |
| `SubQueueRuns.ReturnedOnce` | third-party/concurrentqueue/concurrentqueue.h:2486-2499 | a consumer that frees a block is the only one to do so, and the block is not in the pool yet |
| `SubQueueRuns.ClearedWhenEmptied` | third-party/concurrentqueue/concurrentqueue.h:1480-1517 | the block that a consumer clears serves a block number all of whose slots were filled and delivered |
| `SubQueueRuns.ProducerWritesItsOwn` | third-party/concurrentqueue/concurrentqueue.h:2377-2438 | the producer writes only into a raw cell of a block that serves the index, never into one it has given up |
| `SubQueueRuns.EnqueueIsAllOrNothing` | third-party/concurrentqueue/concurrentqueue.h:2513-2660 | an enqueue called with some elements appends exactly those, with one new block per block boundary crossed, or leaves contents, tail and index tail unchanged; it keeps no block in hand |
| `SubQueueRuns.FailureReturnsBlocks` | third-party/concurrentqueue/concurrentqueue.h:2513-2660 | a failed enqueue returns each block it requisitioned to the pool in exactly one step, and at its end the block is in the pool once unless another producer took it since |
| `SubQueueRuns.FailsIffAllocationFails` | third-party/concurrentqueue/concurrentqueue.h:2513-2570 | an enqueue fails exactly if the environment refuses one of its own allocations; the full test never refuses |
| `SubQueueRuns.EnqueueOutcome` | third-party/concurrentqueue/concurrentqueue.h:2513-2660 | a call with the elements `xs` appends `xs` if none of its allocations is refused, and nothing otherwise |
| `SubQueueProgress.EnqueueIsWaitFree` | third-party/concurrentqueue/concurrentqueue.h:2377-2438 | whatever consumers and other producers do, an enqueue returns after at most `11 * b + n + 2` steps of its own, for `n` elements that need `b` new blocks |
| `SubQueueProgress.LoneEnqueueAppends` | third-party/concurrentqueue/concurrentqueue.h:2377-2438 | from any state an enqueue whose allocations are granted runs to its end and has appended its elements |
| `SubQueueProgress.DequeueDelivers` | third-party/concurrentqueue/concurrentqueue.h:2663-2763 | in every run a dequeue that has claimed `n` has, when it is through, delivered exactly the `n` elements that were at the front when it claimed them |
| `SubQueueProgress.DequeueIsWaitFree` | third-party/concurrentqueue/concurrentqueue.h:2663-2763 | whatever anyone else does, a dequeue that has claimed `n` is through after at most `5 * n + 3` steps of its own |
| `SubQueueProgress.LoneDequeueDelivers` | third-party/concurrentqueue/concurrentqueue.h:2663-2763 | from any state a consumer that claims `n` gets through on its own, with the `n` elements at the front |
| `ClaimedQueue.StepKeepsInv` | third-party/concurrentqueue/concurrentqueue.h:2441-2510 | every joint step keeps heads, tails and claimers of protocol and sub-queue equal |
| `ClaimedQueue.StepProjects` | third-party/concurrentqueue/concurrentqueue.h:2441-2510 | a joint step is, on either side, a step of that side or none |
| `ClaimedQueue.ClaimIsServed` | third-party/concurrentqueue/concurrentqueue.h:2663-2700 | in every joint run a consumer that the protocol lets advance the head can take its indices from the sub-queue |
| `ClaimedQueue.WorkGoesOn` | third-party/concurrentqueue/concurrentqueue.h:2700-2763 | in every joint run a consumer with indices can go on moving their elements out |
| `ProducerHash.StepKeepsInv` | third-party/concurrentqueue/concurrentqueue.h:3263-3411 | every step of lookup, resize and insertion keeps all tables of the chain sound |
| `ProducerHash.ProbeLoopsEnd` | third-party/concurrentqueue/concurrentqueue.h:3263-3411 | every table is less than three quarters full and has an empty slot, so every probe loop ends within the table |
| `ProducerHash.EmptyMeansAbsent` | third-party/concurrentqueue/concurrentqueue.h:3276-3316 | a search that meets an empty slot has shown that the thread is not in that table |
| `ProducerHash.ResizeMakesRoom` | third-party/concurrentqueue/concurrentqueue.h:3322-3375 | in every run a thread that went through a resize has room in its table when it comes to add its producer |
| `ProducerHash.AlwaysEnabled` | third-party/concurrentqueue/concurrentqueue.h:3263-3411 | no thread ever probes or stores outside a table |
| `ProducerHash.SameProducerForever` | third-party/concurrentqueue/concurrentqueue.h:3263-3411 | a thread gets the producer it once got from every later call, across any number of concurrent resizes |
| `ProducerHash.NoSharing` | third-party/concurrentqueue/concurrentqueue.h:3263-3411 | no two threads are ever given the same producer |
| `ProducerHashCalls.NullIffRefused` | third-party/concurrentqueue/concurrentqueue.h:3327-3403 | in every run a call comes back with null exactly if an allocation of its own was refused, of a larger table or of the producer; otherwise it comes back with a producer |
| `ProducerHashCalls.LoneCallGetsProducer` | third-party/concurrentqueue/concurrentqueue.h:3263-3411 | a call on its own, with nobody resizing and nothing refused, returns the thread's producer if it has one, else a new one, publishing a larger table exactly if the newest is half full with it; the newest table has the thread afterwards |
| `ProducerHashCalls.Thresholds` | third-party/concurrentqueue/concurrentqueue.h:3322-3370 | the first table has 32 slots, is half full with 16 threads and takes counts up to 23; each table has twice the slots of the next smaller size and takes counts below three quarters |
| `IndexArithmetic.CircularLessIsLess` | third-party/concurrentqueue/concurrentqueue.h:375-388 | on wrapped indices at most half the range apart the comparison is the true order, except at exactly half |
| `IndexArithmetic.ClaimDecisionWraps` | third-party/concurrentqueue/concurrentqueue.h:2663-2690 | the single and the bulk claim decide on words as the claim protocol does on true indices |
| `IndexArithmetic.WordLookupIsLookup` | third-party/concurrentqueue/concurrentqueue.h:2827-2843 | the wrapped, divided and masked lookup is the lookup on true indices, for every power-of-two capacity whose ring fits a word |
| `IndexArithmetic.SignDoesNotMatter` | third-party/concurrentqueue/concurrentqueue.h:2837-2840 | signed and unsigned division lead to the same position |
| `IndexArithmetic.WordLookupFinds` | third-party/concurrentqueue/concurrentqueue.h:2827-2843 | the lookup on words finds the entry of the block filled for the index, and the asserted key comparison succeeds |
| `Semaphore.StepKeepsInv` | third-party/concurrentqueue/blockingconcurrentqueue.h:260-405 | every step keeps two laws: kernel waiters equal kernel value plus posts owed plus the negative part of the count, and every permit is in exactly one place |
| `Semaphore.NeverMoreThanSignalled` | third-party/concurrentqueue/blockingconcurrentqueue.h:260-405 | acquisitions never exceed initial count plus signals, and the difference is still there to be taken |
| `Semaphore.BlockedOnlyWhenConsumed` | third-party/concurrentqueue/blockingconcurrentqueue.h:260-297 | a thread blocked in the kernel with no post owed means that every permit is consumed |
| `Semaphore.RecoveryHasExit` | third-party/concurrentqueue/blockingconcurrentqueue.h:287-296 | the loop after a timeout can always either take its decrement back or get a permit |
| `Semaphore.CallKeepsAsk` | third-party/concurrentqueue/blockingconcurrentqueue.h:260-335 | all along a call, what it has and still wants adds up to what it asked for |
| `Semaphore.WaitReturnsPermit` | third-party/concurrentqueue/blockingconcurrentqueue.h:379-394 | a finished call has at most what it asked for; without a timeout it has a permit exactly if it asked for at least one |
| `Semaphore.WaitForNothing` | third-party/concurrentqueue/blockingconcurrentqueue.h:389-394 | a run in which a wait without timeout for no permit returns none |
| `Semaphore.ShortOnlyWhenEmpty` | third-party/concurrentqueue/blockingconcurrentqueue.h:344-387 | in every run a wait comes back with fewer permits than it asked for only if the count was not positive at some moment of the call |
| `Semaphore.GivesUpOnlyAfterTimeout` | third-party/concurrentqueue/blockingconcurrentqueue.h:281-296 | a call that may block comes back with nothing only after its kernel wait has expired |
| `Semaphore.LoneWaitTakes` | third-party/concurrentqueue/blockingconcurrentqueue.h:366-387 | a wait on its own takes as many permits as there are, up to what it asks for |
| `Semaphore.LoneSpinnerTakes` | third-party/concurrentqueue/blockingconcurrentqueue.h:303-313 | a spinning thread that meets permits takes them, up to what it asks for |
| `Semaphore.LoneWaiterWakes` | third-party/concurrentqueue/blockingconcurrentqueue.h:315-335 | a kernel waiter that is posted to comes back with that permit and as many more as there are, up to what it asks for |
| `Semaphore.LoneSignalAdds` | third-party/concurrentqueue/blockingconcurrentqueue.h:396-405 | a signal on its own adds its number to the count and posts to the kernel as often as waiters are owed, up to that number |
| `Semaphore.AtRest` | third-party/concurrentqueue/blockingconcurrentqueue.h:396-411 | with all calls returned the kernel semaphore is empty and the count is what is left |
| `BlockingQueue.StepKeepsInv` | third-party/concurrentqueue/blockingconcurrentqueue.h:519-526 | every step of enqueue and dequeue, single or bulk, timed or not, keeps the semaphore's and the queue's books in agreement |
| `BlockingQueue.ElementsAccounted` | third-party/concurrentqueue/blockingconcurrentqueue.h:575-582 | every undelivered element is promised to a consumer, held as a permit, available, or not yet signalled |
| `BlockingQueue.RetryHasElements` | third-party/concurrentqueue/blockingconcurrentqueue.h:690-761 | whenever a consumer retries, the inner queue holds an element per outstanding permit, so the next attempt can succeed |
| `BlockingQueue.BlockedOnlyWhenPromised` | third-party/concurrentqueue/blockingconcurrentqueue.h:755-761 | no wake-up is lost: a consumer blocked with nothing on its way leaves no element unpromised |
| `BlockingQueue.DeliversInOrder` | third-party/concurrentqueue/blockingconcurrentqueue.h:690-731 | each producer's elements come out in order, each at most once |
| `BlockingQueue.SizeExactAtRest` | third-party/concurrentqueue/blockingconcurrentqueue.h:924-933 | with all calls returned `size_approx` is the number of elements |
| `BlockingQueueCalls.EnqueueOutcome` | third-party/concurrentqueue/blockingconcurrentqueue.h:519-582 | in every run a call with the elements `xs` has, unless the inner queue refuses them, put exactly `xs` and signalled as many when it returns; else it has put and signalled nothing |
| `BlockingQueueCalls.DequeueOutcome` | third-party/concurrentqueue/blockingconcurrentqueue.h:690-761 | in every run a call for up to `max` takes at most `max` elements, fewer only if there was a moment of the call without a permit, and at least one if it waits without a timeout for at least one |
| `BlockingQueueCalls.LoneEnqueueAdds` | third-party/concurrentqueue/blockingconcurrentqueue.h:519-526 | an enqueue on its own adds its elements at the end of its thread's part, and as many permits |
| `BlockingQueueCalls.LoneDequeueTakes` | third-party/concurrentqueue/blockingconcurrentqueue.h:690-731 | from rest an attempt to dequeue on its own takes as many elements as there are, up to what it asks for |
| `Endpoint.StepKeepsInv` | src/veloxd/arbiter/Endpoint.cpp:139-224 | every step of packet threads and event loop keeps the facts below |
| `Endpoint.NoLostNotification` | src/veloxd/arbiter/Endpoint.cpp:139-224 | outside the callback, whenever the loop waits and the queue holds a packet, the pipe holds a byte or a packet thread is about to write one |
| `Endpoint.EmptySeen` | src/veloxd/arbiter/Endpoint.cpp:161-168 | an attempt to take that finds no permit is right: every packet in the queue is still to be signalled |
| `Endpoint.OvershootAtMostOneEach` | src/veloxd/arbiter/Endpoint.cpp:139-150 | count plus threads past the limit check but not yet signalled is at most 128 plus one per packet thread |
| `Endpoint.QueueIsBounded` | src/veloxd/arbiter/Endpoint.cpp:139-150 | the queue holds at most 129 packets plus one per packet thread |
| `Endpoint.CallbackBlocksIffEmpty` | src/veloxd/arbiter/Endpoint.cpp:202-224 | in every state of every run in which the callback is due and somebody waits, it can block the event loop if and only if the queue is empty |
| `Endpoint.PacketMeansServed` | src/veloxd/arbiter/Endpoint.cpp:202-224 | with a packet in the queue at its start, no state of the callback is blocked, whatever the packet threads do |
| `Endpoint.CleanCallbackIsServed` | src/veloxd/arbiter/Endpoint.cpp:117-130 | if nothing was left over when `waiting` was set, no enqueue failed and nobody else took a packet since, the callback has its packet |
| `Endpoint.StaleByteBlocks` | src/veloxd/arbiter/Endpoint.cpp:202-224 | from every state with a byte but no packet in which the loop waits, its own steps end in a take that only a new packet can end |
| `Endpoint.StaleByteReachable` | src/veloxd/arbiter/RpcDispatch.cpp:351-436 | such a state is reached with one packet and two receive requests |
| `EndpointCalls.PutOutcome` | src/veloxd/arbiter/Endpoint.cpp:139-150 | in every run, from the arrival of a packet to the return: if the count read at the check exceeds 128 the packet is dropped and nothing written, otherwise the byte is written and exactly that packet was put unless its allocation was refused |
| `EndpointCalls.ReceiveOutcome` | src/veloxd/arbiter/RpcDispatch.cpp:351-436 | in every run a receive request takes one packet, or there was a moment without a permit, it takes none, and it sets `waiting` exactly if it is to block |
| `EndpointCalls.CallbackOutcome` | src/veloxd/arbiter/Endpoint.cpp:202-224 | in every run the callback reads the pipe until it is empty, takes exactly one packet if somebody waits and is still there, else none, and nobody waits afterwards |
| `Wire.ReadsField` | src/rpc/cpp_out/request.pb.cc:2571-2713 | reading a field, groups included, undoes writing it, whatever bytes follow |
| `Wire.VarintRefusedIff` | src/rpc/cpp_out/request.pb.cc:2571-2713 | a varint is refused exactly if none of its first ten bytes ends it, a tag exactly if none of its first five does |
| `Wire.FieldShrinks` | src/rpc/cpp_out/request.pb.cc:2571-2816 | a field is never written with more bytes than it was read from |
| `RequestCodec.ParseSubIsMerge` | src/rpc/cpp_out/request.pb.cc:1363-1532 | parsing a serialised nested message into another is merging it |
| `RequestCodec.ConcatenationIsMerge` | src/rpc/cpp_out/request.pb.cc:2571-3018 | parsing two serialised requests in a row is merging the second into the first |
| `RequestCodec.RoundTrip` | src/rpc/cpp_out/request.pb.cc:2571-2816 | parse undoes serialise, preserved unknown fields included |
| `RequestCodec.AppliesCall` | src/rpc/cpp_out/request.pb.h:3095-3102 | a member of the oneof is merged into the current one of its kind and replaces one of another kind |
| `RequestCodec.MergeAssociatesIff` | src/rpc/cpp_out/request.pb.cc:2936-3018 | merging is associative exactly if no other call interrupts, or the later call has all that the earlier one has |
| `RequestCodec.MergeOrderMatters` | src/rpc/cpp_out/request.pb.cc:2936-3018 | three requests for which the two ways of merging differ |
| `RequestCodec.SizeIsLength` | src/rpc/cpp_out/request.pb.cc:2818-2927 | the size computed beforehand is the number of bytes written |
| `RequestCodec.SendtoFits` | src/interceptor/req-resp-channel.c:80-99 | a request to send the largest buffer, with any flags and process and an optional 16-byte address, fits a message, so the size assertion holds |
| `RequestCodec.ParseSubLoop` | src/rpc/cpp_out/request.pb.cc:1363-1419 | the parsing loop of a nested message computes the parse function, on all bytes |
| `RequestCodec.ParseLoop` | src/rpc/cpp_out/request.pb.cc:2571-2713 | the parsing loop of a request computes the parse function, on all bytes; the rows of `RequestBytes` say what that function makes of the bytes of every call |
| `RequestBytes.SocketBytes` | src/rpc/cpp_out/request.pb.cc:510-599 | for all 32-bit domain, type and protocol, each present or not, and any process: tag 10, length, the three after the tags 8, 16 and 24, then tag 120 and the process are written for call 1 with these values, and read as exactly that |
| `RequestBytes.ConnectBytes` | src/rpc/cpp_out/request.pb.cc:793-852 | the same for call 2: tag 18, and the address after tag 10 |
| `RequestBytes.RecvfromBytes` | src/rpc/cpp_out/request.pb.cc:1050-1139 | the same for call 4: tag 34, and length, flags and the truth value after the tags 8, 16 and 24 |
| `RequestBytes.SendtoBytes` | src/rpc/cpp_out/request.pb.cc:1363-1452 | the same for call 5: tag 42, and buffer, flags and address after the tags 10, 16 and 26 |
| `RequestBytes.BareBytes` | src/rpc/cpp_out/request.pb.cc:2715-2816 | the same for the calls without fields, 3 and 6 to 12: the tag and a zero |
| `RequestBytes.AtstartBytes` | src/rpc/cpp_out/request.pb.cc:1935-2001 | the same for member 16: after the process, the tag bytes 130 and 1, and the name after tag 10 |
| `RequestBytes.NoCallBytes` | src/rpc/cpp_out/request.pb.cc:2571-2816 | the same for a request without a call |
| `RequestBytes.SocketParses` | src/rpc/cpp_out/request.pb.cc:510-566 | any three 64-bit numbers are read as the low 32 bits of each, signed |
| `RequestBytes.RecvfromParses` | src/rpc/cpp_out/request.pb.cc:1050-1106 | of a receive call the first two numbers are cut likewise, and any third number but zero is true |
| `RequestBytes.AcceptedIsStable` | src/rpc/cpp_out/request.pb.cc:2571-2816 | whatever bytes are accepted, the message made of them can be written, and reading that gives the same message again |
| `Checksum.Accumulate` | src/veloxd/base/Csum16.cpp:34-46 | the loop leaves the sum of the little-endian words, modulo 2^32 |
| `Checksum.FoldDown` | src/veloxd/base/Csum16.cpp:48-50 | the folding loop ends, at the residue modulo 65535 that is zero only for zero |
| `Checksum.Checksum` | src/veloxd/base/Csum16.cpp:26-53 | the low half is the complement of the ones' complement sum, exactly if the accumulator did not overflow |
| `Checksum.OverflowIsWrong` | src/veloxd/base/Csum16.cpp:34-46 | a start sum and a buffer for which the low half is wrong |
| `Checksum.LowIsComplement` | src/veloxd/base/Csum16.cpp:26-53 | the value that the following results speak of is that complement |
| `Checksum.NoOverflowBelow` | src/veloxd/base/Csum16.cpp:34-46 | no buffer overflows it whose length, at 65535 per word, and start sum stay below 2^32 |
| `Checksum.FoldIsOnesSum` | src/veloxd/base/Csum16.cpp:26-53 | accumulating and folding is adding with end-around carry |
| `Checksum.Seal` | src/veloxd/ip/Ip.cpp:200-200 | computing and storing the checksum leaves a buffer that checks to zero and is otherwise unchanged |
| `Checksum.StoredChecksumVerifies` | src/veloxd/ip/Ip.cpp:200-200 | storing the checksum in its zeroed aligned field makes the buffer check to zero |
| `Checksum.OnlyTheChecksumVerifies` | src/veloxd/base/Csum16.cpp:26-53 | a buffer that checks to zero holds that checksum, up to the two zeros of ones' complement |
| `Checksum.ChunksChain` | src/veloxd/tcp/TcpSession.cpp:268-286 | chunks of even length chain through the start sum, raw or folded |
| `Checksum.SwapCommutes` | src/veloxd/base/Csum16.cpp:26-53 | for every buffer and start sum, swapping the bytes of every word swaps the bytes of the result |
| `Sessions.Session.constructor` | src/veloxd/Session.cpp:33-49 | a new session has the stack's address and nothing else |
| `Sessions.Session.Connect` | src/veloxd/Session.cpp:56-67 | sets the peer and, if there is none, the local port; nothing else |
| `Sessions.Session.Disconnect` | src/veloxd/Session.cpp:80-85 | clears the peer; nothing else |
| `Sessions.Find` | src/veloxd/Session.h:77-150 | of the live sessions all of whose set fields are the packet's, the first of those with the most fields set, and none exactly if there is no such session |
| `Sessions.NeverLessSpecific` | src/veloxd/Session.h:77-150 | the session found is never strictly less specific than another that accepts the packet |
| `Sessions.ExactWins` | src/veloxd/Session.h:77-150 | an exact four-tuple beats every wildcard |
| `Sessions.ConnectedSessionGetsItsPackets` | src/veloxd/Session.cpp:56-85 | after any connects and disconnects, a connected session's packets go to a session with exactly its peer and port |
| `Sessions.NeverAnotherPeer` | src/veloxd/Session.cpp:56-85 | no session is found for a peer other than the one it was last connected to |
| `Poll.Partition` | src/interceptor/interceptor.c:429-435 | every `revents` is cleared; the two arrays are the positions and copies of the descriptors for the kernel |
| `Poll.RankBelow` | src/interceptor/interceptor.c:437-442 | the count says whether any descriptor is the stack's |
| `Poll.RankAt` | src/interceptor/interceptor.c:429-435 | each descriptor for the kernel is enumerated, at the place that the number of such before it says |
| `Poll.PositionsIncrease` | src/interceptor/interceptor.c:429-435 | the index array is increasing |
| `Poll.CompactedAt` | src/interceptor/interceptor.c:429-435 | what the kernel is asked at that place is that descriptor |
| `Poll.CopyBack` | src/interceptor/interceptor.c:451-459 | each entry gets the answer of its own place and the non-zero ones are counted |
| `Poll.ReportOwn` | src/interceptor/interceptor.c:462-469 | the stack's descriptors report their masked requested events, the rest is untouched, and the count goes on |
| `Poll.Poll` | src/interceptor/interceptor.c:406-474 | all of `poll`: no memory; delegation with the caller's timeout if no descriptor is the stack's; else the kernel is asked about the others with timeout 0, each entry gets its own answer or its events masked with 0x15, and the result is the number of non-zero entries |

## Left out

- Weak memory orderings and fences: steps are sequentially consistent; the number of spins before a thread blocks is arbitrary.
- Explicit producers, producer and consumer tokens and their rotation: Velox uses the token-free path only.
- Thread-exit support is compiled out in this configuration, so producers are never recycled and hash slots never become empty again.
- The scan over all producers that picks one to dequeue from: an attempt at the inner queue may come back empty at any time, or with elements of any one producer.
- Exception recovery, destructors, moves and swaps, debug and other-platform variants of the queue.
- Semaphore.StepKeepsInv: the count is an unbounded integer, and the number of posts is not cut to the `int` that the posting loop takes.
- IndexArithmetic.ClaimDecisionWraps: supposes that the true difference stays within half the range, as the queue itself does.
- A producer whose constructor failed to allocate its first block index, which fails every enqueue.
- Masks by a power of two less one are written as remainders.
- Message objects are values: reuse of storage, arenas and aliasing of nested messages are not modelled.
- The nested messages share one parser, printer, size and merge over their list of fields, as the generated code does in effect; the two ways in which the generated size functions add up the same terms are one.
- Wire.ReadsField: the library's limits on the depth of nested groups and on messages of two gigabytes are not modelled.
- Whether required fields are present is not checked by the parsers modelled here.
- RequestBytes.AcceptedIsStable: for inputs of fewer than 2^60 bytes, so that the length of what is written fits 64 bits.
- ProducerHashCalls.LoneCallGetsProducer: a call that meets a resize under way may have to wait for it, so its own steps are not bounded then.
- The response message, the C descriptors and the wait loop in `chan_recv`: the same shape again, or system calls.
- Endpoint.NoLostNotification: the pipe is a counter with a capacity; the event loop is the only thread that takes packets.
- `select`, whose return value counts kernel bits but each of the stack's descriptors once.
- Base `Session::send`, whose parameter shadows the member it tests, and `bind`, which returns no value.
- `BoundedDeque` and `RawMutex`, which wrap a library type, and the descriptor pools, a counter and an offset table.
- System calls, symbol interposition, the TUN device, logging and command lines.
