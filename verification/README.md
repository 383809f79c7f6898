# Verified models of the task queue and the ICMP checksum

The pinger hands its work over through `common/src/common/concurrentqueue.h`, a queue for many producers and
many consumers without locks, and sends echo requests whose checksum `pinger/src/pinger/icmp.cc` computes in an
unusual way. This project models the protocols the queue is built from, and the checksum code, and proves what
they are for. `dafny verify dfyconfig.toml` checks all of it.

## How the code is modelled

**Concurrent protocols are step machines.** A state is a datatype; each atomic load, store, compare-exchange,
fetch-add or test-and-set of something shared is one step of one thread (`After`, `ProducerAfter`,
`ConsumerAfter`), and a run (`Run`) is any interleaving of steps of any number of threads. The steps that are
proved about are total where the code is: conditions the code relies on without testing them (a pointer that is
not null, an index in range) are preconditions of a step, and a theorem says that they hold in every reachable
state (`ConsumerNeverStuck`, `ProducerNeverStuck`, `ExplicitRuns.NeverStuck`), or exactly when they do.
Interleavings are sequentially consistent; the memory orders and fences of the original are not modelled.

**Nothing fails for nothing.** Beside what every step keeps, each operation has a law that says when it fails, and
that it does so only then (`AllocatesOnlyIfEmpty`, `FirstLookIsExact`, `EnqueueSucceeds`, `CallReturns`,
`EnqueueKeeps`), and one that bounds the steps it takes (`CallAdvances`, `EnqueueEnds`, `DequeueEnds`,
`AloneReturns`, `DequeueAdvances`).

**Sequential code is imperative.** The checksum, the explicit producer, the consumer tokens and the swap of two
hash tables are methods over arrays, classes and loops. The explicit producer's methods are tied to functions
on its fields (`Fields() == Enqueued(.., old(Fields()), ..)`), and the promises are lemmas about these
functions; `Enqueue` keeps the invariant it requires, so that calls can follow one another.

**Machines are put together.** A sub-queue (Queue) contains the counters (Tickets) and the index (BlockIndex);
WrappedQueue runs it on machine words; SharedBlocks runs any number of sub-queues on one free list (FreeList);
ExplicitRuns runs the explicit producer's operations (ExplicitQueue) with the counters. The invariant of the whole
contains those of its parts; `WrappedQueue.WordRunRefines` and `SharedBlocks.EachIsReachable` say that a run of the
whole is a run of module Queue.

Block size, capacities, word width and the hash function are parameters. Masks by a power of two are written as
remainders; module Circular proves that they are the same. A memory allocation may succeed or fail at will.
Single `enqueue` and `dequeue` of an implicit producer take the steps of the bulk operations with a count of one.
Fields called history (`items`, `got`, `blocks`, `retired`, `given`) record what happened; steps use them only where
their length is the tail index, or the tail index in blocks (`QueueDelivery.NextBaseIsCurrentTail`).

| file | what it holds |
|---|---|
| FreeList, FreeListProof, FreeListCalls | the lock-free free list of blocks, and block requisition |
| Tickets, TicketsProof | the four counters of a sub-queue |
| BlockIndex, BlockIndexProof | an implicit producer's block index: shared entries, growth, rewinding |
| Queue, QueueInvariant, QueueConsumers, QueueProducer, QueueTail, QueueProof, QueueDelivery | an implicit sub-queue as a whole: counters, index and recycled blocks together |
| QueueCalls | when an enqueue succeeds, and how many steps any call takes |
| QueueZeroClaim | a bulk dequeue with a maximum of zero |
| SharedBlocks | all sub-queues of a queue on one free list |
| Circular, WrappedCounters, WrappedQueue | machine words against unbounded numbers: arithmetic, counters, the whole sub-queue |
| ProducerHash, ProducerHashProof, ProducerHashCalls | the hash table from threads to implicit producers |
| ExplicitProducer, ExplicitQueue, ExplicitClass, ExplicitRuns | an explicit producer: ring of blocks, circular index, code, runs with many consumers |
| ConsumerTokens | placing and rotating consumer tokens, and their circular walk |
| SwapHashes | swapping the hash tables of two queues |
| Checksum | the Internet checksum (RFC 1071) and the two-pass use of it |
| Modular, Threads | remainders by a variable modulus; sums over threads |

Where code and comments differ, the model follows the code:

- The debug assertion `overcommit <= myDequeueCount` (lines 1916, 2180, 2483 and 2706) is said always to hold. It
  compares counters that wrap around: `WrappedCounters.AssertionIsExact` says exactly when it holds, and
  `WrappedCounters.AssertionFails` gives, for any width, a run that ends in a state in which it does not: two
  consumers race for one item, and items are then taken singly until the ticket number wraps around. On
  unbounded counters it always holds (`TicketsProof.OvercommitBelowTickets`).
- `try_dequeue_bulk` may be called with a maximum of zero. If the sub-queue looks non-empty, `dequeue_bulk` then
  claims no item, and all the same looks up the block of the head (line 2723), and asserts that it is there.
  `QueueZeroClaim.ZeroClaimFindsBlock` says exactly when it is, and `QueueZeroClaim.ZeroClaimGetsStuck` gives a run
  with two consumers in which it is not. A consumer that asks for at least one item always finds its block.
- `blockBaseDiff` is kept as a size, so it is right exactly while the slots of the new blocks can be counted in one
  (`Circular.BlockBaseDiff`): for every call of so many items that a size can count a block more.
- `CheckSum` keeps its sum in 32 bits. `Checksum.CheckSum` says exactly when the result is the one's-complement
  sum: when the total does not overflow. 65536 words cannot; one byte more can.
- After a failed bulk enqueue that had filled every slot of the index, the entry of the last published block may
  carry another block's key. Nobody looks that block up any more, since it is completely dequeued; this is why
  `BlockIndexProof.IdleTailIsLastBlock` is about a block that has not retired.

## Model

Line numbers without a file name in the third column are those of the cited file.

| member | source | states |
|---|---|---|
| FreeListProof.StepKeeps | common/src/common/concurrentqueue.h:1375-1454 | every step of `add`, `try_get` and block requisition, by any of fewer than 2^31 - 1 threads, keeps the list's invariant |
| FreeListProof.RunHolds | common/src/common/concurrentqueue.h:1375-1454 | the invariant holds in every state of every interleaving |
| FreeListProof.CountIsReferences | common/src/common/concurrentqueue.h:1375-1454 | away from a node being pushed, the low 31 bits of its word are the list's reference plus those held by threads |
| FreeListProof.NoAba | common/src/common/concurrentqueue.h:1405-1413 | a compare-exchange of the head that succeeds installs what is at that moment the node's next: the next pointer read before has not gone stale |
| FreeListProof.TakenIsNotFlagged | common/src/common/concurrentqueue.h:1409 | the assertion after taking a node: its flag is clear |
| FreeListProof.RelinkedAlone | common/src/common/concurrentqueue.h:1432-1454 | a node's next is written only while no thread holds a reference to it, and by one thread at a time |
| FreeListProof.ExactlyOnePlace | common/src/common/concurrentqueue.h:1375-1454 | in every state a node is in exactly one place: the unused pool, the list, one owner, one thread pushing it, or flagged and waiting for its holders |
| FreeListProof.ReturnedWasFree | common/src/common/concurrentqueue.h:3003-3020 | a block that a requisition returns was free, from whichever of the three sources it comes |
| FreeListProof.NeverTwoOwners | common/src/common/concurrentqueue.h:3003-3020 | over any run, between two requisitions that return the same block its owner has given it back |
| FreeListProof.QuiescentListIsTheFreeBlocks | common/src/common/concurrentqueue.h:1375-1454 | with no operation in progress the nodes reachable from the head are exactly those that are neither owned nor still in the pool: none is lost |
| FreeListCalls.RequisitionEnds | common/src/common/concurrentqueue.h:3003-3020 | a requisition ends with a block, or with an allocation refused, and in no other way |
| FreeListCalls.AllocatesOnlyIfEmpty | common/src/common/concurrentqueue.h:3006-3017 | over any run, a requisition asks for memory only if the pool is used up and the list was empty at some moment of that very call |
| FreeListCalls.AloneTakes | common/src/common/concurrentqueue.h:1389-1413 | running alone, a requisition returns the next block of the pool; then the first block of the list, leaving the rest of it; and asks for memory exactly if there is neither |
| FreeListCalls.AloneAdds | common/src/common/concurrentqueue.h:1375-1387 | running alone, `add` puts its block in front of the list |
| FreeListCalls.CallAdvances | common/src/common/concurrentqueue.h:1375-1454 | from any reachable state, wherever the other threads have stopped, a thread that moves alone ends its call within three hundred steps: the list is lock-free |
| TicketsProof.StepKeeps | common/src/common/concurrentqueue.h:2696-2790 | every step of any single or bulk dequeue keeps the counters' invariant |
| TicketsProof.PublishKeeps | common/src/common/concurrentqueue.h:2691 | so does making items visible |
| TicketsProof.RunHolds | common/src/common/concurrentqueue.h:2474-2543 | the invariant holds in every state of every interleaving |
| TicketsProof.ClaimsStayBelowTail | common/src/common/concurrentqueue.h:1921-1933 | `head`, and what consumers that passed their second look are still to claim, never exceed `tail` |
| TicketsProof.TicketsAreConserved | common/src/common/concurrentqueue.h:2701-2723 | `dequeueOptimisticCount == headIndex + dequeueOvercommit +` the tickets in flight |
| TicketsProof.OvercommitBelowTickets | common/src/common/concurrentqueue.h:1912-1916 | the overcommit a consumer has read is at most its ticket, and at most the counter it is about to read |
| TicketsProof.DeliveriesAreDisjoint | common/src/common/concurrentqueue.h:2723 | index ranges being dequeued at the same time do not overlap and lie below `head` |
| TicketsProof.QuiescentIsExact | common/src/common/concurrentqueue.h:2173-2257 | with no dequeue in progress the optimistic count less the overcommit is `head` |
| TicketsProof.AloneIsExact | common/src/common/concurrentqueue.h:2696-2790 | a dequeue running alone fails, changing nothing, exactly when the sub-queue is empty, and otherwise claims n items with n at most its maximum, at most those there, and equal to one of the two |
| TicketsProof.FirstLookIsExact | common/src/common/concurrentqueue.h:2698-2702 | whatever others do: a dequeue gives up at its first look exactly if the items there do not outnumber those that came since it loaded the tail, the tickets in flight and those given back since it loaded the overcommit; otherwise it asks for as many as are left of them, or its maximum |
| TicketsProof.SecondLookIsExact | common/src/common/concurrentqueue.h:2708-2716 | and at its second look it keeps exactly as many of its tickets as are covered, or all, and gives the others back |
| TicketsProof.EachIndexClaimedOnce | common/src/common/concurrentqueue.h:2480-2489 | over any run each index below `head` is claimed by exactly one step, and no other index by any |
| BlockIndexProof.StepKeeps | common/src/common/concurrentqueue.h:2817-2920 | insertion, growth, rewinding, undoing, lookups and nulling of entries keep the index's invariant in any interleaving |
| BlockIndexProof.RunHolds | common/src/common/concurrentqueue.h:2817-2920 | it holds in every state of every run |
| BlockIndexProof.LookupIsRight | common/src/common/concurrentqueue.h:2860-2876 | through any header ever published and any tail loaded from it, however long ago, a consumer computes the slot whose entry has its block's base as key and its block as value: the assertions at 2869 and 2874 hold |
| BlockIndexProof.LoadedBlockIsRight | common/src/common/concurrentqueue.h:2743-2774 | the block a single or bulk dequeue loads is the one that holds its items, also when it goes on to the next slot |
| BlockIndexProof.GrownSlotIsUnused | common/src/common/concurrentqueue.h:2838-2841 | the assertion at 2841: the slot behind the tail of a new index was never used |
| BlockIndexProof.UndoFindsOwnBlocks | common/src/common/concurrentqueue.h:2588-2593 | while a failed bulk enqueue undoes its insertions, with the tail partly rewound and perhaps a new index made midway, its lookups find exactly its own blocks |
| BlockIndexProof.InsertsExactly | common/src/common/concurrentqueue.h:2817-2846 | an insertion finds a slot exactly unless there is no index or the block one whole turn before is still in use; exactly then the index is replaced if memory for a larger one is to be had, and the insertion fails if not |
| BlockIndexProof.IdleIndexIsExact | common/src/common/concurrentqueue.h:2583-2597 | between enqueues, failed ones included, the current index holds the blocks in use and no others |
| BlockIndexProof.IdleTailIsLastBlock | common/src/common/concurrentqueue.h:2847-2851 | and its tail is at the last published block |
| QueueProof.StepKeeps | common/src/common/concurrentqueue.h:2409-2790 | every step of the producer, of a consumer, or of other sub-queues using their own blocks keeps the invariant that ties counters, index, blocks and items together |
| QueueProof.RunHolds | common/src/common/concurrentqueue.h:2409-2790 | it holds in every state of every run |
| QueueProof.ConsumerNeverStuck | common/src/common/concurrentqueue.h:2492-2528 | whatever step a consumer is at, the entry it needs exists, the block pointer is not null, the item is in its slot, and an entry it nulls is used by nobody else - unless it claimed no item at all, when this is exactly a matter of whether the block it looks up is there |
| QueueProof.NeverStuckIfItAsks | common/src/common/concurrentqueue.h:2696-2790 | over any run, a consumer that always asks for at least one item can always take its next step, whatever the others ask for |
| QueueZeroClaim.ZeroClaimFindsBlock | common/src/common/concurrentqueue.h:2717-2723 | with a maximum of zero, between enqueues, the lookup goes well exactly if there is an item to dequeue or the last block with items has room for another |
| QueueZeroClaim.ZeroClaimGetsStuck | common/src/common/concurrentqueue.h:2717-2723 | a run of two consumers after which a bulk dequeue with a maximum of zero has no block to look up |
| QueueProof.ProducerNeverStuck | common/src/common/concurrentqueue.h:2546-2693 | in every reachable state, whatever the rest of the program offers (a call, memory or none, any block this sub-queue does not own), the producer's next step is well-defined: no pointer it follows is null, no lookup fails, and the last block is reached with the last item; and something is always offered |
| QueueTail.ProducerPointers | common/src/common/concurrentqueue.h:2611-2616 | the assertion before a block is linked behind the tail block (it is not null), the one at 2686 (the last block is reached with the last item), and the ends of the chains of blocks being undone and freed |
| QueueTail.StartIsOwned | common/src/common/concurrentqueue.h:2552-2555 | the block an enqueue starts from may have been emptied and freed, but not if it has room left: then it is still in the index and owned |
| QueueTail.NeededIsOwned | common/src/common/concurrentqueue.h:2588-2595 | every block whose `next` the producer will still follow is owned by this sub-queue, so no other changes it |
| QueueTail.WriteMoves | common/src/common/concurrentqueue.h:2629-2690 | going on along `next` at the end of each block but the last, the producer writes item k of a bulk enqueue to the block that index arithmetic gives for it |
| QueueDelivery.DeliveredIsEnqueued | common/src/common/concurrentqueue.h:2480-2516 | what a consumer moved out as index x is the item that was enqueued as number x |
| QueueDelivery.QuiescentIsFifo | common/src/common/concurrentqueue.h:2409-2543 | with no dequeue in progress, the items delivered are exactly the first `head` items enqueued |
| QueueDelivery.EachItemMovedOnce | common/src/common/concurrentqueue.h:2734-2742 | over any run each delivered item was moved out by exactly one step of one consumer |
| QueueDelivery.CountIsSound | common/src/common/concurrentqueue.h:1513-1551 | a block's counter never exceeds the block size (the assertions), and the consumer whose addition fills it finds every item of the block moved out |
| QueueDelivery.SlotsAreDisjoint | common/src/common/concurrentqueue.h:1532-1551 | consumers emptying slots of one block at the same time cover disjoint slots |
| QueueDelivery.EachBlockRetiredOnce | common/src/common/concurrentqueue.h:2519-2528 | over any run a block that left the index was taken out by exactly one step |
| QueueDelivery.FreedByOne | common/src/common/concurrentqueue.h:2526-2532 | a block about to be freed is owned, no longer in the index, and no other consumer is in it |
| QueueDelivery.QuiescentRetired | common/src/common/concurrentqueue.h:2774-2784 | with no dequeue in progress, the blocks taken out of the index are exactly those that lie wholly below `head` |
| QueueDelivery.QuiescentOwnership | common/src/common/concurrentqueue.h:2774-2784 | and the blocks owned are exactly the others: none is kept, none given away too early |
| QueueDelivery.EnqueueIsAtomic | common/src/common/concurrentqueue.h:2546-2693 | an enqueue of any number of items, whatever consumers do meanwhile, appends exactly its items if it returns true, and leaves items and published blocks as they were if it returns false, which it does exactly if one of its steps gave up; afterwards the sub-queue owns only blocks that are in the index or being freed by a consumer |
| QueueDelivery.FailureHasReason | common/src/common/concurrentqueue.h:2579-2580 | a step turns to undoing the enqueue exactly if one more whole block would exceed MAX_SUBQUEUE_SIZE or what wrapped counters can tell apart, or there is no index, or the block one turn of the index before is still in use and no larger index is made, or no block is to be had |
| QueueCalls.EnqueueSucceeds | common/src/common/concurrentqueue.h:2546-2693 | over any run, an enqueue whose blocks fit when it starts, and that is granted the memory it asks for, returns true and appends its items, whatever consumers do meanwhile |
| QueueCalls.FitsToTheLimit | common/src/common/concurrentqueue.h:2417-2418 | a sub-queue whose head is at the start of a block can be filled to exactly MAX_SUBQUEUE_SIZE |
| QueueCalls.EnqueueEnds | common/src/common/concurrentqueue.h:2546-2693 | an enqueue is wait-free: over any run it ends within ten steps of its own for each block, one for each item and twelve more, successful or not |
| QueueCalls.DequeueEnds | common/src/common/concurrentqueue.h:2696-2790 | a dequeue is wait-free: over any run it ends within eight steps of its own for each item asked for and thirteen more |
| QueueDelivery.ReadyOwnership | common/src/common/concurrentqueue.h:2583-2597 | between enqueues there are as many blocks as the items need, and the owned ones are those in the index or being freed |
| SharedBlocks.OwnStep | common/src/common/concurrentqueue.h:2409-2790 | a sub-queue's step writes only to blocks it owns, and gives back only a block it owns |
| SharedBlocks.StepKeeps | common/src/common/concurrentqueue.h:3003-3020 | with any number of sub-queues, explicit producers and threads inside the free list, every step keeps this: each sub-queue is in a state that module Queue reaches, the list in one that module FreeList reaches, and each block that left the list has one owner |
| SharedBlocks.EachIsReachable | common/src/common/concurrentqueue.h:3003-3020 | so in every state of every run of the whole, what is proved about the list and about a sub-queue alone holds of each, and a block has one owner exactly if it is not in the pool, on the list or in the hands of threads inside it |
| SharedBlocks.TakeIsLegal | common/src/common/concurrentqueue.h:2580 | a block that a requisition returns is one that the sub-queue may take |
| QueueDelivery.DistanceIsBounded | common/src/common/concurrentqueue.h:2414-2420 | the distance from `head` to `tail` stays within MAX_SUBQUEUE_SIZE (in whole blocks, line 703) and within what wrapped counters can tell apart, though both are tested only at block boundaries and against a head that may be stale |
| QueueDelivery.NextBaseIsCurrentTail | common/src/common/concurrentqueue.h:2563-2574 | the base of the next block, counted in blocks, is the `currentTailIndex` that the code computes with masks |
| QueueDelivery.HeadBelowNextBase | common/src/common/concurrentqueue.h:2578 | the assertion before a block is taken: `head` has not passed its base |
| Circular.CircularLessIsLess | common/src/common/concurrentqueue.h:405-417 | for counters less than a turn apart, `circular_less_than` is right exactly when a is at most half a turn ahead of b and less than half a turn behind it |
| Circular.LowMask | common/src/common/concurrentqueue.h:2873 | `x & (2^k - 1)` is the remainder by 2^k |
| Circular.HighMask | common/src/common/concurrentqueue.h:2865 | `x & ~(2^k - 1)` takes the remainder by 2^k away |
| Circular.BaseWraps | common/src/common/concurrentqueue.h:1945 | the base of an index is computed right from a wrapped index |
| Circular.UnsignedDivision | common/src/common/concurrentqueue.h:2870-2872 | a negative distance divided as a large unsigned number is right modulo the number of blocks that fit a word |
| Circular.SignedDivision | common/src/common/concurrentqueue.h:2872 | and so is a negative distance divided as a signed number, where index words are wider than sizes |
| Circular.SlotIsRight | common/src/common/concurrentqueue.h:1941-1947 | so the masked slot is the front's slot plus the signed distance in blocks, around the ring, at any distance, for index words as wide as sizes or wider |
| Circular.StartsCounted | common/src/common/concurrentqueue.h:2563 | `(start + count - 1) / B - (start - 1) / B` is the number of block starts in the range |
| Circular.BlockBaseDiff | common/src/common/concurrentqueue.h:1998 | the bulk formula on wrapped counters, cut down to a size, is the block size times that number, exactly as long as this is a size |
| Circular.BaseOfWords | common/src/common/concurrentqueue.h:2564-2571 | the masked tail less one, and a block size on for each block taken, is the base of the next block, wrapped |
| WrappedCounters.StepAgrees | common/src/common/concurrentqueue.h:2474-2489 | a consumer's step on wrapped counters is its step on unbounded ones if the distance it tests, as an index word or cut down to a size, is within half a turn of the test, and among distances less than a turn for no others |
| WrappedCounters.RecentIsTimely | common/src/common/concurrentqueue.h:2474-2489 | the first and the second test are in time exactly when: how old the loads of the tail and the overcommit are, with the tickets in flight, does not exceed half a turn by more than what is in the sub-queue (and, for the second, was taken since the own ticket), nor fall short of it by so much |
| WrappedCounters.FirstLookIsTimely | common/src/common/concurrentqueue.h:2476-2479 | for the first test of an index word, with tail and head less than half a turn apart, one of the two bounds is enough |
| WrappedCounters.BoundedIsRecent | common/src/common/concurrentqueue.h:2474-2489 | bounds for both tests that do not depend on the state: on the size, on the age of loads with tickets in flight, and on the tickets taken since the own |
| WrappedCounters.SingleTestIsBulkTest | common/src/common/concurrentqueue.h:2704-2714 | comparing a difference with the tail, as `dequeue` does, is testing the distance as a size, as `dequeue_bulk` does, exactly when the distance is within half a turn of sizes (of distances less than a turn of sizes); always, if index words are sizes |
| WrappedQueue.GuardIsRight | common/src/common/concurrentqueue.h:2414-2420 | in every reachable state the enqueue guard on wrapped counters decides as on unbounded ones, and keeps head and tail less than half a turn apart |
| WrappedQueue.DecisionsAgree | common/src/common/concurrentqueue.h:2563-2579 | computing on words the number of blocks to take, their bases, the guard and the slot of the tail, the producer decides as module Queue does |
| WrappedQueue.WordStepIsStep | common/src/common/concurrentqueue.h:2546-2723 | a step in which producer and consumer compare words only, and go on as these say, is a step of module Queue and leaves the words of its counters, if loads are as recent as `RecentIsTimely` needs |
| WrappedQueue.WordRunRefines | common/src/common/concurrentqueue.h:2409-2790 | so any run of a sub-queue on machine words is a run of module Queue, seen through wrapping, through any number of wrap-arounds: producer's guard and consumers' tests together |
| WrappedQueue.LimitedIsRecent | common/src/common/concurrentqueue.h:2414-2489 | with MAX_SUBQUEUE_SIZE set, constant bounds on the age of loads, the tickets in flight and those taken since a consumer's own are enough for it |
| WrappedQueue.StopsAgree | common/src/common/concurrentqueue.h:2726-2727 | in such a run the end of a consumer's part of a block, computed on words, is the right one |
| WrappedQueue.SizeApproxIsRight | common/src/common/concurrentqueue.h:1666-1671 | over any run, `size_approx` is the distance of the tail it loaded and the head it loaded later, or zero if consumers have passed that tail (not by more than half a turn); it exceeds neither the size at the first load nor that at the second |
| WrappedCounters.LookupSlotIsRight | common/src/common/concurrentqueue.h:2870-2873 | the slot computed with wrapped bases is the one of the block index model |
| WrappedCounters.AssertionIsExact | common/src/common/concurrentqueue.h:1912-1916 | on wrapped counters the debug assertion on tickets holds exactly if going on from the overcommit by the net number of tickets does not wrap around; for counters less than a turn apart, if both have wrapped around equally often; so it holds until ticket numbers do |
| WrappedCounters.AssertionFails | common/src/common/concurrentqueue.h:1912-1916 | for counters of any width, a run after which it fails |
| ProducerHashProof.StepKeeps | common/src/common/concurrentqueue.h:3296-3443 | every step of a lookup, insertion, copy or resize by any thread keeps the hash table's invariant |
| ProducerHashProof.RunHolds | common/src/common/concurrentqueue.h:3296-3443 | it holds in every state of every interleaving |
| ProducerHashProof.ReturnsItsProducer | common/src/common/concurrentqueue.h:3315-3353 | a call returns the producer that was made for its thread |
| ProducerHashCalls.GivenIsReturned | common/src/common/concurrentqueue.h:3315-3353 | a call of a thread that has a producer never counts it in again or asks for memory, and its steps lead to returning that producer only |
| ProducerHashCalls.CallReturns | common/src/common/concurrentqueue.h:3296-3443 | over any run, a call ends by returning the thread's producer, or one of its own requests for memory was refused; if the thread had a producer when it called, by returning that one, memory or not |
| ProducerHashCalls.AloneReturns | common/src/common/concurrentqueue.h:3296-3443 | with nobody else holding the resize lock, and with memory, a call running alone returns its thread's producer, wherever the other threads have stopped |
| ProducerHashCalls.CallCopies | common/src/common/concurrentqueue.h:3326-3345 | over any run, when a call returns, the thread's id is in the table that was current when it started, or a later one: what it found in an older table it has copied |
| ProducerHashCalls.TwoStepsOn | common/src/common/concurrentqueue.h:3362-3401 | a thread waits for another's resizing only if three quarters of its table are accounted for, resizes itself exactly if that is half full and nobody else does, and then asks for memory only if the table current by then is half full as well |
| ProducerHashCalls.TablesAreModest | common/src/common/concurrentqueue.h:3362-3393 | over any run, memory for a table is asked for only when half of the current one is accounted for, and no table but the first has more than four times as many slots as there are threads, and three |
| ProducerHashCalls.SlotIsMasked | common/src/common/concurrentqueue.h:3318-3320 | over any run that starts with a power of two of slots, every slot probed is the one that masking gives |
| ProducerHashProof.GivenStays | common/src/common/concurrentqueue.h:3315-3360 | over any run, no second producer is made for a thread that has one |
| ProducerHashProof.OneProducerEach | common/src/common/concurrentqueue.h:3296-3443 | over any run, with any resizing and copying meanwhile, two calls return the same producer exactly when the same thread made them |
| ProducerHashProof.TablesHaveRoom | common/src/common/concurrentqueue.h:3398-3401 | a table of capacity C > 1 always holds fewer than C/2 + C/4 ids (one of capacity 1 none), although failing callers decrement the count |
| ProducerHashProof.ProbesEnd | common/src/common/concurrentqueue.h:3317-3362 | a probe passes at most as many slots as the table holds ids, fewer than it has: every probe loop ends |
| ProducerHashProof.CountIsExact | common/src/common/concurrentqueue.h:3360-3443 | the shared count is the number of threads that have a producer or are about to get one |
| ProducerHashProof.ChainIsLinear | common/src/common/concurrentqueue.h:3362-3393 | one thread resizes at a time, and each table's `prev` is the table that was current before it |
| ProducerHashProof.RoomAfterResize | common/src/common/concurrentqueue.h:3398-3401 | whoever held the resize lock finds room in the table it ended up with |
| ExplicitProducer.FrontLeadsToBlock | common/src/common/concurrentqueue.h:1938-1947 | from any front ever published in an index, also after its slot was overwritten, the offset leads to any block still in the ring |
| ExplicitProducer.InsertKeepsIndex | common/src/common/concurrentqueue.h:1865-1869 | the next entry overwrites none that belongs to the ring |
| ExplicitProducer.RingFromTail | common/src/common/concurrentqueue.h:1835-1843 | following `next` from the tail block goes through the ring in the order its blocks were started |
| ExplicitQueue.EnqueueKeeps | common/src/common/concurrentqueue.h:1783-1883 | `enqueue` appends exactly its item, or fails and leaves items and blocks as they were; it succeeds exactly if there is room in the tail block, or everything in the oldest block of the ring is dequeued, or a whole block more fits and there is memory for it and, if each entry of the index belongs to a ring block, for a larger index; the ring and the index grow exactly then; every header and front consumers may hold keep serving |
| ExplicitQueue.EmptyIffDone | common/src/common/concurrentqueue.h:1790-1794 | the block ahead is found empty exactly if a block has been started and everything in the oldest is dequeued, a ring of one block included |
| ExplicitQueue.ResetBlockIsDone | common/src/common/concurrentqueue.h:1791-1794 | a block is reset for reuse only when every item in it is completely dequeued |
| ExplicitQueue.GrowKeeps | common/src/common/concurrentqueue.h:2279-2316 | replacing the index keeps the invariant: the ring's entries, in order, from slot 0 |
| ExplicitQueue.IndexIsRing | common/src/common/concurrentqueue.h:1835-1869 | the last `pr_blockIndexSlotsUsed` entries of the index are the ring from `tailBlock->next` to `tailBlock`, with bases one block size apart |
| ExplicitQueue.LookupIsRight | common/src/common/concurrentqueue.h:1936-1950 | through any header, replaced ones included, and any front a consumer may have loaded, an index not completely dequeued leads to the block and slot that hold its item |
| ExplicitQueue.PublishedCovers | common/src/common/concurrentqueue.h:1938-1939 | the header and front now published serve for every block started so far |
| ExplicitQueue.TakeKeeps | common/src/common/concurrentqueue.h:1513-1519 | a claimed item is in its slot and its empty flag is not set (the assertion); taking it makes it done |
| ExplicitClass.Producer.constructor | common/src/common/concurrentqueue.h:1700-1715 | a new producer satisfies the invariant, with or without an index |
| ExplicitClass.Producer.IsEmpty | common/src/common/concurrentqueue.h:1486-1500 | true exactly when all flags of the block are set |
| ExplicitClass.Producer.ResetEmpty | common/src/common/concurrentqueue.h:1567-1580 | clears all flags of the block and no others |
| ExplicitClass.Producer.CopyEntries | common/src/common/concurrentqueue.h:2293-2301 | the loop that ends at the front copies exactly the ring's entries, also when the array is full |
| ExplicitClass.Producer.NewBlockIndex | common/src/common/concurrentqueue.h:2279-2316 | the fields become `Grown` of what they were, or stay |
| ExplicitQueue.ReuseKeeps | common/src/common/concurrentqueue.h:1788-1801 | reusing the block ahead keeps ring, index and items together: the emptied block moves from the front of the ring to its end, and its new entry overwrites its old one or an unused one |
| ExplicitQueue.LinkKeeps | common/src/common/concurrentqueue.h:1826-1843 | so does linking a new block in behind the tail |
| ExplicitQueue.PreparedContinues | common/src/common/concurrentqueue.h:1783-1844 | whichever way the producer gets its block, or fails to, the invariant holds with the same items, and every header and front a consumer may have loaded keeps leading to its blocks |
| ExplicitClass.Producer.Enqueue | common/src/common/concurrentqueue.h:1783-1883 | from a producer whose fields are right for a history to one whose fields are right for the same history with the item appended, or without, as the result says; true exactly if there is room in the tail block, or everything in the oldest block is dequeued, or a block more fits and memory is granted; only in the last case does the ring get a block more |
| ExplicitClass.Producer.Find | common/src/common/concurrentqueue.h:1944-1950 | the block found holds the item |
| ExplicitClass.Producer.Claim | common/src/common/concurrentqueue.h:1933 | takes the index `head`, which nobody has dequeued |
| ExplicitClass.Producer.Take | common/src/common/concurrentqueue.h:1968-1970 | returns the item enqueued at the index, empties the slot and sets the flag |
| ExplicitRuns.StepKeeps | common/src/common/concurrentqueue.h:1885-1978 | with any number of consumers running `dequeue`, each load and update a step, the producer enqueueing, blocks being reused and the index replaced meanwhile, the invariant that ties counters, ring, index and items together is kept |
| ExplicitRuns.RunHolds | common/src/common/concurrentqueue.h:1885-1978 | it holds in every state of every run |
| ExplicitRuns.NeverStuck | common/src/common/concurrentqueue.h:1938-1950 | a consumer's next step always finds what it needs, however long ago it loaded the header, and then the front, and however often the index was replaced since |
| ExplicitRuns.DeliveredIsEnqueued | common/src/common/concurrentqueue.h:1933-1970 | what was moved out as index x is the item enqueued as number x |
| ExplicitRuns.EachItemMovedOnce | common/src/common/concurrentqueue.h:1933-1970 | over any run each delivered item was moved out by exactly one step |
| ExplicitRuns.QuiescentIsFifo | common/src/common/concurrentqueue.h:1885-1978 | with no dequeue in progress the items delivered are exactly the first `head` ones |
| ExplicitRuns.DequeueAdvances | common/src/common/concurrentqueue.h:1885-1978 | each step of a consumer brings its call nearer to its end, at most ten steps away, whatever others do: `dequeue` is wait-free |
| ConsumerTokens.FirstPlacesDiffer | common/src/common/concurrentqueue.h:1317-1343 | tokens that see the same global offset for the first time stand on the same of n producers exactly when their initial offsets agree modulo n |
| ConsumerTokens.RotationKeepsApart | common/src/common/concurrentqueue.h:1330-1339 | a rotation moves all tokens alike, so different places stay different |
| ConsumerTokens.EachRotationMovesOn | common/src/common/concurrentqueue.h:1330-1339 | a token that has missed no rotation stays where it is, and each one more moves it to the next producer, round the list, unless the 32-bit offset has come round to the one it has seen |
| ConsumerTokens.FirstPlaceCountsBack | common/src/common/concurrentqueue.h:1317-1328 | from a new token's first place it is as many producers as its initial offset says, round the list, to the last |
| ConsumerTokens.Queue.UpdateAfterRotation | common/src/common/concurrentqueue.h:1308-1346 | places a token by the formula of `Place`; fails exactly when there is no producer |
| ConsumerTokens.Queue.Circle | common/src/common/concurrentqueue.h:1122-1137 | the walk tries every other producer at most once, in order, and stops where it began |
| ConsumerTokens.Queue.TryDequeue | common/src/common/concurrentqueue.h:1099-1139 | run alone, looks first where the token stands, or, if it is new or has missed rotations, where `Place` puts it; takes the first item of the first producer from there on, in circular order, that has one; fails exactly when all are empty; counts what it took from one producer and with the last of a quota makes all tokens rotate |
| ConsumerTokens.AllTried | common/src/common/concurrentqueue.h:1127-1137 | a full round misses no producer |
| SwapHashes.Queue.constructor | common/src/common/concurrentqueue.h:3246-3259 | a new queue's chain is its embedded table, empty |
| SwapHashes.SwapEntries | common/src/common/concurrentqueue.h:3266 | exchanges two arrays element by element |
| SwapHashes.Repoint | common/src/common/concurrentqueue.h:3273-3281 | a chain that was taken over is made to end at the queue's own embedded table, for any length |
| SwapHashes.SwapImplicitProducerHashes | common/src/common/concurrentqueue.h:3261-3293 | each queue's chain becomes the other's, ending at its own embedded table, with the same contents table by table: lookups are exchanged exactly |
| Checksum.CheckSum | pinger/src/pinger/icmp.cc:29-56 | for any buffer, length and seed, the result as the program computes it; it is the complemented one's-complement sum exactly when the 32-bit total does not overflow |
| Checksum.FoldCarries | pinger/src/pinger/icmp.cc:46-51 | the fold loop ends, with the one 16-bit number that folding leads to |
| Checksum.CheckSumIsExact | pinger/src/pinger/icmp.cc:29-56 | the same about the sum itself, for every length an int can hold |
| Checksum.NoOverflow | pinger/src/pinger/icmp.cc:31-39 | up to 65536 words, with any seed, the accumulator does not overflow |
| Checksum.OverflowBeyond | pinger/src/pinger/icmp.cc:31-44 | one byte more can |
| Checksum.FoldedTotal | pinger/src/pinger/icmp.cc:46-51 | folding all carries at the end is adding with the end-around carry at every step (RFC 1071, section 1) |
| Checksum.SumInHostOrder | pinger/src/pinger/icmp.cc:35-38 | summing words in host order gives the byte-swapped sum of network order (RFC 1071, section 1 (B)) |
| Checksum.OddSumOnBigEndian | pinger/src/pinger/icmp.cc:41-44 | on a big-endian host the left-over byte is added at the wrong end: the sum is right exactly when that byte is zero |
| Checksum.SeedCancelsField | pinger/src/pinger/icmp.cc:93-107 | seeding the second pass with the complement of what the first left in the field cancels the field, whatever it is |
| Checksum.ChecksumVerifies | pinger/src/pinger/icmp.cc:105-107 | a packet that carries its checksum sums to 0xFFFF |
| Checksum.SecondPass | pinger/src/pinger/icmp.cc:105-107 | stores the checksum of the packet with a zero field, in network order |
| Checksum.PackIcmpPacket | pinger/src/pinger/icmp.cc:73-110 | for every id, sequence number, time stamp, task id, host byte order and stale buffer content: the packet's bytes, a checksum field that is the RFC 1071 checksum of the packet with a zero field, a sum of 0xFFFF, the rest of the buffer untouched; a buffer too short is left alone |

## Left out

- Memory orders and fences: interleavings are sequentially consistent.
- Constructors, assignments and destructors of the item type that throw, and the destructors of queue, producers and tokens.
- `try_enqueue`: it is the same code with allocation refused, which the models allow at any time.
- Explicit `enqueue_bulk` (1985-2170): after reused blocks, a grown index and a later failure, line 2035 resets the front without taking the reused entries into account, so the index invariant is not claimed across it.
- MAX_SUBQUEUE_SIZE for explicit producers under concurrency: the reuse branch does not test it.
- ExplicitClass.Producer.Enqueue: enqueueing is one atomic step towards consumers, here and in ExplicitRuns, so interleavings inside an enqueue are not covered; moving an item out and setting its flag are one step; block size is taken to be at most EXPLICIT_BLOCK_EMPTY_COUNTER_THRESHOLD, where blocks have a flag for each slot.
- WrappedQueue.WordRunRefines: the keys of the block index stay unbounded in the run; `LookupSlotIsRight` shows that a lookup with wrapped keys finds the same slot, as long as the ring's blocks fit an index word.
- WrappedQueue.WordStepIsStep: assumes that a consumer is not suspended while half a turn of items or tickets passes, which is exactly what `RecentIsTimely` says its tests need, and that an enqueue is of so many items that a size can count a block more.
- FreeListProof.StepKeeps: the number of threads is below 2^31 - 1, so that the 31-bit count cannot reach the flag, and only a block's owner adds it.
- SharedBlocks.StepKeeps: the number of sub-queues is fixed from the start (one not yet in use is empty); explicit producers are taken as owners that write to their own blocks and give back only those.
- ExplicitRuns.StepKeeps: consumers run the single `dequeue`; the explicit `dequeue_bulk` (2173-2257), which walks the index by slots, is not modelled beyond its counters.
- Thread exit, and with it reusable hash entries and recycled implicit producers; hash mixing; platform thread ids. A thread has one call in progress.
- Capacities of hash tables and indexes are unbounded numbers: doubling them does not overflow.
- ConsumerTokens.Queue.TryDequeue: sequential, on a list of producers that does not change; a sub-queue's dequeue is taken as exact, which `TicketsProof.AloneIsExact` justifies. `try_dequeue` without a token, which scores up to three producers, is not modelled.
- SwapHashes.SwapImplicitProducerHashes: two different queues, as `swap` has it.
- Pinning of `headIndex`, `tailIndex` and the like to cache lines, `ceil_to_pow_2`, memory statistics and debug code.
- `TimeDiff` (icmp.cc:58-66): its borrow adds 1000 to microseconds, so no elapsed time is claimed. `ParseIcmpPakcet`, sockets, libev, logging, protobuf, options and the dispatcher are not modelled.
- The clock is a parameter of `Checksum.PackIcmpPacket`; the time stamp has 16 bytes and the task id 8.
