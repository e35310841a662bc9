# Verified models of the Pringles shared log and its queues

The network layer of the log receives into lock-free queues, and clients, switch and storage servers
run a small protocol over it. This project models both and proves what they keep over every run.

**The queues.** Each lock-free structure is a state machine whose steps are single accesses of shared
memory, under sequential consistency. `Step`, `Apply`, `Move` and the like are the steps; `Aux` or `View` is a
history that no step reads; `Inv` is an inductive invariant over all threads, and the theorems are
stated over `Traces`, `Reaches` or `Run`, the states that some interleaving leads to. Beside each machine is
the structure in its own form, a class updated in place, whose methods are proved to take the machine's
steps, or to run a whole call of it.

- `FreeList`: the list of free blocks, with reference counts and the "should be on free list" bit.
- `OptimisticDequeue`: the counters of a sub-queue: optimistic count, overcommit, head and tail.
- `SubQueue`, `SubQueueProof`, `SubQueueTheorems`: one producer and any number of consumers over blocks
  of cells, with a map for the block index. `Blocks` cuts indices into blocks.
- `BlockDemand`: how many blocks an enqueue allocates, masked out of wrapped indices and counted down.
- `BlockIndex`, `BlockIndexRuns`, `BlockIndexTable`: the circular block index that stands behind that
  map, with wrapping keys, doubling, stale headers, rewinds and removals. `BlockIndexRuns.Relies` is what
  its runs rely on.
- `ImplicitProducer`, `ImplicitProducerProof`, `ImplicitProducerTheorems`: the three machines together, the
  sub-queue with the circular index in the place of its map and the free list in the place of its pool.
  There each part meets what another relies on, so that their theorems hold of the whole.
- `CircularArithmetic`: indices that wrap around refine unbounded ones.
- `ProducerHash`: from thread ids to producers.
- `SpscQueue`, `SpscProof`, `SpscTheorems`, `SpscCapacity`, `ReaderWriterQueue`: the queue of one producer
  and one consumer, a ring of ring buffers. `Powers` rounds sizes up to powers of two.
- `Semaphore`, `BlockingQueue`: the light-weight semaphore, and the blocking queue made of it and the
  queue above.

**The log.** A transition system over a network that loses and reorders packets and does not repeat or
invent them.

- `SharedLog`, `SharedLogProof`, `SharedLogTheorems`: appends. `Reads`: reads and questions for the tail.
  `ShardTable`: the choice of shards. `LogNodes`: storage, switch and client as loops over packets.
  `LogProgress`: that appends and reads can return, from every state. `OtherStream`: a run in which a read
  names another stream.
- `Batcher`: batching of outgoing packets. `Checksum`: the sum of the IPv4 header checksum (section 1 of
  RFC 1071, section 3.1 of RFC 791). `RawPackets`: the headers of a raw packet and what is summed for them.

## Assumptions

- Memory is sequentially consistent. Reads and writes of what one thread alone uses go together with the
  access beside them.
- Block sizes, table capacities and the range of the index type divide each other, as powers of two do;
  `x & (size - 1)` is `x % size`. A block index that the index type cannot address is not allocated.
- An enqueue of several items leaves at least a block's size of the range of the index type;
  `BlockDemand.DemandExactly` shows that it then allocates what it needs, and `DemandLost` that it may not
  otherwise.
- The queue of one producer and one consumer is made for `n` items with 0 < n and n + 1 <= 2^63. For other
  `n` the constructor makes a block of one cell or none, which `ReaderWriterQueue.Shape` and
  `OneCellStaysEmpty` are about.
- `signal` is called with a count of at least 1: its assertion allows 0, but `Semaphore.AddingKeepsExactly`
  shows exactly when that is harmless, and `SignalNothing` what happens otherwise.
- `dequeue_bulk` is called with room for at least one item.
- One thread of the switch sequences appends. Fewer than 2^32 numbers and nonces are used, which the
  events `Append` and `Sequence` check. There is at least one shard, and the lists of shards and of
  their multicast addresses have the same length; the code that fills the first of them is commented
  out. Storing without shards is the case of one shard. Clients have distinct addresses.
- Sending the batch of one destination succeeds in the end. The packets of a batch have their header of four bytes and more.

## Notes on the code

- The checksum's two folds are enough for 65538 words, and the model shows a buffer of 65539 words for
  which they are not.
- The checksum of a raw packet (`code/src/network.cpp:529`) is taken of 40 bytes of a buffer that holds the
  Ethernet header and zeros; the IP header is copied into it afterwards. It is not the IP header's, and
  the header that is sent does not verify, as `RawPackets.SentHeaderFails` shows for 100 bytes from
  10.0.0.1 to 10.0.0.2. It verifies exactly when the two headers' sums agree
  (`RawPackets.VerifiesExactly`, `HeadersAgreeExactly`). With a payload of less than 6 bytes the sum
  reaches past the buffer.
- The batcher can write past its buffer. A packet of length p after one of length l, both at most 8192,
  always fits if and only if p <= l + 1 or l >= 4096 (`Batcher.FitsExactly`).
- A read that names a stream of another shard than the append's is answered with nothing, however many
  servers have replied (`OtherStream.OtherStreamFindsNothing`); `Reads.FoundExactly` is the condition.
- `blockBaseDiff` is 0 for some counts of nearly the range of the index type (`BlockDemand.DemandLost`).
- A reply that does not complete a quorum goes back to the socket of the server that sent it, which
  nobody reads; the model drops it.

## Model

| member | source | states |
|---|---|---|
| FreeList.EveryNodeHasOnePlace | code/include/concurrentqueue.h:1459-1538 | With any number of threads at any access, every node is in exactly one of: on the list, with a caller, popped by one thread, pending re-add |
| FreeList.TryGetHandsOutOnce | code/include/concurrentqueue.h:1490-1497 | A thread that has popped a node is the only one to have it; the flag it asserts to be clear is clear |
| FreeList.PopSwapsInTheSuccessor | code/include/concurrentqueue.h:1487-1490 | When the compare-and-swap of a pop succeeds, the next it swaps in is the node's current successor: no ABA |
| FreeList.NextStableWhileReferenced | code/include/concurrentqueue.h:1482-1489 | A node's next changes under no event while some thread holds a reference to it |
| FreeList.NothingLost | code/include/concurrentqueue.h:1459-1538 | With no call in progress every node is on the list or with a caller, never both |
| FreeList.NullOnlyIfEmpty | code/include/concurrentqueue.h:1478-1509 | In every run, `try_get` answers null only if at some moment of the call the list was empty |
| FreeList.AloneGets | code/include/concurrentqueue.h:1478-1498 | From every reachable state, a thread alone that calls `try_get` on a list `[n] + rest` owns `n` after seven accesses, and the list is `rest` |
| FreeList.AloneFindsNothing | code/include/concurrentqueue.h:1478-1509 | And on an empty list answers null at once |
| FreeList.AloneAdds | code/include/concurrentqueue.h:1459-1538 | A thread alone that adds a node puts it in front of the list in five accesses |
| FreeList.EventKeepsInv | code/include/concurrentqueue.h:1459-1538 | Every access and call keeps the invariant over words, list and places |
| FreeList.SharedList.AdvanceAdd | code/include/concurrentqueue.h:1516-1538 | The accesses of `add` and `add_knowing_refcount_is_zero` on the words in place are the machine's steps |
| FreeList.SharedList.AdvanceGet | code/include/concurrentqueue.h:1473-1490 | Likewise those of `try_get` up to its pop |
| FreeList.SharedList.AdvanceDrop | code/include/concurrentqueue.h:1493-1506 | Likewise those that give references back |
| OptimisticDequeue.TakesPublishedIndices | code/include/concurrentqueue.h:2551-2564 | A consumer takes indices that were published, and the head never passes the tail |
| OptimisticDequeue.EveryIndexHasOneOwner | code/include/concurrentqueue.h:2780-2806 | In every run, an index is below the head if and only if some taking in the run, single or bulk, took it; it was then below the tail, and no other taking of the run took it |
| OptimisticDequeue.ReachedPasses | code/include/concurrentqueue.h:2551-2564 | Every reachable state ends a run given by all its states, of which `EveryIndexHasOneOwner` speaks |
| OptimisticDequeue.QuiescentBalance | code/include/concurrentqueue.h:2551-2619 | In every run, with no consumer in flight, optimistic count less overcommit is the head index |
| OptimisticDequeue.AloneFailsOnlyOnEmpty | code/include/concurrentqueue.h:2551-2619 | Then a consumer that runs alone takes nothing exactly when the sub-queue is empty |
| OptimisticDequeue.GrantFits | code/include/concurrentqueue.h:2558-2562 | What the second check grants stays within the published indices, whatever overcommits are still to come |
| OptimisticDequeue.GrantMaximal | code/include/concurrentqueue.h:2792-2803 | The second look grants all that was claimed, or all that is published beyond the claims before, and that is then taken |
| OptimisticDequeue.ClaimMaximal | code/include/concurrentqueue.h:2782-2791 | The first look claims all that was asked for, or all that it saw published beyond the claims; nothing only if that is nothing |
| OptimisticDequeue.FewerOnlyIfCovered | code/include/concurrentqueue.h:2780-2806 | In every run, a dequeue takes fewer items than asked for only if, by what it read in its call, the claims before it and what it takes cover all items up to the tail |
| OptimisticDequeue.NoneOnlyIfCovered | code/include/concurrentqueue.h:2780-2879 | And so for one that takes none |
| OptimisticDequeue.TwoShareFive | code/include/concurrentqueue.h:2780-2806 | Of five items, two consumers that ask for four each, having seen no claims, take four and one |
| OptimisticDequeue.Advances | code/include/concurrentqueue.h:2551-2619 | Every access of a dequeue to the counters brings it nearer to its end, whatever others do |
| OptimisticDequeue.SharedCounters.Advance | code/include/concurrentqueue.h:2780-2803 | The accesses of a dequeue to the four counters in place are the machine's steps |
| CircularArithmetic.CircularLessThanExactly | code/include/concurrentqueue.h:476-483 | For all indices, the comparison holds exactly when the distance modulo the range is neither 0 nor half of it or more |
| CircularArithmetic.CircularLessThanIsLess | code/include/concurrentqueue.h:476-483 | On indices less than half the range apart it is `<` |
| CircularArithmetic.HalfApartIsNotLess | code/include/concurrentqueue.h:476-483 | Indices just half the range apart are not less, either way |
| CircularArithmetic.DequeueGuardRefines | code/include/concurrentqueue.h:2556-2561 | The guards on wrapped counters are those on unbounded ones |
| CircularArithmetic.BlockDistance | code/include/concurrentqueue.h:2957-2959 | The signed division of wrapped bases is the exact block distance, negative too, across overflow |
| CircularArithmetic.BlockBaseWraps | code/include/concurrentqueue.h:2953 | Clearing the low bits of a wrapped index gives the wrapped base |
| SubQueueTheorems.RefinesFifo | code/include/concurrentqueue.h:2487-2548 | The sub-queue is a FIFO queue: an enqueue appends all its items at once, a dequeue removes what it takes at the front, nothing else changes the contents |
| SubQueueTheorems.PublishesWhatWasGiven | code/include/concurrentqueue.h:2487-2548 | The items that an enqueue publishes are those that it was called with |
| SubQueueTheorems.CountersRun | code/include/concurrentqueue.h:2551-2619 | The counters of a run of the sub-queue are a run of `OptimisticDequeue` |
| SubQueueTheorems.ReturnsWhatItTook | code/include/concurrentqueue.h:2564-2608 | A finished dequeue has copied exactly the items at the indices that it took |
| SubQueueTheorems.EveryItemStored | code/include/concurrentqueue.h:2543-2546 | No cell is overwritten before it is read: each item not counted as dequeued is where its index says |
| SubQueueTheorems.ReleasedOnceEmptied | code/include/concurrentqueue.h:2599-2608 | A consumer removes a block from the index when all its cells are dequeued, and no other consumer has it then |
| SubQueueTheorems.ReleasedForGood | code/include/concurrentqueue.h:2599-2608 | Over two points of a run: a block number that a consumer has removed is in the index in no later state, and no consumer comes to remove it again |
| SubQueueTheorems.CountWithinBlock | code/include/concurrentqueue.h:1616-1634 | The count of emptied cells never exceeds the block's size, as asserted |
| SubQueueTheorems.ConsumerAdvances | code/include/concurrentqueue.h:2806-2872 | Every access of a consumer among the blocks brings it nearer to its end |
| SubQueueTheorems.ProducerAdvances | code/include/concurrentqueue.h:2648-2774 | Every access of an enqueue does, in a rollback too |
| SubQueueTheorems.NothingLeaks | code/include/concurrentqueue.h:1597-1634 | At rest the index has just the blocks between head and tail, and all others are in the pool |
| SubQueueTheorems.BulkUsesNewBlocks | code/include/concurrentqueue.h:2643-2699 | In every run, when the masked difference has been counted down, the call has allocated ceil((start + count) / B) - ceil(start / B) blocks |
| BlockDemand.DiffIsDemand | code/include/concurrentqueue.h:2643 | For every start, 0 and across the wrap included, and every count, `blockBaseDiff` is the size of the new blocks, in the index type |
| BlockDemand.DemandExactly | code/include/concurrentqueue.h:2643 | It is that size itself if and only if that fits in the index type |
| BlockDemand.DemandLost | code/include/concurrentqueue.h:2643-2645 | For a start of 0 and a count of the range less one it is 0, though new blocks are needed |
| BlockDemand.NewBase | code/include/concurrentqueue.h:2644-2651 | Counting `currentTailIndex` up gives the stored bases of the new blocks |
| SubQueueTheorems.FailedEnqueueLeavesNothing | code/include/concurrentqueue.h:2661-2681 | After a failure no block is indexed beyond the tail and every block is in the pool, indexed, or on its way back |
| SubQueueTheorems.LooksUpLive | code/include/concurrentqueue.h:2564-2566 | Every block that a consumer is yet to read is published and in the index |
| SubQueueTheorems.RemovesAlone | code/include/concurrentqueue.h:2599-2608 | When a consumer removes a block, no other is yet to read an index of it |
| SubQueueProof.EventKeepsInv | code/include/concurrentqueue.h:2487-2880 | Every access of producer and consumers keeps the invariant, and no lookup in the index misses |
| SubQueue.SharedSubQueue.SetManyEmpty | code/include/concurrentqueue.h:1616-1634 | Counts emptied cells and says whether that empties the block; its assertion is `SubQueueTheorems.CountWithinBlock` |
| SubQueue.SharedSubQueue.AdvanceConsumer | code/include/concurrentqueue.h:2806-2872 | A consumer's accesses to blocks and index in place are the machine's steps |
| SubQueue.SharedSubQueue.AdvanceProducer | code/include/concurrentqueue.h:2648-2774 | The producer's accesses are the machine's steps |
| BlockIndex.SlotExact | code/include/concurrentqueue.h:2953-2960 | The slot a reader computes is the exact circular distance from the tail it read, forward or backward |
| BlockIndex.KeyValid | code/include/concurrentqueue.h:2882-2883 | No block's key is the mark of an unused entry |
| BlockIndex.KeyStored | code/include/concurrentqueue.h:2908-2915 | A new key takes an unused slot or that of the oldest number, and the window of keys slides |
| BlockIndex.UnusableSlot | code/include/concurrentqueue.h:2908-2925 | The index is found full only when every slot has a key and the tail is not rewound |
| BlockIndex.DoubledEnt | code/include/concurrentqueue.h:2981-2999 | Doubling keeps the entry of every number and gives the next numbers new ones |
| BlockIndex.DoubledShares | code/include/concurrentqueue.h:2981-3003 | Older headers go on sharing the entries of the numbers that they cover |
| BlockIndexRuns.LookupFindsBlock | code/include/concurrentqueue.h:2941-2963 | A finished lookup has the entry with its block's key and block, across wrap-around, doubling, a stale header, rewinds and removals out of order |
| BlockIndexRuns.ReadsAdvance | code/include/concurrentqueue.h:2949-2962 | In every run each read of a lookup leads on to the next, and the fourth to its entry |
| BlockIndexRuns.ProducerAdvances | code/include/concurrentqueue.h:2901-3008 | Each write of an insertion, a doubling or a rollback brings it nearer to its end |
| BlockIndexRuns.MoveOnOk | code/include/concurrentqueue.h:2806-2876 | The slot after it in the same header is that of the next block, for a bulk dequeue |
| BlockIndexRuns.TailKeyValid | code/include/concurrentqueue.h:2954-2956 | The key at the tail that a lookup starts from is never that of an unused entry, as asserted |
| BlockIndexRuns.RollbackHits | code/include/concurrentqueue.h:2668-2674 | Every lookup of a rollback hits the entry of the very block it takes back, although the tail moves below it |
| BlockIndexRuns.AtRest | code/include/concurrentqueue.h:2505-2513 | Between calls, after success or failure, the tail is at the last published block and nothing beyond is in the table |
| BlockIndexRuns.GrownSlotUnused | code/include/concurrentqueue.h:2924-2929 | After doubling the next slot is unused, as asserted, and old headers are unchanged |
| BlockIndexRuns.EventKeepsInv | code/include/concurrentqueue.h:2901-3008 | Every write of the producer and read or removal of a consumer keeps the table's meaning |
| BlockIndexTable.CircularBlockIndex.GetEntryForIndex | code/include/concurrentqueue.h:2941-2963 | Computes the lookup from tail and key |
| BlockIndexTable.CircularBlockIndex.RewindTail | code/include/concurrentqueue.h:2935-2939 | Moves the tail back one slot |
| BlockIndexTable.CircularBlockIndex.NewBlockIndex | code/include/concurrentqueue.h:2966-3008 | The copying and filling loops make the doubled table |
| BlockIndexTable.CircularBlockIndex.InsertEntry | code/include/concurrentqueue.h:2901-2933 | Takes the next slot, in a doubled table if it must; refuses, changing nothing, if and only if the slot is in use and there is no memory |
| BlockIndexTable.FoundFull | code/include/concurrentqueue.h:2906-2924 | The slot is in use only when every slot has a key and the oldest a block |
| BlockIndexTable.CircularBlockIndex.AllocateBlocks | code/include/concurrentqueue.h:2643-2699 | All or nothing: the loop over the masked difference puts just the new blocks in the index in order; on failure those published are as before and the others are freed, and it fails only for a full sub-queue, a block that is not there, or a full index that cannot grow |
| BlockIndexTable.CircularBlockIndex.TakeBack | code/include/concurrentqueue.h:2668-2678 | The rollback loop leaves the table with the published blocks |
| BlockIndexTable.NothingElse | code/include/concurrentqueue.h:2668-2681 | After a failure the live lookups and the tail's number are what they were |
| ImplicitProducerTheorems.DemandsMet | code/include/concurrentqueue.h:2487-2880 | In every run of sub-queue, circular index and free list together, all that one part relies on holds: blocks looked up are in the table, a block is removed alone, the list gives only free blocks and gets only blocks that its caller holds |
| ImplicitProducerTheorems.QueueRuns | code/include/concurrentqueue.h:2487-2880 | The part of such a run in the sub-queue is a run of the machine with a map and a pool |
| ImplicitProducerTheorems.TableRuns | code/include/concurrentqueue.h:2901-3008 | The part in the circular index is a run of it |
| ImplicitProducerTheorems.ListRuns | code/include/concurrentqueue.h:1459-1538 | The part in the free list is a run of it |
| ImplicitProducerTheorems.FetchesItsItem | code/include/concurrentqueue.h:2564-2570 | At the end of a lookup in the circular index, whatever the producer and others have done to it meanwhile, a consumer has the block that holds the item of its index, in the index's cell |
| ImplicitProducerTheorems.NoBlockLost | code/include/concurrentqueue.h:2599-2608 | At rest the table has just the blocks between head and tail, and every block ever used is either in the table or on the free list |
| ImplicitProducerTheorems.NeverStuck | code/include/concurrentqueue.h:2646-2699 | A consumer with indices, and the producer in an enqueue or a rollback, always has a next access |
| ImplicitProducerProof.EventKeepsInv | code/include/concurrentqueue.h:2487-3008 | Every event keeps the invariants of the three parts and the link between them |
| ProducerHash.NotThere | code/include/concurrentqueue.h:3412-3449 | A probe that ends at an empty slot shows that the id is in that table nowhere |
| ProducerHash.ProbeEnds | code/include/concurrentqueue.h:3412 | Every probe ends, as every table has an empty slot |
| ProducerHash.MovedOk | code/include/concurrentqueue.h:3418-3441 | The newest table has room for a thread found in an older one, and all stays findable |
| ProducerHash.AddedOk | code/include/concurrentqueue.h:3504-3522 | Adding a thread, in an empty slot or over a tombstone, keeps the count at least the used slots and waiting threads |
| ProducerHash.GrownOk | code/include/concurrentqueue.h:3463-3489 | A new table has room for all live threads |
| ProducerHash.ExitEnds | code/include/concurrentqueue.h:3547-3559 | An exited thread's id is in no table, and all others are found as before |
| ProducerHash.ImplicitProducerHash.Search | code/include/concurrentqueue.h:3410-3449 | The probing loop finds an id exactly if the table has it |
| ProducerHash.ImplicitProducerHash.GetOrAdd | code/include/concurrentqueue.h:3388-3532 | A live thread gets its own producer, which no other has, from whatever table; a new one gets what is supplied, and nothing if and only if there is no producer, or no memory for the larger table that it needs; failure changes no owner |
| ProducerHash.ImplicitProducerHash.ThreadExited | code/include/concurrentqueue.h:3536-3564 | The thread is forgotten in every table and no other is |
| SpscTheorems.RefinesFifo | code/include/readerwriterqueue.h:285-643 | Under every interleaving, what was removed is a prefix of what was enqueued; one access adds at the back, one removes and answers the front |
| SpscTheorems.AnswersRight | code/include/readerwriterqueue.h:285-485 | `try_dequeue`, `pop` and `peek` answer the right item, and nothing only if the queue was empty at a moment of the call |
| SpscTheorems.EnqueueAnswersRight | code/include/readerwriterqueue.h:535-643 | An enqueue answers true just when its item has become part of the queue |
| SpscTheorems.Advances | code/include/readerwriterqueue.h:285-643 | Every access of either side brings its call nearer to its end, whatever the other does |
| SpscTheorems.NextBlockFilled | code/include/readerwriterqueue.h:331-352 | When the consumer goes on, the front block is used up and the next one has an item, as asserted: no filled block is skipped |
| SpscTheorems.NextBlockEmpty | code/include/readerwriterqueue.h:573-589 | When the producer goes on, the next block is empty and is not the front block, as asserted |
| SpscProof.EventKeepsInv | code/include/readerwriterqueue.h:285-643 | Every access keeps the invariant, with stale copies of both indices |
| SpscCapacity.Filled | code/include/readerwriterqueue.h:566-573 | With the tail block full, every block after the front one is full |
| SpscCapacity.RefusesOnlyWhenFull | code/include/readerwriterqueue.h:552-636 | In every run an item is refused, or memory asked for, only if at some moment of the call the queue held at least the items that the blocks guarantee |
| SpscCapacity.PackedFull | code/include/readerwriterqueue.h:507-527 | While nothing is removed from a queue that was empty, an item is refused only when every slot of every block has an item |
| SpscCapacity.NewBlocksDouble | code/include/readerwriterqueue.h:603-611 | A new block has twice the largest size so far while that is below the limit, and then the same |
| SpscCapacity.AllPowers | code/include/readerwriterqueue.h:603-611 | In every run from blocks of sizes that are powers of two all sizes are, as masks need |
| Powers.CeilToPow2 | code/include/readerwriterqueue.h:654-666 | For every word, the smearing loop gives exactly the least power of two that is at least `x`, and 0 for 0 and when it does not fit in a word |
| Powers.SmearStep | code/include/readerwriterqueue.h:657-663 | Each shift and or doubles the number of leading ones |
| ReaderWriterQueue.Shape | code/include/readerwriterqueue.h:116-125 | For every `n` of the size type, the block count and size have room for `n` items if and only if n + 1 <= 2^63; otherwise there is one block without cells |
| ReaderWriterQueue.OneCellStaysEmpty | code/include/readerwriterqueue.h:594-603 | A block of one cell, as for `n` = 0, is empty by its indices after an item is put in it |
| ReaderWriterQueue.EnoughBlocks | code/include/readerwriterqueue.h:118-123 | The formula gives enough blocks of the largest size, with one to spare |
| ReaderWriterQueue.Queue.constructor | code/include/readerwriterqueue.h:105-158 | For 0 < n and n + 1 <= 2^63 the loop makes an empty queue that guarantees at least `n` items; for other `n` a block of one cell or none |
| ReaderWriterQueue.Queue.InnerEnqueue | code/include/readerwriterqueue.h:535-643 | Appends the item or fails without change, with memory never; on failure, or when it makes a block, the queue holds at least the guaranteed items. Without memory, and with nothing removed since the queue was empty, it fails if and only if there are as many items as `max_capacity` |
| ReaderWriterQueue.Queue.TryDequeue | code/include/readerwriterqueue.h:285-375 | Removes and returns the first item, and nothing exactly when the queue is empty |
| ReaderWriterQueue.Queue.TryPeek | code/include/readerwriterqueue.h:384-421 | Returns the first item, in the front block or the next, and leaves it |
| ReaderWriterQueue.Queue.SizeApprox | code/include/readerwriterqueue.h:493-505 | With both sides idle, the loop's sum is the number of items |
| ReaderWriterQueue.Queue.MaxCapacity | code/include/readerwriterqueue.h:517-527 | The loop's sum is the number of slots, which is what an empty queue takes without allocating; it is no less than the items held and than the guarantee |
| Semaphore.EventKeepsInv | code/include/atomicops.h:678-756 | Every access keeps the balance of count, waiting and tokens |
| Semaphore.CountBounds | code/include/atomicops.h:678-756 | In every run, with timeouts at any moment, the count is at least -1, no more is acquired than signalled, and at most one token is out |
| Semaphore.QuiescentBalance | code/include/atomicops.h:678-763 | With both sides idle the count is the balance and no token is left |
| Semaphore.GivenUpOnlyAtZero | code/include/atomicops.h:678-735 | A `tryWait` or a wait fails only at a balance of 0, never once a token is owed to it, and succeeds exactly when it acquires |
| Semaphore.TryWaitTakes | code/include/atomicops.h:727-735 | A `tryWait` at a positive balance succeeds in two accesses |
| Semaphore.WaitsUntilGivenUp | code/include/atomicops.h:678-735 | In every run only a `tryWait` fails by itself; a wait does so only once it has timed out |
| Semaphore.AddingKeepsExactly | code/include/atomicops.h:747-756 | Adding `n` keeps the invariant exactly when `n` is positive or nobody waits |
| Semaphore.SignalNothing | code/include/atomicops.h:749-755 | Signalling 0 to a waiting consumer gives it what nobody signalled |
| Semaphore.LightweightSemaphore.AdvanceProducer | code/include/atomicops.h:747-756 | The accesses of `signal` in place are the machine's steps |
| Semaphore.LightweightSemaphore.AdvanceConsumer | code/include/atomicops.h:678-735 | Those of `tryWait`, spinning, waiting and undoing are the machine's steps |
| BlockingQueue.StoredIsBalance | code/include/readerwriterqueue.h:784-885 | In every run the items stored are the balance, those enqueued and not signalled, and those acquired and not dequeued |
| BlockingQueue.AcquiredIsThere | code/include/readerwriterqueue.h:861-943 | The inner `try_dequeue` or `pop` after a successful wait never fails: every `assert(success)` holds |
| BlockingQueue.ReturnsRemoved | code/include/readerwriterqueue.h:861-943 | A removal answers the item that it removed |
| BlockingQueue.PeekReturns | code/include/readerwriterqueue.h:927-930 | A peek answers the first item, or nothing if the queue was empty when it last looked |
| BlockingQueue.NothingOnlyAtZero | code/include/readerwriterqueue.h:861-943 | In every run a removal comes back with nothing only if at some moment of its call the balance was 0 and the queue held no item but an unsignalled one; one that waits forever never does |
| BlockingQueue.TryNeverWaits | code/include/readerwriterqueue.h:861-870 | In every run a `try_dequeue` only tests and takes; it never sleeps |
| BlockingQueue.WaitsUntilTimeOut | code/include/readerwriterqueue.h:893-907 | In every run a dequeue with a time comes back with nothing only after it has timed out |
| BlockingQueue.SizeIsCount | code/include/readerwriterqueue.h:947-950 | FIFO here too; with both sides idle the reported size is exact |
| BlockingQueue.EventKeepsInv | code/include/readerwriterqueue.h:784-943 | Every step of queue or semaphore keeps their joint invariant |
| ShardTable.StreamNeverMoves | code/src/pringles_software_switch.cpp:302-318 | The k-th new stream gets shard k mod n at its first append and never moves |
| ShardTable.ClosedForm | code/src/pringles_software_switch.cpp:302-337 | The lazily filled table is the round robin over its keys in order of appearance |
| ShardTable.IndexShard | code/src/pringles_software_switch.cpp:319-337 | Without streams, number g goes to shard (g - 1) mod n for every g, and reads find the same |
| ShardTable.LoadsBalanced | code/src/pringles_software_switch.cpp:319-337 | The loads of two shards differ by at most one |
| ShardTable.ShardMap.Choose | code/src/pringles_software_switch.cpp:302-337 | Finds or assigns a key's shard in place |
| ShardTable.ShardMap.ChooseForIndices | code/src/pringles_software_switch.cpp:319-337 | A run over the numbers from 1 chooses (g - 1) mod n |
| SharedLogTheorems.AppendSafe | code/src/pringles_client.cpp:307-354 | A number that `append` returns is the one given to that very request, and at least `ack_threshold` distinct servers of its shard hold exactly its entry |
| SharedLogTheorems.RequestsAsGiven | code/src/pringles_client.cpp:270-306 | Every request of a run, and so every numbered entry, is that of a client's call, with its stream and entry |
| LogProgress.AppendCanReturn | code/src/pringles_client.cpp:307-354 | From every state of every run, an append of a resting client can return, with the next number, if a thread is free and the threshold is within the shard |
| SharedLogTheorems.HeldForever | code/src/pringles_storage.cpp:106-114 | Whatever happens next, they hold it forever |
| SharedLogTheorems.CountedAtMost | code/src/pringles_software_switch.cpp:537-562 | The recorded count never exceeds the replies taken from distinct servers, for any number of threads |
| SharedLogTheorems.CountingAnswers | code/src/pringles_software_switch.cpp:537-586 | A thread that counts a reply and reaches the threshold goes on to answer with the number; one that does not is free |
| SharedLogTheorems.EnoughWasAnswered | code/src/pringles_software_switch.cpp:537-586 | In every run, each number whose count has reached the threshold was answered, to the request that was given it |
| SharedLogTheorems.ReceiveAnswers | code/src/pringles_client.cpp:307-354 | A client takes the first answer with the nonce that it waits for, and no other |
| SharedLogTheorems.NumbersUnique | code/src/pringles_software_switch.cpp:294-295 | Numbers are given without gaps, one to a request, and no two appends return the same |
| SharedLogTheorems.VotersHold | code/src/pringles_storage.cpp:205-228 | Whose reply was taken has stored the entry, as storing comes before replying |
| SharedLogTheorems.ShardOfNumber | code/src/pringles_software_switch.cpp:319-337 | In every run without streams, number i is kept by shard (i - 1) mod n |
| SharedLogTheorems.ShardOfStream | code/src/pringles_software_switch.cpp:302-318 | In every run with streams, all entries of the k-th new stream are kept by shard k mod n |
| SharedLogProof.EventKeepsInv | code/src/pringles_software_switch.cpp:262-590 | Every step of client, switch, server and network keeps the protocol's invariant |
| Reads.ForwardedOnlyIfAcked | code/src/pringles_software_switch.cpp:652-692 | In every run, a read on its way to a server has a number that was given, of which enough replies were counted, and the server is of the shard to which the read's stream, or number, is mapped |
| Reads.RouteAnswers | code/src/pringles_software_switch.cpp:652-692 | A read beyond the last number is rejected; one with too few replies goes back to the switch; any other goes to all servers of its shard, and is rejected only if there is none |
| Reads.AnsweredIsForwarded | code/src/pringles_software_switch.cpp:652-692 | In every run, a read of a number that an append has returned goes to all servers of the append's shard |
| Reads.ReadAsGiven | code/src/pringles_client.cpp:362-411 | In every run, a read returns the number, and names the stream, of a call of its client |
| LogProgress.ReadCanReturn | code/src/pringles_client.cpp:362-428 | From every state of every run, a resting client can read a number that an append has returned, and gets what a server of its shard holds |
| Reads.AppendsShard | code/src/pringles_software_switch.cpp:302-337 | In every run, the shard of an append is that to which its stream, or number, is mapped |
| Reads.ReadRight | code/src/pringles_storage.cpp:275-276 | An entry that a read returns is the one appended there; with a threshold of the shard's size an answered read returns the entry if and only if the server is of the append's shard |
| Reads.FoundExactly | code/src/pringles_software_switch.cpp:665-692 | With shards apart and such a threshold, with streams or without, an answered read returns the entry if and only if the stream that it names is mapped to the append's shard, as the append's own stream is |
| OtherStream.OtherStreamFindsNothing | code/src/pringles_software_switch.cpp:665-692 | A run in which all servers of the shard have replied and a read that names another stream returns nothing |
| Reads.ReadsAgree | code/src/pringles_client.cpp:412-428 | Two reads of one number do not return different entries |
| Reads.ReadsWhatWasAppended | code/src/pringles_client.cpp:307-428 | A read of a number that an append returned gives no other entry than that append's |
| Reads.TailBetween | code/src/pringles_software_switch.cpp:844-846 | The tail answered lies between the last numbers at the question and now |
| Reads.ServedRight | code/src/pringles_storage.cpp:116-126 | A server of the shard that the read is mapped to answers with the entry or with nothing; when all of the append's shard must have replied, with the entry if and only if it is of that shard |
| Reads.REventKeepsInv | code/src/pringles_software_switch.cpp:619-725 | Every step of a read, among the appends, keeps the invariant |
| LogNodes.LogStorage.Put | code/src/pringles_storage.cpp:106-114 | Stores an entry unless there is one |
| LogNodes.LogStorage.Get | code/src/pringles_storage.cpp:116-126 | Finds the entry of a number, or none |
| LogNodes.LogStorage.AppendServer | code/src/pringles_storage.cpp:189-228 | All of a batch is stored before any reply; what was there stays, and new numbers get the first entry for them; each reply is to the request and number that it came with |
| LogNodes.LogSwitch.AppendRequest | code/src/pringles_software_switch.cpp:294-345 | Numbers a request and chooses its shard as the protocol's step does |
| LogNodes.LogSwitch.CountReply | code/src/pringles_software_switch.cpp:540-562 | Counts a reply and tells whether there are enough |
| LogNodes.LogSwitch.AppendResponse | code/src/pringles_software_switch.cpp:533-590 | Counts every reply of a batch once; the answers are, in order, to just those replies with which there are enough to their number, with the number and request of each; counts and network change as by the protocol's steps of one undisturbed thread |
| LogNodes.LogSwitch.ReadRequest | code/src/pringles_software_switch.cpp:652-703 | Decides about a read as the protocol's step does |
| LogNodes.LogClient.AwaitAppend | code/src/pringles_client.cpp:305-355 | Returns the number of the first response with its nonce, passing over others, or 0 at the end |
| Batcher.Conserved | code/src/network.cpp:663-702 | What was sent, batch by batch, and what is waiting is what was given, in order, whatever the clock |
| Batcher.SendsWhenDue | code/src/network.cpp:672-681 | No batch waits past the call that makes it full, numerous enough or too old, and none is sent before |
| Batcher.ImageDecodes | code/src/network.cpp:686-688 | In what is sent for a batch, bytes 2 and 3 give the number of its packets, high byte first, and all other bytes are the packets' in order |
| Batcher.SentDecodes | code/src/network.cpp:663-702 | In every run whose packets fit and have a header, each batch that was sent decodes to its packets, and these are all that were given but those that wait |
| Batcher.NextFits | code/src/network.cpp:663-681 | A packet fits that is at most one byte longer than the last accepted in the batch |
| Batcher.EqualLengthsFit | code/src/network.cpp:663-681 | Packets of one length from 1 to 8192 never overflow the buffer, over any sends, polls and clock |
| Batcher.LongerOverflows | code/src/network.cpp:663-681 | For every l < 4096 and p >= l + 2, a configuration and calls that all fit, after which a packet of length p does not fit after one of length l |
| Batcher.FitsExactly | code/src/network.cpp:663-681 | For every l from 1 to 8192 and every p, a packet of length p after one of length l fits in every run if and only if p <= 8192 and (p <= l + 1 or l >= 4096) |
| Batcher.CountFits | code/src/network.cpp:687 | The number of packets of a batch fits in the header's count |
| Batcher.Sender.SendUdpPacket | code/src/network.cpp:663-702 | The buffer's update in place is the step, and what is sent is the packets in order with the first header's count rewritten; the copy goes past the buffer if and only if the packet does not fit |
| Checksum.TwiceExactly | code/src/network.cpp:231-233 | Two folds give the ones' complement sum exactly when the second fold does not carry |
| Checksum.UpToLimit | code/src/network.cpp:231-233 | They do for all buffers of up to 65538 words |
| Checksum.OverLimit | code/src/network.cpp:231-233 | And not for some buffer of 65539 words |
| Checksum.OnesSumReduced | code/src/network.cpp:228-230 | The ones' complement sum is the plain sum reduced modulo 65535 |
| Checksum.HeaderVerifies | code/src/network.cpp:226-234 | Words whose own checksum takes the place of a 0 among them add up to all ones, and with no other value there |
| RawPackets.VerifiesExactly | code/src/network.cpp:527-530 | For all headers: the IP header that is sent verifies if and only if the words that were summed have the ones' complement sum of the header without its checksum, up to the two forms of zero |
| RawPackets.SumsEthernet | code/src/network.cpp:519-529 | With a payload of 6 bytes or more the sum is that of the Ethernet header |
| RawPackets.HeadersAgreeExactly | code/src/network.cpp:519-530 | So the header verifies if and only if the plain sums of Ethernet header and IP header, its checksum left out, agree modulo 65535, and the IP header's words are not all 0 unless the Ethernet header's are |
| RawPackets.SentHeaderFails | code/src/network.cpp:519-530 | For 100 bytes from 10.0.0.1 to 10.0.0.2 it does not |
| RawPackets.RawSender.SendPacket | code/src/network.cpp:513-530 | Both kept headers are updated in place, and the checksum is of the buffer before the IP header is in it |
| RawPackets.RawSender.constructor | code/src/network.cpp:277-291 | The IP header that a sender starts with |
| RawPackets.FieldsSent | code/src/network.cpp:507-530 | A receiver reads in the headers the destination, kind and length of the call, and else the kept headers' fields |
| RawPackets.FieldsNew | code/src/network.cpp:277-291 | And in a new IP header version 4, five words, number 54321, 64 hops, protocol 255 and the sender's address |
| Checksum.Compute | code/src/network.cpp:226-234 | The loop's result is the complement of the ones' complement sum exactly when two folds are enough |

## Left out

- Weak memory orders and fences, lock-freedom, fairness and exceptions in the queues; destructors, moves and swaps.
- The explicit producer with its tokens and its own block index; the implicit producer is the one in use.
- The choice of a producer in `ConcurrentQueue::try_dequeue`, which tries the sub-queues one after the other. In `ImplicitProducer` one producer uses the free list, and a block from the initial pool or from memory is one never used before.
- Blocks and tables are named by numbers in maps, or by their place in a sequence, and not by heap references; aliasing is what the maps say.
- SubQueue.SharedSubQueue.AdvanceConsumer: counts the emptied cells of a block in a bulk dequeue at once, as `set_many_empty` does; a single dequeue is the case of one cell.
- OptimisticDequeue.SharedCounters.Advance: does not model wrap-around of the counters, which `CircularArithmetic.DequeueGuardRefines` covers while they are less than half the range apart.
- ProducerHash.ImplicitProducerHash.GetOrAdd: calls are atomic, so the wait for another thread's resize does not occur.
- BlockingQueue.EventKeepsInv: the queue is modelled as a machine over its two parts only; its methods call one and then the other.
- Reads.FoundExactly: for shards that have no server in common; `ReadRight` is for any shards.
- Without shards the source appends to the first storage address and sends reads to all of them; the model's one shard is sent both.
- The clock's readings are real numbers, where the source has floating point.
- LogNodes.LogSwitch.AppendResponse: runs one thread, as a run of the protocol; interleaved threads are in `SharedLog`, where a reply that loses the race to insert is not counted.
- Batcher.Sender.SendUdpPacket: one destination; the source keeps one buffer for all destinations. What happens once a copy has gone past the buffer is open.
- RawPackets.RawSender.SendPacket: the Ethernet header is given; what is beyond a buffer of less than 40 bytes is any value, and the payload is not in the model.
- ImplicitProducerTheorems.NeverStuck: says that a thread has a next access. Of the parts, `OptimisticDequeue.Advances`, `SubQueueTheorems.ConsumerAdvances` and `ProducerAdvances`, and `BlockIndexRuns.ReadsAdvance` and `ProducerAdvances` bound the accesses to come; those to the free list can be repeated while others succeed.
- LogProgress.AppendCanReturn: says that an append can return, not that it does, as packets can be lost.
- Sockets, threads, configuration, statistics, byte layout of headers other than the count, endianness, C-string truncation of entries.
- Subscriptions, `trim`, view change and recovery, which are stubs; several sequencing threads, which the source does not support.
- Not storing at all (`use_store` off), where the switch answers at once.
