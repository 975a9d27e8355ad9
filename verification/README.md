# PiScan: queues, scan scheduler and sample re-blocker

A Dafny model of the parts of PiScan where a fast mutable structure, or a machine that takes one step at a
time, has to agree with something simple, and proofs that it does. All paths below are those of the PiScan
repository. Verify with `dafny verify dfyconfig.toml`.

**The queues** (`src/external`). The single-producer/single-consumer queue is modelled twice. `SpscMachine` cuts every
call at its reads and writes of shared variables, and `SpscRuns`, `SpscCalls`, `SpscCapacity` and `BlockingQueue`
prove what holds of every interleaving: it is a FIFO, none of its internal assertions can fail, it refuses only when
it may, and each side finishes its call. `SpscCalls` tells what whole calls do with what they are given. `SpscQueue`
is the same structure as classes over arrays, with the blocks chained in a ring, proved against a sequence.
`Semaphore` is the light semaphore, timed-out waits included. Of the multi-producer queue, the four protocols on the
path of its implicit producers are modelled, each for any number of threads and every interleaving: the free list with
reference counts (`FreeList`), the optimistic and overcommit counters (`DequeueCounters`), the sub-queue with its
circular block index and recycled blocks (`ImplicitProducer`, with `ImplicitSteps`, `ImplicitEnqueue`, `ImplicitRuns`
and `ImplicitReturns`), and the chained hash tables from threads to producers (`ProducerHash`). In these modules a
step function returns the state after one shared access; `Inv` is the inductive invariant; `Exec` is a run.
`FreeListCalls`, `ImplicitCalls` and `ProducerHashCalls` tell what a whole call comes to, from the step that starts it
to the first that leaves its thread idle: what it answers, when it may fail, and that it ends.

**The scan scheduler** (`src/scan`, `src/ScannerSM.cpp`, `src/util`). `MergeSort` and `Binning` sort the entries in
place and cut them into bins, `ScanCursor` walks them for ever. `ScannerMachine` is the seven-state machine as a
function on its state, on which the run properties are proved; `Scanner` is the object with the source's fields, each
of whose methods is proved to do what that function does. `ScannerTurns` tells, state by state, what each request and
each turn of the engine lead to. `ScanFeed` discharges what the machine assumes of the walk. `RadioSystem` writes a
database to property trees and reads it back, and resumes a saved state.

**The sample re-blocker** (`src/cubic/sdr/SoapySDRThread.cpp`). `SdrStream` is `readStream` over arrays.

## What the code does not do

Where a property one would expect fails, the model keeps the code as it is, and the condition under which the property
holds is proved.

- `signal(0)` to a sleeping waiter posts a wake-up that nobody was granted. The accounting survives a signal if and
  only if it is of at least 1 or nobody sleeps (`Semaphore.SignalKeepsInvIff`; `Semaphore.ZeroSignalWakes` is a run
  in which a wait then succeeds although nothing was signalled). The queues always signal 1.
- A dequeue from a sub-queue may refuse although an element is there throughout the call and nobody takes it, when
  another attempt that loaded the overcommit count long before gives up meanwhile (`DequeueCounters.RefusesThoughThere`).
  Its first check refuses if and only if the elements it found are no more than those claimed, the attempts under way and
  those that gave up since it loaded the count (`DequeueCounters.RefusalMeansSpokenFor`); so one with no attempt in
  flight never does (`ImplicitCalls.LoneDequeue`).
- A bin may span up to `bandwidth - 1`. Its entries need no second retune after the dummy if and only if
  `(span + 1) / 2 < rate / 2`, or, where the center lies below what the tuner can go down to, all of them lie above 0
  and below twice `rate / 2` (`Binning.NoRetuneIff`; `Binning.WideBinExists` is a list of which `sortBins` makes a bin
  that retunes).
- `lockedEntries` is counted once, in `sortBins`. An entry of a bin that was wholly locked then and is unlocked
  later is never visited again (`ScanCursor.StaleCount`), so that `getNextEntry` may run for ever although an entry is
  unlocked. It comes back if and only if a bin that was not counted as wholly locked has an unlocked entry, or there is
  such a bin and system 0 is unlocked (`ScanCursor.AnswersIffUnlocked`).
- An index hold that follows a manual entry leaves `_manualMode` set, so the entry is saved as a manual frequency, not
  as a hold (`ScannerMachine.HoldSavedIff`, `ScannerMachine.IndexHoldSavedAsManual`). Such an entry is tuned again on its
  frequency and modulation if and only if the frequency fits and it has no tone or code
  (`RadioSystem.ListEntryResumedIff`): the `modulation()` of one that has is no name `ST_Manual` knows
  (`RadioSystem.ToneForgotten`).
- Frequencies are read with an `int` default, so one outside 32 bits reads as missing: the entry is dropped on reload,
  and all later entries of its system shift. A system survives being written and read if and only if all its
  frequencies are non-zero and fit (`RadioSystem.LosslessIff`), and so does a database
  (`RadioSystem.DatabaseLosslessIff`); a manual frequency survives if and only if it fits
  (`RadioSystem.ManualResumedIff`).
- The comparison of two wrapped counters less than a word apart is right if and only if the first is less than half the
  word behind the second, or at most half the word ahead of it (`Bits.CircularOrder`).

## Model

| member | source | states |
|---|---|---|
| SpscRuns.InitialInv | src/external/readerwriterqueue.h:89-146 | The constructed ring of n empty blocks satisfies the queue's invariant. |
| SpscRuns.StepKeepsInv | src/external/readerwriterqueue.h:270-608 | Any one shared access of either thread, in any reachable situation, keeps the invariant: live blocks first, spare blocks behind the tail, shadow indices that lag but never lead. |
| SpscCalls.QueueIsFifo | src/external/readerwriterqueue.h:270-608 | After every run, the elements that accepted calls were given are the elements that calls have answered with followed by the contents of the live blocks, in order, growth included; and no assertion of the code can fail at the next step. |
| SpscCalls.EnqueueAnswers | src/external/readerwriterqueue.h:499-608 | A call given x, under any interleaving: accepted, it has enqueued x and nothing else; refused, nothing, and it refuses for room only if it may not allocate, and for memory only if its allocation failed. |
| SpscCalls.DequeueAnswers | src/external/readerwriterqueue.h:270-476 | A call of try_dequeue, pop or peek, under any interleaving: it answers with the oldest element, removed and alone (or, peeked at, none removed); or it refuses, removes nothing, and the queue was empty at some moment of the call. |
| SpscRuns.ConsumerAsserts | src/external/readerwriterqueue.h:345-346 | The assertion that the block the consumer advances to is not empty holds, and what it takes is a constructed element. |
| SpscRuns.ProducerAsserts | src/external/readerwriterqueue.h:547-553 | The assertion that the block the producer advances to is empty holds, and it never constructs over a live element, in either block. |
| SpscRuns.ConsumerAnswers | src/external/readerwriterqueue.h:270-476 | A call that takes or peeks answers with the oldest element not dequeued and removes it or not; one that refuses changes nothing and had found the queue empty at a step of its own. |
| SpscRuns.PromiseKept | src/external/readerwriterqueue.h:270-361 | From a call's start on a non-empty queue on, no step of either thread can make the call refuse. |
| SpscRuns.ProducerFinishes | src/external/readerwriterqueue.h:499-608 | Wait-freedom: in any run that gives the producer enough turns, whatever the consumer does, its call ends. |
| SpscRuns.ConsumerFinishes | src/external/readerwriterqueue.h:270-476 | The same for the consumer. |
| SpscCapacity.FullHolds | src/external/readerwriterqueue.h:516-600 | A full tail block with no spare block behind it means that every other live block is full too (but the front one), so the queue holds what it was built for. |
| SpscCapacity.RunStaysRoomy | src/external/readerwriterqueue.h:499-608 | Room is never lost over a run: every block, also those added by growth, is big enough, and a call about to refuse had seen enough elements. |
| SpscCapacity.ConstructedRoom | src/external/readerwriterqueue.h:101-140 | On both constructor paths, the ceiling division gives enough blocks of enough slots for maxSize elements. |
| SpscCapacity.RefusalMeansCapacity | src/external/readerwriterqueue.h:85-146 | In every run of a queue built for maxSize, a call refuses for lack of room only if the queue held at least maxSize elements when the call saw its tail block full. |
| SpscCapacity.FullMeansCapacity | src/external/readerwriterqueue.h:85-146 | The same told of whole calls: after any run, a call that refuses for lack of room has met a moment at which the queue held at least maxSize elements. |
| SpscCapacity.HeldIsContents | src/external/readerwriterqueue.h:516-523 | The number a refusal is judged by is the number of elements in the ring at that step. |
| SpscCapacity.RoundUp | src/external/readerwriterqueue.h:101 | The block size is a power of two above maxSize and less than twice the request. |
| SpscCapacity.BlockSizes | src/external/readerwriterqueue.h:566-574 | After any run, the k-th block that growth added has the first size doubled k times, but no more than the limit unless the first size is; and every size is a power of two. |
| SpscQueue.MakeRing | src/external/readerwriterqueue.h:108-140 | The constructor's loop leaves n distinct empty blocks, each chained to the next and the last to the first. |
| SpscQueue.ReaderWriterQueue.constructor | src/external/readerwriterqueue.h:89-146 | A new queue is empty, valid, and has the number and size of blocks the capacity guarantee needs. |
| SpscQueue.Block.PutTail | src/external/readerwriterqueue.h:525-535 | Writing at the tail of a circular block appends to its contents, with wrap-around. |
| SpscQueue.Block.TakeFront | src/external/readerwriterqueue.h:303-311 | Reading at the front of a circular block takes its first element and leaves the rest. |
| SpscQueue.Block.HasFront | src/external/readerwriterqueue.h:297-299 | The lazily refreshed shadow tail answers exactly whether the block holds an element. |
| SpscQueue.Block.HasRoom | src/external/readerwriterqueue.h:520-523 | The lazily refreshed shadow front answers exactly whether the block has a slot to spare. |
| SpscQueue.ReaderWriterQueue.TryDequeue | src/external/readerwriterqueue.h:270-361 | Returns and removes the first element; None, and no change, exactly when empty; the ring's shape is kept when it advances to the next block. |
| SpscQueue.ReaderWriterQueue.Pop | src/external/readerwriterqueue.h:411-474 | Removes the first element; refuses exactly when empty. |
| SpscQueue.ReaderWriterQueue.Peek | src/external/readerwriterqueue.h:369-407 | Returns the first element without removing it; None exactly when empty. |
| SpscQueue.ReaderWriterQueue.InnerEnqueue | src/external/readerwriterqueue.h:499-608 | Appends, using the tail block, the spare block after it or a new one linked in between; refuses, with no change, only when no spare block is left, the tail block is full, and it may not or cannot allocate. A block is added exactly when the tail block is full and none is spare, and has the next size. |
| SpscQueue.ReaderWriterQueue.SizeApprox | src/external/readerwriterqueue.h:478-491 | The walk round the ring ends and sums to the number of elements. |
| Bits.CeilToPow2 | src/external/readerwriterqueue.h:619-631 | The result of the shift-and-or loop is the least power of two not below its argument. |
| Bits.MaskIsRemainder | src/external/readerwriterqueue.h:308 | And-ing with a power of two less one is the remainder by that power, which the ring arithmetic rests on. |
| Bits.CircularOrder | src/external/concurrentqueue.h:406-413 | On counters less than a word apart, the comparison of the wrapped 64-bit values is that of the counts if and only if the first is less than half the word behind, or at most half the word ahead. |
| Semaphore.StepKeepsInv | src/external/atomicops.h:581-660 | Every step of the waiter or of the signaller keeps the accounting of count, kernel semaphore and outstanding wake-ups, the roll-back after a time-out included. |
| Semaphore.SignalKeepsInvIff | src/external/atomicops.h:651-660 | A signal keeps the accounting if and only if it is of at least 1 or no waiter sleeps on the count. |
| Semaphore.ZeroSignalWakes | src/external/atomicops.h:651-660 | A run from a new semaphore, through all the spins and the sleep of `wait`, in which the wait succeeds after signals of 0 only. |
| Semaphore.Balanced | src/external/atomicops.h:581-660 | After every run the count is at least -1, no more waits have succeeded than the initial count and the signals of the run add up to, and with both sides outside the count is exactly what is left of those and the kernel semaphore is 0. |
| Semaphore.WaitAnswers | src/external/atomicops.h:581-660 | A call of `wait` is never denied, under any interleaving; a try or a timed wait is denied only if, at some moment of it, all that was signalled had been waited for, and a timed wait only after its time is up. |
| Semaphore.DeniedOnlyWhenNone | src/external/atomicops.h:612-621 | A wait is denied only when everything signalled has been taken, and then leaves the count at 0. |
| Semaphore.NoLostWakeup | src/external/atomicops.h:597-606 | A waiter asleep in the kernel although something was granted wakes as soon as the signaller has made its pending post. |
| Semaphore.RollbackWaitsForPost | src/external/atomicops.h:612-621 | The roll-back loop goes round only while the signaller is between its addition and its post. |
| Semaphore.TimedWaitEnds | src/external/atomicops.h:581-622 | Every other step of a timed wait that has run out of time brings it closer to its end. |
| BlockingQueue.StepKeepsInv | src/external/readerwriterqueue.h:749-882 | Queue and semaphore side by side keep a joint invariant: the grants not yet taken never exceed the elements held. |
| BlockingQueue.SureDequeue | src/external/readerwriterqueue.h:799-842 | A dequeue started when an element was sure never refuses at any of its steps. |
| BlockingQueue.SuccessAssertsHold | src/external/readerwriterqueue.h:799-882 | In every run, the dequeue after a granted wait succeeds, with the oldest element: no success assertion can fail. |
| BlockingQueue.CountIsSize | src/external/readerwriterqueue.h:886-889 | Between calls the count that size_approx reports is the number of elements. |
| BlockingQueue.DequeueAnswers | src/external/readerwriterqueue.h:799-842 | A whole call, under any interleaving: it takes the oldest element and no other, or none; wait_dequeue always takes one, and the others come away without only if the queue was drained, but possibly for one element not signalled yet, at some moment of the call, and wait_dequeue_timed only after its time is up. |
| BlockingQueue.PeekAnswers | src/external/readerwriterqueue.h:859-867 | A whole call of peek, under any interleaving: the oldest element, and none is removed; or null, only if the queue was empty at some moment of the call. |
| BlockingQueue.EnqueueAnswers | src/external/readerwriterqueue.h:749-793 | A whole call given x, under any interleaving: it stores x and signals once, or does neither, and that only if it may not allocate or its allocation failed. |
| BlockingQueue.RefusesOnlyWhenEmpty | src/external/readerwriterqueue.h:799-842 | A try or a timed wait refuses only when the queue holds nothing but possibly one element whose signal is still to come. |
| FreeList.StepKeepsInv | src/external/concurrentqueue.h:1375-1454 | Every atomic operation of any number of threads in add, try_get and the re-add loop keeps list, reference counts and flags in accord. |
| FreeList.Partition | src/external/concurrentqueue.h:1366-1466 | A node is on the list exactly once if and only if that is its status; an owned one is not on it and has no flag; the flag is set exactly while a re-add is pending. |
| FreeList.HandedOutOnce | src/external/concurrentqueue.h:1403-1414 | A node that a successful head CAS took is off the list, unowned, holds both references, and no other thread has taken it too or is about to put it on the list. |
| FreeList.HeadCasIsSafe | src/external/concurrentqueue.h:1403-1409 | No ABA: a head CAS that succeeds finds its node at the head with no flag, and the successor it read long before is the successor still. |
| FreeList.Quiescent | src/external/concurrentqueue.h:1366-1466 | With no call in progress every node is either owned with no reference, or on the list with one. |
| FreeList.RunIsSafe | src/external/concurrentqueue.h:1366-1466 | After every run from an empty list, the chain from the head is finite, without repetition, and consists of the nodes listed. |
| FreeListCalls.GetAnswers | src/external/concurrentqueue.h:1389-1428 | A call of try_get, under any interleaving: it ends with a node that is its caller's and on the list no more, or with null, and that only if a load or a failed CAS of its own has found the list empty. |
| FreeListCalls.AddArrives | src/external/concurrentqueue.h:1375-1454 | Nothing added is lost: over any run after an add, unless a try_get hands the node out, it is on the list, once and with a count of 1, whenever no call is in progress. |
| FreeListCalls.AloneFalls | src/external/concurrentqueue.h:1375-1454 | From any reachable state, each step of a thread that runs alone brings its call closer to its end. |
| FreeListCalls.AloneEnds | src/external/concurrentqueue.h:1375-1454 | Obstruction freedom: any call under way, wherever the others stand still, ends within 27 steps of its thread alone. |
| FreeListCalls.LoneGet | src/external/concurrentqueue.h:1389-1428 | A try_get that runs alone, wherever the others stand still, ends with the first node of the list and leaves the rest; from an empty list, with null and no change. |
| FreeListCalls.LoneAdd | src/external/concurrentqueue.h:1375-1386 | An add that runs alone puts a node nobody refers to at the front of the list, and leaves any other to the last reference. |
| DequeueCounters.StepKeepsInv | src/external/concurrentqueue.h:2474-2542 | Every access of the enqueuer or any dequeuer keeps the invariant on head, tail, optimistic and overcommit counts. |
| DequeueCounters.HeadWithinTail | src/external/concurrentqueue.h:2474-2485 | The head index plus the claims still to be made never passes the tail index. |
| DequeueCounters.ClaimedIndex | src/external/concurrentqueue.h:2484-2485 | A dequeuer that passed the second check gets an index below the tail that nobody else has. |
| DequeueCounters.NoUnderflow | src/external/concurrentqueue.h:2478-2484 | Neither subtraction of the overcommit count, which may be stale, goes below zero. |
| DequeueCounters.QuiescentCounts | src/external/concurrentqueue.h:1675-1679 | With no dequeue in progress, optimistic less overcommit count is the head index. |
| DequeueCounters.QuiescentNeverRefuses | src/external/concurrentqueue.h:2474-2542 | From there, one dequeue alone gets the head element if there is one, and else refuses without a trace. |
| DequeueCounters.RefusalMeansSpokenFor | src/external/concurrentqueue.h:2474-2484 | The first check refuses if and only if the elements found published are no more than those claimed, the attempts under way, and the attempts that gave up since this one loaded the overcommit count; the second check, only if those published by then are fewer. |
| DequeueCounters.RefusesThoughThere | src/external/concurrentqueue.h:2474-2542 | A run in which a dequeue refuses although an element is there throughout its call and nobody takes it. |
| ImplicitRuns.InitialInv | src/external/concurrentqueue.h:2346-2352 | A new sub-queue over a pool of empty blocks satisfies the invariant. |
| ImplicitRuns.StepKeepsInv | src/external/concurrentqueue.h:2409-2542 | Every shared access of the enqueuer (any allocation failing or not) and of any dequeuer keeps the invariant that ties counters, block index, blocks and elements. |
| ImplicitRuns.LookupFindsBlock | src/external/concurrentqueue.h:2851-2873 | Whatever header and tail a dequeuer has loaded, its lookup leads to the entry whose key is its index rounded down to a block and whose value is the block that holds the element. |
| ImplicitRuns.ReturnsItsElement | src/external/concurrentqueue.h:2474-2542 | A dequeuer that is done has the element enqueued at its index, and no other dequeuer has that index. |
| ImplicitRuns.ReadsLiveBlock | src/external/concurrentqueue.h:2490-2522 | When a dequeuer moves its element out, the block still belongs to that use, is not complete, and the cell is full. |
| ImplicitRuns.FreedOnce | src/external/concurrentqueue.h:2522-2531 | A block goes back to the pool only when all its cells are moved out, and no other dequeuer holds or frees it. |
| ImplicitRuns.CountStaysInBlock | src/external/concurrentqueue.h:1513-1527 | The counter of a block that set_empty increments is below the block size, as its assertion demands. |
| ImplicitRuns.EnqueuerAsserts | src/external/concurrentqueue.h:2410-2471 | The head never passes the tail, the head check never refuses, an index without a slot to spare is grown, the entry after a doubling is fresh, and the cell the element goes to is empty. |
| ImplicitRuns.QuiescentBlocks | src/external/concurrentqueue.h:2410-2542 | With nobody in a call, a pool block is empty and every other block belongs to one use that still has elements to come. |
| ImplicitRuns.QuiescentDelivered | src/external/concurrentqueue.h:2474-2542 | With no dequeue in progress, every index below the head has been moved out. |
| ImplicitRuns.RunIsSafe | src/external/concurrentqueue.h:2409-2542 | After every run from construction: head within tail, finished dequeuers hold the right elements, no index is held twice. |
| ImplicitReturns.ReturnedOnce | src/external/concurrentqueue.h:2474-2542 | Over every run from construction: what is returned is what was enqueued at the index claimed, no index is returned twice, and one dequeuer's indices ascend. |
| ImplicitReturns.AllReturned | src/external/concurrentqueue.h:2474-2542 | With no dequeue in progress at its end, every index below the head has been returned over the run. |
| ImplicitCalls.EnqueueAnswers | src/external/concurrentqueue.h:2409-2471 | A whole call given x, under any interleaving: x is enqueued, alone, and the tail one higher; or neither, and that only if an allocation of its own, of a bigger index or of a block the pool did not have, failed. |
| ImplicitCalls.EnqueueEnds | src/external/concurrentqueue.h:2409-2471 | Wait-freedom: in any run that gives the enqueuer enough turns (10 at most), whatever the dequeuers do, its call ends. |
| ImplicitCalls.DequeueAnswers | src/external/concurrentqueue.h:2474-2542 | A whole call, under any interleaving: it returns one element, that enqueued at an index not yet claimed when the call began; or none, and then at some moment of the call the elements published at its start were all claimed or spoken for, an attempt that gave up meanwhile counting as speaking for one. |
| ImplicitCalls.DequeueEnds | src/external/concurrentqueue.h:2474-2542 | Wait-freedom of a dequeue, block lookup and recycling included: 15 turns at most. |
| ImplicitCalls.LoneDequeue | src/external/concurrentqueue.h:2474-2542 | With no attempt in flight, whatever is claimed and wherever the enqueuer stands, a dequeue that runs alone returns the element at the head if one is published, and else none. |
| ImplicitEnqueue.KeepCheckHead | src/external/concurrentqueue.h:2416-2420 | The start of a block always passes the check against the head. |
| ImplicitEnqueue.NextEntry | src/external/concurrentqueue.h:2818-2831 | The slot after the tail is that of the next block: fresh, rewound, or that of the oldest block not yet overwritten. |
| ImplicitEnqueue.DoubleIndex | src/external/concurrentqueue.h:2876-2912 | The copy loop of a doubling leaves the old slots, oldest first, followed by the fresh ones. |
| ImplicitEnqueue.DoubledAt | src/external/concurrentqueue.h:2889-2907 | After a doubling every block number keeps its entry, and the next ones get the fresh entries. |
| ProducerHash.StepKeepsInv | src/external/concurrentqueue.h:3294-3442 | Every access of any number of threads, with any allocation failing or not, keeps the invariant on tables, counts and threads. |
| ProducerHash.KeepAlloc | src/external/concurrentqueue.h:3365-3390 | A new table, of the fewest doublings that give room, is published with room for everyone registered, the lock still held. |
| ProducerHash.NotFull | src/external/concurrentqueue.h:3317 | No probe sequence without a gap covers a whole table. |
| ProducerHash.FreeSlot | src/external/concurrentqueue.h:3317 | From any hash, a free slot of any table is reached. |
| ProducerHash.ProbingEnds | src/external/concurrentqueue.h:3314-3355 | Every probe step, in the search, the lazy migration and the insertion, brings its loop closer to its end. |
| ProducerHash.SameProducer | src/external/concurrentqueue.h:3300-3348 | A registered thread keeps its producer, never registers again, and its later lookups return that producer. |
| ProducerHash.OwnProducer | src/external/concurrentqueue.h:3399-3434 | Two threads never share a producer. |
| ProducerHash.KeepsProducer | src/external/concurrentqueue.h:3294-3442 | No run takes a thread's producer away. |
| ProducerHash.RunIsSafe | src/external/concurrentqueue.h:3294-3442 | Over every run from construction, two lookups of one thread give the same producer, and those of two threads give two. |
| ProducerHashCalls.CallAnswers | src/external/concurrentqueue.h:3294-3442 | A whole call, under any interleaving: it answers with the producer registered for the thread from then on, which is the old one if there was one, and the thread has an entry in the newest table there was at the start or in a newer one; or it fails, neither registered nor counted, and that only if an allocation of its own failed. |
| ProducerHashCalls.LoneCall | src/external/concurrentqueue.h:3294-3442 | A call that runs alone, wherever the others stand still, with every allocation succeeding, ends and succeeds, provided that the resize lock is free, the thread is registered already, or its count leaves it room in the newest table. |
| MergeSort.MergeParts | src/scan/SystemList.cpp:192-245 | In place, the two runs become their merge, taking from the left on ties; the rest of the array is untouched. |
| MergeSort.CopyRest | src/scan/SystemList.cpp:226-242 | The two closing loops append what is left of the one run. |
| MergeSort.Sort | src/scan/SystemList.cpp:249-263 | The range ends ascending, a stable permutation of what it was; the rest of the array is untouched. |
| MergeSort.MergeSorted | src/scan/SystemList.cpp:207-245 | The merge of ascending runs is ascending. |
| MergeSort.MergeOf | src/scan/SystemList.cpp:211-224 | Of each frequency, the merge has the entries of the left run and then those of the right, in their order. |
| MergeSort.MergedHalves | src/scan/SystemList.cpp:249-263 | Merging stably sorted halves gives a stable sort of the whole. |
| MergeSort.StableSortUnique | src/scan/SystemList.cpp:249-263 | Ascending and stable determine the result: there is one such list. |
| Binning.Gather | src/scan/SystemList.cpp:142-155 | The array holds all entries of all systems, in order. |
| Binning.SortBins | src/scan/SystemList.cpp:134-174 | The bins are non-empty, their concatenation is the stably sorted list, each spans less than the bandwidth, none could have taken the next entry, and each counts its locked entries. |
| Binning.AddKeepsBinned | src/scan/SystemList.cpp:161-174 | Adding an entry, to the last bin or a new one, keeps all of that. |
| Binning.FewestBins | src/scan/SystemList.cpp:161-174 | No grouping of the entries into spans below the bandwidth has fewer groups. |
| Binning.CutUnique | src/scan/SystemList.cpp:161-174 | There is one cut of a list into bins with these properties. |
| Binning.SortBinsUnique | src/scan/SystemList.cpp:134-174 | The contract of sortBins determines the sorted list and the bins. |
| Binning.BinSpan | src/scan/SystemList.cpp:161-174 | Any two entries of a bin are less than the bandwidth apart. |
| Binning.WithinHalf | src/scan/SystemList.cpp:265-272 | Every entry of a bin is within half the bandwidth, divided as integers, of the bin's center. |
| Binning.NoRetuneIff | src/sigproc/Demodulator.cpp:143-157 | After the dummy has tuned to the center, no entry of the bin retunes if and only if half the span, rounded up, is below half the sample rate; where the tuner stops short of the center, if and only if all entries lie above 0 and below twice half the rate. |
| Binning.NarrowBinTunesOnce | src/sigproc/Demodulator.cpp:152 | So no bin of span at most bandwidth - 3 retunes when the rate is the bandwidth. |
| Binning.WideBinTunesAgain | src/sigproc/Demodulator.cpp:152 | And every bin of span bandwidth - 1 does. |
| Binning.WideBinExists | src/scan/SystemList.cpp:134-174 | Whatever sortBins makes of two channels bandwidth - 1 apart is such a bin, and it retunes. |
| ScanCursor.SystemList.Sort | src/scan/SystemList.cpp:134-174 | The first sort of a fresh list yields the bins above with the cursor at the first dummy. |
| ScanCursor.SystemList.GetNextEntry | src/scan/SystemList.cpp:107-132 | If anything is unlocked the call ends, answers with the first answering position at or cyclically after the cursor, and leaves the cursor just after it; neither the entry it answers with nor that entry's system is locked out. |
| ScanCursor.SystemList.NextEntries | src/scan/SystemList.cpp:107-132 | The answers of n successive calls are the stops of the round in order, over and over, from the one whose turn it is. |
| ScanCursor.SystemList.SkipFull | src/scan/SystemList.cpp:115 | The inner loop over wholly locked bins ends at one that is not, and skips no answer. |
| ScanCursor.SystemList.TakeDummy | src/scan/SystemList.cpp:112-118 | One turn at a bin's head either answers with its dummy or moves on without skipping an answer. |
| ScanCursor.SystemList.TakeEntry | src/scan/SystemList.cpp:119-128 | One turn at an entry either answers with it or moves on without skipping an answer. |
| ScanCursor.SystemList.AdvanceEntry | src/scan/SystemList.cpp:122-127 | The cursor moves to the next position of the round, to the head of the next bin after the last entry, and round to the first. |
| ScanCursor.SystemList.GetEntryByIndex | src/scan/SystemList.cpp:100-105 | A valid pair of indices gives that entry and leaves the cursor alone; anything else gives the next entry of the walk. |
| ScanCursor.AheadStep | src/scan/SystemList.cpp:111-129 | Passing a position that does not answer lowers the cyclic distance to the answer by one, which is why the loop ends. |
| ScanCursor.TurnAfter | src/scan/SystemList.cpp:107-132 | After i answers the cursor stands i stops further on, counted round. |
| ScanCursor.CyclicCoverage | src/scan/SystemList.cpp:107-132 | With fixed locks the answers are the endless repetition of the stops: answer i is stop i, counted from the cursor, modulo their number. |
| ScanCursor.StopsAre | src/scan/SystemList.cpp:107-132 | The stops are the answering positions of a round, each once, ascending. |
| ScanCursor.VisitedIff | src/scan/SystemList.cpp:115-129 | A position answers if and only if its bin is not counted as locked and it is an unlocked entry, or a dummy with system 0 unlocked. |
| ScanCursor.FixedLocks | src/scan/SystemList.cpp:115-129 | With the locks that sortBins counted, the entries visited are exactly the unlocked ones, and the dummies those of bins with one. |
| ScanCursor.AnswersIffUnlocked | src/scan/SystemList.cpp:110-129 | Whatever the locks are now, the loop ends if and only if some bin not counted as wholly locked has an unlocked entry, or there is such a bin and system 0 is unlocked. |
| ScanCursor.FixedLocksAnswer | src/scan/SystemList.cpp:110-129 | With the locks that sortBins counted: if and only if some entry is unlocked. |
| ScanCursor.StaleCount | src/scan/SystemList.h:55-57 | An entry of a bin wholly locked at the sort is never visited whatever the locks are later. |
| ScanFeed.StopComes | src/scan/SystemList.cpp:107-132 | Every stop comes up within any round of answers. |
| ScanFeed.RealEntriesKeepComing | src/ScannerSM.cpp:189-193 | With some entry unlocked, real entries keep coming, so the loop that leaves the dummies in ST_Hold ends. |
| ScannerMachine.RunKeepsInv | src/ScannerSM.cpp:130-326 | Executing any state keeps the machine's invariant over its log of executions. |
| ScannerMachine.AskKeepsInv | src/ScannerSM.cpp:59-114 | So does any external request, at any moment. |
| ScannerMachine.ReceiveAfterStreak | src/ScannerSM.cpp:130-170 | In every run, SCAN goes to RECEIVE only after 25 executions in a row of ST_Scan that found signal on one entry from one advance of the cursor, and that entry is the last one the cursor gave, and no dummy. |
| ScannerMachine.NeverOnDummy | src/ScannerSM.cpp:189-262 | In every run, no RECEIVE and no completed HOLD has a dummy as its entry. |
| ScannerMachine.RequestHolds | src/ScannerSM.cpp:72-114 | A hold or manual request puts the machine in the held condition, whether the table accepts or ignores it. |
| ScannerMachine.HeldStep | src/ScannerSM.cpp:59-326 | Held, any execution and any request but startScan leaves it held, and what executes is not SCAN. |
| ScannerMachine.NoScanWhileHeld | src/ScannerSM.cpp:59-326 | Over every run without startScan, no ST_Scan executes once held. |
| ScannerMachine.NeverStalls | src/ScannerSM.cpp:130-326 | In every run, each executed SCAN, HOLD, RECEIVE, MANUAL or SAVEALL leaves an event pending, in spite of the guards on external events. |
| ScannerMachine.HoldDecides | src/ScannerSM.cpp:202-232 | A hold turns to receiving if and only if there is a signal, and to scanning if and only if there is none, nobody asked for the hold, and the entry is locked out or its delay, if any, is over: the guards on the event's source never decide. |
| ScannerMachine.DelayWaitedOut | src/ScannerSM.cpp:208-261 | From the turn of ST_Receive that loses the signal at some time on, over any number of turns that find the entry silent, unlocked and within its delay of that time, the hold stays on it and the cursor where it was; the turn that finds the delay over starts scanning at the cursor's next answer. |
| ScannerMachine.EntryStays | src/ScannerSM.cpp:130-326 | Once a scan, hold or manual step has executed there is a current entry, at every later time. |
| ScannerMachine.SavedState | src/ScannerSM.cpp:298-326 | What ST_SaveAll saves, told from the log: manual if a manual entry came after the last scan step, else hold if one is requested, else scan. |
| ScannerMachine.HoldSavedIff | src/ScannerSM.cpp:298-326 | A held list entry is saved as a hold if and only if no manual entry came after the last scan step. |
| ScannerMachine.IndexHoldSavedAsManual | src/ScannerSM.cpp:181-186 | A run from start-up, with the list loaded first, in which an index hold is saved as a manual frequency. |
| ScannerTurns.StartScanScans | src/ScannerSM.cpp:59-70 | From LOAD, HOLD, RECEIVE or MANUAL, startScan leaves SCAN pending, and the engine's next turn logs an ST_Scan on the cursor's next answer and ends the external hold and the manual mode. |
| ScannerTurns.StartScanIgnored | src/ScannerSM.cpp:59-70 | From SCAN, SAVEALL and STOPPED it changes nothing. |
| ScannerTurns.HoldScanHolds | src/ScannerSM.cpp:72-88 | From LOAD or SCAN, holdScan leaves HOLD pending; from any state the hold and the index are kept, and nothing else changes. |
| ScannerTurns.HoldTurn | src/ScannerSM.cpp:172-193 | A turn of ST_Hold ends on the entry of the index asked for, if there is one; else, if an index was asked for or the entry is a dummy, on the first real entry from the cursor on; else where it was; and serves the index. |
| ScannerTurns.StopScannerStops | src/ScannerSM.cpp:90-101 | From any state but STOPPED, stopScanner leaves SAVEALL pending; the engine's next turn saves, the one after ends the engine. |
| ScannerTurns.StopScannerIgnored | src/ScannerSM.cpp:90-101 | From STOPPED it changes nothing. |
| ScannerTurns.ManualEntryTunes | src/ScannerSM.cpp:103-114 | From LOAD, SCAN, HOLD, RECEIVE or MANUAL, manualEntry leaves MANUAL pending with its data; the next turn tunes to that frequency and modulation, and the one after holds there, unless an index is waiting. |
| ScannerTurns.ManualEntryIgnored | src/ScannerSM.cpp:103-114 | From SAVEALL and STOPPED it changes nothing. |
| ScannerTurns.LoadTurn | src/ScannerSM.cpp:116-128 | After ST_Load the scanner waits with nothing pending; after ST_Stopped the engine does not run any more. |
| ScannerTurns.ReceiveTurn | src/ScannerSM.cpp:238-266 | Receiving goes on while there is a signal; the turn that finds none starts the delay and turns to holding, on the same entry. |
| ScannerTurns.ReceiveIffStreak | src/ScannerSM.cpp:130-170 | In every run, a turn of ST_Scan leads to receiving if and only if it is the 25th in a row, by the log, that found a signal on one entry from one advance of the cursor. |
| ScannerTurns.ScanTurn | src/ScannerSM.cpp:130-170 | The scan turn after one that found a signal looks at the same entry again, and the one after a turn without at the cursor's next answer. |
| Scanner.ScannerSM.constructor | src/ScannerSM.cpp:30-32 | The new object is in the machine's initial state. |
| Scanner.ScannerSM.InternalEvent | src/util/StateMachine.cpp:52-59 | The event replaces any pending one, and the state it leaves becomes the last state. |
| Scanner.ScannerSM.ExternalEvent | src/util/StateMachine.cpp:32-48 | An ignored target changes nothing; else the event is posted and marked external. |
| Scanner.ScannerSM.Request | src/ScannerSM.cpp:59-114 | Each request does to the fields what the machine's transition tables say, for every current state. |
| Scanner.ScannerSM.StateEngine | src/util/StateMachine.cpp:62-99 | One turn of the engine is one execution of the machine, event data and flags included. |
| Scanner.ScannerSM.StScan | src/ScannerSM.cpp:130-170 | Refines the machine's scan step. |
| Scanner.ScannerSM.PickEntry | src/ScannerSM.cpp:177-193 | The loop past the dummies ends at the next real entry, after serving a pending index. |
| Scanner.ScannerSM.LeaveHold | src/ScannerSM.cpp:202-232 | Signal, external hold, lockout, delay and event guards decide the next state in that order. |
| Scanner.ScannerSM.StHold | src/ScannerSM.cpp:172-236 | Refines the machine's hold step. |
| Scanner.ScannerSM.StReceive | src/ScannerSM.cpp:238-266 | Refines the machine's receive step, in which the event of the lockout branch is always overwritten. |
| Scanner.ScannerSM.StManual | src/ScannerSM.cpp:268-296 | Refines the machine's manual step. |
| Scanner.ScannerSM.StSaveAll | src/ScannerSM.cpp:298-326 | Refines the machine's save step. |
| SdrStream.SdrThread.constructor | src/cubic/sdr/SoapySDRThread.cpp:482-508 | The stream starts with an empty overflow buffer of the MTU's size. |
| SdrStream.SdrThread.ReadStream | src/cubic/sdr/SoapySDRThread.cpp:202-403 | Whatever a device returns that keeps to the size each read asks for: the batch followed by the new overflow is the old overflow followed by what was returned; all batches built (pushed or discarded) and the overflow are all samples since the rate last changed; the overflow stays below the MTU; a batch is full unless stopping or a read failed, and no read is made that is not called for; the return code. |
| SdrStream.SdrThread.TakeOverflow | src/cubic/sdr/SoapySDRThread.cpp:229-249 | The batch starts with as much overflow as fits, and what is left moves to the front of the buffer. |
| SdrStream.SdrThread.ShiftHeld | src/cubic/sdr/SoapySDRThread.cpp:244-248 | The overlapping move keeps the samples and their order. |
| SdrStream.SdrThread.Fill | src/cubic/sdr/SoapySDRThread.cpp:251-357 | The read loop loses, repeats and reorders nothing, ends for one of its three reasons, and makes no read that is not called for: none after the stop flag, a failed read or a full batch. |
| SdrStream.SdrThread.ReadOnce | src/cubic/sdr/SoapySDRThread.cpp:254-356 | One round of it: the samples of one read go behind what was received before. |
| SdrStream.SdrThread.Take | src/cubic/sdr/SoapySDRThread.cpp:258-356 | One chunk goes to the batch, and what does not fit to the overflow. |
| SdrStream.SdrThread.TakeOver | src/cubic/sdr/SoapySDRThread.cpp:275-332 | A chunk that does not fit is cut at the batch's end, and the rest appended to the overflow. |
| SdrStream.SdrThread.ChangeRate | src/cubic/sdr/SoapySDRThread.cpp:482-513 | A rate change, to any MTU, drops the overflow, sizes it to the new MTU and starts the count of samples anew; the stretch that ends is recorded with what it built and dropped. |
| SdrStream.SdrThread.EachStretch | src/cubic/sdr/SoapySDRThread.cpp:482-513 | Over a run with any number of rate changes, each stretch starts where the one before it ended, and what it built followed by what it dropped, less than one MTU, is what the device returned in it. |
| SdrStream.CopyIn | src/cubic/sdr/SoapySDRThread.cpp:291-301 | The copy loop writes the chunk's samples where asked, real and imaginary swapped or not, and keeps what stands before. |
| SdrStream.PartIsAll | src/cubic/sdr/SoapySDRThread.cpp:291-301 | The samples of a chunk, written out again, are all of its floats in order; `iq_swap` exchanges the two parts of each sample and nothing else. |
| SdrStream.AtLeast | src/cubic/sdr/SoapySDRThread.cpp:234 | Making sure of a buffer's size keeps its contents. |
| SdrStream.Shift | src/cubic/sdr/SoapySDRThread.cpp:245 | Moving samples to the front of their own buffer is right although the ranges overlap. |
| SdrStream.SdrThread.ReceivedSplit | src/cubic/sdr/SoapySDRThread.cpp:254-357 | What the device returned over two stretches is what it returned over both. |
| RadioSystem.EntryRoundTrip | src/scan/RadioSystem.cpp:27-71 | Reading an entry's tree gives the same kind, frequency, tag, lockout, delay, tone or code if the frequency is a non-zero int, and nothing otherwise. |
| RadioSystem.MakeEntryIff | src/scan/RadioSystem.cpp:20-71 | On any tree, an entry is made if and only if the tree has a frequency that is a non-zero int and one of the four types; each other value it has is taken over, and a missing one is empty, false or 0. |
| RadioSystem.AnalogSystem.constructor | src/scan/RadioSystem.cpp:73-92 | The system has the readable entries of its tree, in order, numbered from 0; unknown types and unreadable entries are passed over. |
| RadioSystem.AnalogSystem.AddEntry | src/scan/RadioSystem.cpp:94-101 | The entry is appended with its place set. |
| RadioSystem.AnalogSystem.GetPropertyTree | src/scan/RadioSystem.cpp:103-115 | The tree has the system's fields and one child for each entry, in order. |
| RadioSystem.SystemRoundTrip | src/scan/RadioSystem.cpp:73-115 | Written and read, a system has exactly its loadable entries, renumbered. |
| RadioSystem.LosslessIff | src/scan/RadioSystem.cpp:27-115 | It comes back the same if and only if all its frequencies are non-zero ints. |
| RadioSystem.UnreadablePassedOver | src/scan/RadioSystem.cpp:76-91 | Of any list of channels, the readable ones become entries, in order, numbered as if the others were not there. |
| RadioSystem.UnknownPassedOver | src/scan/SystemList.cpp:57-77 | Of any list of systems, those of a known type are read, in order, numbered as if the others were not there. |
| RadioSystem.DatabaseRoundTrip | src/scan/SystemList.cpp:57-98 | A database written and read has the same systems, each with its loadable entries. |
| RadioSystem.DatabaseLosslessIff | src/scan/SystemList.cpp:57-98 | It comes back the same, at every index, if and only if all frequencies are non-zero ints. |
| RadioSystem.PrefixSurvives | src/scan/RadioSystem.cpp:76-91 | An entry keeps its index if it and those before it in its system are loadable, whatever follows. |
| RadioSystem.KeyIdentifies | src/scan/Entry.h:91-188 | Two entries have the same key if and only if they have the same frequency, kind and tone or code. |
| RadioSystem.HoldResumed | src/ScannerSM.cpp:34-57 | A hold that was saved is resumed by startScanner on the same entry, found at its index in the database read back, if that entry and those before it in its system are loadable. |
| RadioSystem.ScanResumed | src/ScannerSM.cpp:34-57 | A saved scan, or nothing saved, is resumed as a scan: the engine's next turn looks at the walk's next entry. |
| RadioSystem.HoldNeedsSameChannel | src/ScannerSM.cpp:39-47 | On whatever database, the saved hold is resumed if and only if the entry now at its index has the same frequency, kind and tone or code (for an index that is gone, if and only if the next entry of the walk has the same key); else the scan starts. |
| RadioSystem.ManualResumedIff | src/common/State.cpp:95-121 | A saved manual frequency is resumed if and only if it is an int. |
| RadioSystem.ListEntryResumedIff | src/ScannerSM.cpp:281-289 | A list entry that was saved as manual is resumed on its frequency and modulation if and only if the frequency is an int and the entry has no tone or code. |
| RadioSystem.ToneForgotten | src/ScannerSM.cpp:281-289 | One with a tone or a code is resumed as plain NFM. |

## Left out

- Memory orderings and fences: the queues are modelled over sequentially consistent memory.
- Exceptions, element destructors, moves and swaps of queues, alignment and padding.
- Explicit producers, tokens, rotation between producers, bulk operations and the thread-exit code of the multi-producer queue: PiScan uses none of them.
- The hash function, thread ids and recycling of producers: hashes are arbitrary numbers, and no producer ever becomes inactive because thread exit is not compiled in.
- `MAX_SUBQUEUE_SIZE`: the limit on a sub-queue is the default one, none.
- The initial pool of blocks and the allocation of new ones: `ImplicitProducer` takes any free block, or a new one, or fails; that a free block is handed out once is `FreeList`'s result.
- Counters that wrap: the sub-queue's counters are unbounded counts; Bits.CircularOrder says when the wrapping comparison agrees with theirs.
- The kernel semaphore and clocks: the semaphore is a number, a time-out is a choice the environment makes, and the time a scanner state reads is an input of its execution (any integer, so the clock may even go back).
- SpscQueue.ReaderWriterQueue.SizeApprox: stated for a queue at rest; under concurrent calls the result is an estimate.
- SpscQueue.ReaderWriterQueue.InnerEnqueue: one thread at a time; the outcome of the allocation and the contents of fresh memory are parameters. Interleavings are SpscRuns'.
- Semaphore.NoLostWakeup: takes the kernel semaphore to wake a waiter when it can.
- ProducerHash.ProbingEnds: is about the probe loops; a thread that waits for another to finish growing the table waits as long as that thread takes, as in the source.
- FreeListCalls.AloneEnds: for a thread that runs alone; under contention a call of the free list may be retried as long as others succeed, as in the source.
- ScanCursor.SystemList.GetNextEntry: requires that something answers, since the source loops for ever otherwise (src/scan/SystemList.cpp:110).
- ScanCursor.CyclicCoverage: for locks fixed during the walk (they may have changed since the sort).
- ScanCursor.SystemList.Sort: for a list not sorted before and with at least one entry; the source appends to the old bins otherwise, and reads past its array with no entry at all.
- External events that overlap an execution of the engine: a request is one step, between two executions.
- The branch of ST_Scan for an empty database, which passes data of the wrong type on to ST_Manual.
- ScannerMachine.ReceiveAfterStreak: signal is an arbitrary answer each time, except that a dummy never has any.
- Context broadcasts, audio switching, locking, sleeping and logging in the scanner's states.
- JSON text: property trees are maps of typed values, and reading an int that does not fit gives the default.
- The conversion of Sentinel files, whose indices addEntry overwrites.
- The tuning calls themselves and all signal processing; a frequency change is the retune condition only.
- SdrStream.SdrThread.ReadStream: `iq_swap` is taken to be the same for the two parts of one chunk, and `numElems` and the MTU to change between calls only, as `updateSettings` runs on the same thread.
- The re-use of batch buffers, the count of blocked attempts and the metadata of a batch in readStream.
