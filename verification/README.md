# Models and proofs for the software side of the memory system

This project models the node software of a distributed shared memory with an FPGA directory: the
set-associative cache that application and agent threads share, the lock-free structures under it, the
B-tree it carries, and the data structures that a database keeps in its global memory. Everything below
holds for all inputs, all interleavings and all runs of the models; where a property needs a premise, the
premise is named, and where a property is false of the code the exact condition, or the one exception, is
proved instead.

How the parts are modelled:

- Concurrent code is a step system on values: one step for each atomic load, store, compare-and-swap,
  lock action, send or receive, by any number of threads. Theorems are about every state of every run.
  Members that start with `Run`, `Step` or end in `Keeps` build the inductive invariants.
- Sequential code that changes memory in place is imperative: classes with fields, loops with invariants,
  methods proved against functions of the old state.
- A failing assert, the endless loop after an unexpected reply, and a read of something never written are
  states of their own (`Crash`, `Stuck`, `Failed`), and the theorems say when they are not reached. A loop
  that tries again repeats its steps.

| part | files | source |
|---|---|---|
| cache engine | `CacheState`, `CacheSteps`, `CacheInv`, `Cache*Proof`, `CacheAppKeeps`, `CacheTheorems`, `CacheAccess`, `CacheLookup`, `CacheRounds`, `CacheGrants`, `CacheAgents`, `CacheAnswers`, `CacheTouch`, `CacheSolo`, `CacheMoving`, `CacheUndo`, `CacheRefused`, `CacheSingle`, `CacheReplies`, `CacheScript`, `CacheReach`, `CacheWitness`, `CacheBuffers`, `CacheLines` | `soft_multi_node/src/Cache.cpp`, `CacheAgent.cpp`, `include/Cache.h` |
| reader/writer lock | `WrLock` | `include/WRLock.h` |
| free list | `FreeList`, `FreeListSolo` | `include/concurrentqueue/concurrentqueue.h` |
| explicit sub-queue | `QueueState`, `QueueClaim`, `QueueInv`, `QueueProducer`, `QueueWorker`, `QueueTheorems`, `QueueCalls`, `QueueSolo`, `QueueIndex` | the same |
| semaphore | `Semaphore`, `SemaphoreSolo`, `Sums` | `include/concurrentqueue/lightweightsemaphore.h` |
| B-tree | `BTreeShape`, `BTreeMoves`, `BTreeOrder`, `BTreeSearch`, `BTreeInsert`, `BTreeSteps`, `BTreeNodes`, `BTreeRoom`, `BTree` | `lib/parallel_hashmap/btree.h` |
| global memory | `Memory`, `Words`, `LineAccess`, `Allocation`, `AllocationRuns`, `AllocationLimits` | `src/DSM.cpp`, `include/GlobalAddress.h`, `LocalAllocator.h`, `GlobalAllocator.h` |
| shared by all | `Options` | the option type |
| storage | `RadixArray`, `HashObjects`, `HashChains`, `HashBuckets`, `HashIndex`, `Schemas`, `Catalogue` | `database/storage/` |

Where the code falls short of what its comments or its asserts promise:

- A tag, and a data buffer, can be in two lines of the cache for a moment: exactly while newLine, under the
  set's write lock, has copied a line to its shadow slot and not yet rewritten the main slot
  (`CacheMoving.OneLinePerTag`, `OneLinePerBuffer`; reached in `CacheWitness.TagInTwoLines`).
- A write to a shadow line takes the line's read lock, so two threads can be writing its bytes at a time
  (`CacheTouch.TouchesLocked`, `ShadowLetsIn`); a write to a main line excludes every other access
  (`CacheTouch.WriteExcludes`).
- A refused eviction ends, within seventeen turns of its thread (`CacheRefused.RefusalEnds`), in one of three
  ways: the thread loads INVALID and gets out; it wins the compare-and-swap back to TO_PRESERVED and waits for
  ever for a lock it holds (a run is `CacheWitness.RefusalLosesThread`); or it undoes an EVICT_SHARED for ever,
  because an agent has taken the line from TO_PRESERVED to TO_SHARED for a READ_MISS_DIRTY, a status that this
  loop does not try (a run is `CacheWitness.RefusalSpinsThread`). `CacheRefused.RefusedEvictionHangs` has an
  if-and-only-if for each, `LostForEver` says that both losses are for ever.
- A thread can pop an empty stack of buffers, unless it starts with twice as many buffers as there are main
  slots; no smaller number is enough (`CacheBuffers.LeastBuffers`).
- The asserts of Cache::malloc can fail: on a chunk that does not start on a line, and in the last chunk
  of a node whose memory comes within a chunk of 40 GB; exactly when is `AllocationLimits.FailsExactly`.
- malloc returns the null address exactly for the first cut of chunk 0 of agent 0 of node 0
  (`AllocationLimits.NullExactly`; a request of size zero leaves the next one the same address), which the
  hash index and its iterator take for the end of a list. The memory that the storage structures are proved
  over therefore never hands it out (`Memory.Fits`).
- A GAddrArray of at most one element has a root sized for addresses, too small for one element above
  10240 bytes (`RadixArray.ElementInside`, `LargeElement`).
- After an even number of insertions for a key, SearchRecord returns the last record but one, the first of
  the newest pair (`HashIndex.FoundIsLatest`).
- A 32768th reader of WRLock makes the lock look free: it excludes in all runs exactly for at most 32768
  threads (`WrLock.ExcludesExactly`).
- waitMany(0) of the semaphore fails its own assert (`Semaphore.WaitManyOfNone`); waitMany of more fails it in
  some run exactly if a wait of the system may fail (`Semaphore.InVainExactly`).

Premises: the theorems of the sub-queue hold as long as any two words that are compared stand for numbers
less than 2^63 apart, which `QueueTheorems.FewStaysApart` shows for all but astronomically long runs;
those of WRLock as long as fewer than 32768 threads read at once; those of `CacheSingle` and
`CacheReplies` for one application thread and a directory that answers each request with one of the reply
sets the handlers know.

## Model

| member | source | states |
|---|---|---|
| `CacheTheorems.RunInv` | soft_multi_node/src/Cache.cpp:38-1016 | every state of every run, of any number of application threads and agents under any messages, satisfies the invariant of `CacheInv` |
| `CacheMoving.OneLinePerTag` | soft_multi_node/src/Cache.cpp:399-530 | a line in use lies in the set of its tag; two lines of the whole cache hold the same tag if and only if they are the main and shadow line of a move that a newLine has begun and not finished |
| `CacheMoving.OneLineAtRest` | soft_multi_node/src/Cache.cpp:399-530 | without such a move each tag is in at most one line |
| `CacheMoving.MoveDoubles` | soft_multi_node/src/Cache.cpp:474-482 | the step that copies a line leaves its tag and its buffer in two lines |
| `CacheWitness.TagInTwoLines` | soft_multi_node/src/Cache.cpp:474-482 | a run from the start reaches such a state |
| `CacheMoving.StatusOfLines` | soft_multi_node/include/Cache.h:40-54 | the flag is set only in TO_* states; main lines are never TO_PRESERVED, shadow lines never TO_MODIFIED; TO_INVALID does not occur |
| `CacheMoving.NeverPreservedAgain` | soft_multi_node/src/Cache.cpp:442-496 | a main line once filled is never PRESERVED again |
| `CacheTheorems.NeverBothFound` | soft_multi_node/src/Cache.cpp:499-530 | the "found in both" asserts of readLine, writeLine and findLineForAgent are unreachable |
| `CacheAccess.ReturnsExactly` | soft_multi_node/src/Cache.cpp:38-398 | readLine and writeLine return only after a check under the line's lock found MODIFIED, or for a read SHARED; `succ` is set if and only if such a check has passed since the call; after it the thread checks no other line and only waits for its eviction and returns |
| `CacheLookup.FindsExactly` | soft_multi_node/src/Cache.cpp:49-175 | while others change the set's lines: the look-up leads to newLine only if no line of the set holds the tag, to a main line only if that line holds it, to a shadow line only if no main line does and that line has the tag, and to the end of the round only for the tag the thread is evicting |
| `CacheRounds.WaitsExactly` | soft_multi_node/src/Cache.cpp:38-398 | at the end of a round a thread with a pending eviction waits for its answer if and only if in this round it neither gave its tag to a line of the set nor was served without a request; otherwise it returns if it was served and begins the next round if not |
| `CacheRounds.NeverLocksOwn` | soft_multi_node/src/Cache.cpp:76-91 | a thread never tries to lock, for an access, the line whose eviction it awaits and whose lock it holds |
| `CacheGrants.AsksExactly` | soft_multi_node/src/Cache.cpp:118-329 | a thread comes to own a line, and asks the directory, exactly with the request that its access and the status of the line it holds call for |
| `CacheGrants.AnswerLeaves` | soft_multi_node/src/Cache.cpp:696-991 | the owner leaves its line by the answers taken since its request: SHARED after a granted read miss, MODIFIED after a granted write miss or upgrade, back where it was after a refusal, INVALID if an agent raised the flag, which it did after BITMAP_CHECK_FAIL; it goes to touch the line if and only if it was granted and not flagged |
| `CacheGrants.TakesMessage` | soft_multi_node/src/Cache.cpp:703-760 | an owner takes a message for its line exactly if its handler knows it, puts one aside exactly if it is for the line it is evicting, and is lost on any other |
| `CacheSolo.SoloAccess` | soft_multi_node/src/Cache.cpp:38-530 | from a calm set, with requests granted, an undisturbed access returns with success; the tag is then in a main line whose status allows the access, in the line that held it if one did, in a free line if one was free, and no other line has changed |
| `CacheTouch.TouchesLocked` | soft_multi_node/src/Cache.cpp:80-393 | a thread touches the bytes of a line only under its lock: as a reader for reads and for any access to a shadow line, as the only holder for writes to a main line |
| `CacheTouch.WriteExcludes` | soft_multi_node/src/Cache.cpp:232-393 | two threads touch one line at a time only if both share its lock, so a write to a main line excludes every other access to the line |
| `CacheTouch.ShadowLetsIn` | soft_multi_node/src/Cache.cpp:236-243 | at a shadow line a second thread is let in while the first still touches the bytes, also when both write |
| `CacheTouch.WaitsOnlyFor` | soft_multi_node/src/Cache.cpp:38-991 | in every reachable state a thread can move if and only if it does not wait for a message or call that is not there, is not kept out of a lock that another holds, and is not lost in a failed assert, an endless loop or an empty pop |
| `CacheTheorems.NoLostInvalidation` | soft_multi_node/src/CacheAgent.cpp:41-112 | after an agent finished a WRITE_* message for a tag, no line with that tag is SHARED or MODIFIED until the node sends a miss for it |
| `CacheTheorems.NoLostDowngrade` | soft_multi_node/src/CacheAgent.cpp:41-112 | after an agent finished READ_MISS_DIRTY for a tag, the tag is not MODIFIED until the node sends a write request for it |
| `CacheAgents.AgentChanges` | soft_multi_node/src/CacheAgent.cpp:41-112 | an agent changes only the one line that holds the tag of its message, and only by the table of its message: READ_MISS_DIRTY takes MODIFIED to SHARED and TO_PRESERVED to TO_SHARED, the others take the status they are sent for to INVALID and raise the flag of a line in transition; nothing else; the handler then ends |
| `CacheAgents.WorksOnLast` | soft_multi_node/src/CacheAgent.cpp:12-41 | the message an agent works on is the one it took last |
| `CacheAgents.HandlerAlone` | soft_multi_node/src/CacheAgent.cpp:41-112 | an undisturbed handler ends, with its answer, exactly on the words its message is for or on PRESERVED; on any other word it loads again with the line unchanged |
| `CacheAgents.LoadsAgain` | soft_multi_node/src/CacheAgent.cpp:41-112 | a failed compare-and-swap leads back to the load |
| `CacheAgents.FindsAlone` | soft_multi_node/src/Cache.cpp:499-530 | an agent's undisturbed look-up ends within 2 * width + 3 steps at the line that holds the tag, and at the end of the handler exactly when no line of the set does |
| `CacheTheorems.OneOwner` | soft_multi_node/src/Cache.cpp:275-379 | a main line is in TO_SHARED or TO_MODIFIED exactly when some thread owns it; the owner is unique and works on the line's tag |
| `CacheTheorems.OwnedLineStays` | soft_multi_node/src/Cache.cpp:442-496 | a step leaves a line in transition alone but for its flag, or is the exit compare-and-swap of its owner: never re-tagged, never evicted |
| `CacheTheorems.ExitInTwoPasses` | soft_multi_node/src/Cache.cpp:121-172 | an owner never starts a third pass of its exit loop; on the second its first compare-and-swap succeeds whatever agents do |
| `CacheMoving.OneLinePerBuffer` | soft_multi_node/src/Cache.cpp:463-496 | two lines in use hold the same buffer if and only if they are the two lines of a move |
| `CacheMoving.BufferInOnePlace` | soft_multi_node/src/Cache.cpp:463-496 | every buffer dealt out at start is always stored somewhere, and in one place: one stack position, one main line or one shadow line; in two only as the two lines of a move |
| `CacheTheorems.NeverEmptyPop` | soft_multi_node/src/Cache.cpp:463-496 | a thread that starts with at least twice as many buffers as there are main slots never pops an empty stack |
| `CacheBuffers.LeastBuffers` | soft_multi_node/src/Cache.cpp:463-496 | a number of buffers to start with keeps every thread of every run from popping an empty stack if and only if it is at least twice the number of main slots, in a cache of any size |
| `CacheRefused.RefusedEvictionHangs` | soft_multi_node/src/Cache.cpp:546-695 | from a refused eviction on the thread undoes it or evicts again until it loads INVALID; it gets out if and only if it loads INVALID; it waits for its own lock if and only if its compare-and-swap succeeds; it is caught in the undo loop if and only if its EVICT_SHARED is refused with the line in TO_SHARED, or an agent takes the line there while it is being undone |
| `CacheRefused.RefusalEnds` | soft_multi_node/src/Cache.cpp:591-643 | one of the three happens within seventeen turns of the thread, which can move until then |
| `CacheRefused.LostForEver` | soft_multi_node/src/Cache.cpp:572-643 | both losses are for ever: the waiting thread never moves again, the other only goes round its loop |
| `CacheAnswers.GivesBackOnly` | soft_multi_node/src/Cache.cpp:606-689 | the buffer of an evicted line is given back only after an acknowledgement for that line, or after BITMAP_CHECK_FAIL for it once the flag has been seen raised |
| `CacheAnswers.AnswerLeads` | soft_multi_node/src/Cache.cpp:600-689 | an answer in wait_evict fails an assert exactly if it is for another line or of no type that answers an eviction; it begins the undoing exactly if it is a refusal |
| `CacheAnswers.UndoRestores` | soft_multi_node/src/Cache.cpp:613-643 | an undone eviction leaves the line INVALID if it was flagged, SHARED if an agent took it to TO_SHARED, else in the status it was evicted in, and starts again |
| `CacheAnswers.EvictsAs` | soft_multi_node/src/Cache.cpp:546-590 | a line goes to TO_PRESERVED only from SHARED or MODIFIED, by the thread whose shadow line it is |
| `CacheAnswers.KnowsKind` | soft_multi_node/src/Cache.cpp:571-581 | while the answer is outstanding the thread knows whether it evicted the line as MODIFIED |
| `CacheTouch.MarksAlone` | soft_multi_node/src/Cache.cpp:556-572 | start_evict, undisturbed from any point of its loop on, has within five steps marked the line by the status it has, or found it INVALID |
| `CacheUndo.UndoCanEnd` | soft_multi_node/src/Cache.cpp:616-640 | some compare-and-swap of the undo loop expects the present word of the line, unless an EVICT_SHARED is undone and the line is TO_SHARED |
| `CacheWitness.RefusalLosesThread` | soft_multi_node/src/Cache.cpp:616-643 | a run from the start in which a refused thread ends waiting for its own lock |
| `CacheWitness.RefusalSpinsThread` | soft_multi_node/src/Cache.cpp:616-624 | a run from the start, with one agent, in which a refused thread ends in the undo loop for ever |
| `CacheTheorems.StaysBlocked` | soft_multi_node/src/Cache.cpp:572-692 | a retried eviction waits for the line lock that its own thread holds, in every later state |
| `CacheTheorems.NeverSentTwice` | soft_multi_node/src/Cache.cpp:546-590 | a retried eviction message is never sent |
| `CacheLines.Cache.InitLine` | soft_multi_node/src/Cache.cpp:10-37 | buffers go round the threads, so every stack gets its share and every buffer one place; every line ends PRESERVED, without flag and buffer |
| `CacheLines.Cache.DealBuffers` | soft_multi_node/src/Cache.cpp:12-16 | the dealing loop: who holds which buffer, and that stacks differ by at most one |
| `CacheLines.Cache.ResetLines` | soft_multi_node/src/Cache.cpp:21-36 | the two nested loops reset every main and shadow line |
| `CacheLines.StartsRuns` | soft_multi_node/src/Cache.cpp:10-37 | what initLine leaves is an initial state of the runs that all cache theorems are about |
| `CacheLines.EnoughForAll` | soft_multi_node/src/Cache.cpp:12-16 | 2 * slots * threads buffers give every thread the number that `NeverEmptyPop` asks for |
| `CacheSingle.NoBadReply` | soft_multi_node/src/Cache.cpp:696-991 | with one application thread, a reply the directory may give is never one that a handler rejects |
| `CacheSingle.OneEvictionPending` | soft_multi_node/src/Cache.cpp:546-695 | with one application thread at most one shadow slot is in use |
| `CacheSingle.PendingTagDiffers` | soft_multi_node/src/Cache.cpp:546-695 | the tag of a pending eviction differs from that of the outstanding miss |
| `CacheSingle.StashedOnce` | soft_multi_node/src/Cache.cpp:696-780 | an eviction reply that arrives during a miss is stashed over nothing, is that of the pending eviction, and settles the debt |
| `CacheSingle.NothingLeftOver` | soft_multi_node/src/Cache.cpp:591-695 | when readLine or writeLine has returned, all shadow slots are PRESERVED, nothing is stashed and no reply is owed |
| `CacheReplies.EitherOrder` | soft_multi_node/src/Cache.cpp:781-887 | over whole runs: the data or the aggregated acknowledgement of a write miss ends the wait, with success, if and only if with it both have been taken since the request, in whichever order; otherwise the thread waits on |
| `CacheReplies.StashTaken` | soft_multi_node/src/Cache.cpp:591-606 | a reply put aside is taken from the stash before the access returns, and nothing else happens to the stash until then |
| `CacheReplies.TakenWasStashed` | soft_multi_node/src/Cache.cpp:591-606 | what is taken from the stash was put aside since the stash was last used: each reply is taken once |
| `WrLock.WordMeans` | soft_multi_node/include/WRLock.h:14-64 | with fewer than 32768 readers the word is 1 exactly with one writer, else twice the number of readers |
| `WrLock.WriterAlone` | soft_multi_node/include/WRLock.h:14-64 | a writer excludes every other writer and every reader |
| `WrLock.StepMeans` | soft_multi_node/include/WRLock.h:32-43 | a step keeps the meaning of the word if and only if it does not let in the 32768th reader |
| `WrLock.OneTooMany` | soft_multi_node/include/WRLock.h:32-43 | with more than 32768 threads, a run from the start in which 32768 readers get in and a writer beside them |
| `WrLock.ExcludesExactly` | soft_multi_node/include/WRLock.h:14-64 | the lock excludes in every run of n threads if and only if n is at most 32768 |
| `WrLock.CallReturns` | soft_multi_node/include/WRLock.h:14-64 | a lock operation ends with its thread a holder of the kind asked for; only one that tries once may end without, and only on a word that forbids it |
| `WrLock.TakesAlone` | soft_multi_node/include/WRLock.h:14-64 | undisturbed, it gets the lock if and only if the word allows it, and else leaves the word |
| `WrLock.FreesAlone` | soft_multi_node/include/WRLock.h:26-64 | an undisturbed unlock takes exactly its thread out of the word |
| `FreeList.OnListOnce` | soft_multi_node/include/concurrentqueue/concurrentqueue.h:959-1032 | the chain from the head holds each listed node exactly once; try_get's assert never fails |
| `FreeList.LinkFrozen` | soft_multi_node/include/concurrentqueue/concurrentqueue.h:983-1008 | a node's link does not change while any getter refers to it |
| `FreeList.OneGetterPerAdd` | soft_multi_node/include/concurrentqueue/concurrentqueue.h:983-1032 | between two hand-outs of a node there is an add of it (no ABA) |
| `FreeList.NoneLost` | soft_multi_node/include/concurrentqueue/concurrentqueue.h:974-1032 | with no call under way every node is the client's, or on the list with reference count 1 |
| `FreeList.NullOnlyIfEmpty` | soft_multi_node/include/concurrentqueue/concurrentqueue.h:983-1008 | try_get returns a node that is then the client's, or null; null only if the head was null at a look of this call |
| `FreeList.GetAlone` | soft_multi_node/include/concurrentqueue/concurrentqueue.h:983-1008 | an undisturbed try_get with no call under way returns the first node of the list, which becomes the client's without references, and null if and only if the list is empty |
| `FreeList.AddAlone` | soft_multi_node/include/concurrentqueue/concurrentqueue.h:974-982 | an undisturbed add with no call under way puts the node in front of the list |
| `FreeListSolo.NobodyBlocks` | soft_multi_node/include/concurrentqueue/concurrentqueue.h:974-1032 | from every reachable state a thread that is left alone ends its call within 29 steps, whatever unfinished calls others have left behind |
| `FreeList.StepKeeps` | soft_multi_node/include/concurrentqueue/concurrentqueue.h:959-1032 | every atomic step of add, try_get and add_knowing_refcount_is_zero keeps the invariant |
| `QueueTheorems.NeverPastTail` | soft_multi_node/include/concurrentqueue/concurrentqueue.h:1524-1600 | headIndex never passes tailIndex, whatever stale counts dequeuers decide with |
| `QueueTheorems.RightElement` | soft_multi_node/include/concurrentqueue/concurrentqueue.h:1328-1374 | the dequeuer of index k finds the block of k and gets the k-th enqueued value, through block reuse, insertion and growth of the index |
| `QueueTheorems.TakenOnce` | soft_multi_node/include/concurrentqueue/concurrentqueue.h:1333-1374 | no index is taken by two dequeuers |
| `QueueTheorems.NeverFails` | soft_multi_node/include/concurrentqueue/concurrentqueue.h:1259-1374 | no assert fails; no slot is read before it is filled or after it is emptied; no index entry is read before it is written |
| `QueueTheorems.Settled` | soft_multi_node/include/concurrentqueue/concurrentqueue.h:1333-1374 | with no dequeue under way the optimistic count is head plus overcommit and everything below head is gone |
| `QueueSolo.SoloDequeue` | soft_multi_node/include/concurrentqueue/concurrentqueue.h:1333-1374 | with no other dequeue under way an undisturbed dequeue ends, delivers the oldest elements in order, as many as it asked for or as there are, none exactly on an empty queue, and frees their slots |
| `QueueSolo.DequeueEnds` | soft_multi_node/include/concurrentqueue/concurrentqueue.h:1339-1374 | from every reachable state an undisturbed dequeuer that has claimed its indices ends and delivers the rest of its range in order |
| `QueueCalls.DeliversAccepted` | soft_multi_node/include/concurrentqueue/concurrentqueue.h:1260-1374 | the k-th element that dequeuers get is the argument of the k-th enqueue call that published one |
| `QueueCalls.PublishesOnce` | soft_multi_node/include/concurrentqueue/concurrentqueue.h:1260-1330 | an element is published only by the last step of an enqueue call |
| `QueueCalls.RefusedOnly` | soft_multi_node/include/concurrentqueue/concurrentqueue.h:1274-1296 | enqueue is refused only between two blocks, and only for want of memory for an index that is full or for a block, or near 2^63 elements; it then changes nothing that others see |
| `QueueCalls.ReusesExactly` | soft_multi_node/include/concurrentqueue/concurrentqueue.h:1265-1270 | the producer takes the oldest block again if and only if all its elements have been taken and freed |
| `QueueCalls.SoloEnqueue` | soft_multi_node/include/concurrentqueue/concurrentqueue.h:1260-1330 | an undisturbed enqueue publishes its argument, unless it needs a block and gets no memory, and then nothing changes; it asks for a block exactly between blocks with the oldest still in use |
| `QueueCalls.NothingOnlyIfClaimed` | soft_multi_node/include/concurrentqueue/concurrentqueue.h:1333-1377 | a dequeue gets nothing only if by its own loads the counts handed out, less those given back, were as many as the elements published |
| `QueueTheorems.FewStaysApart` | soft_multi_node/include/concurrentqueue/concurrentqueue.h:297-302 | the premise of the run theorems, that compared words are less than 2^63 apart, holds until nearly 2^63 operations |
| `QueueTheorems.StepInv` | soft_multi_node/include/concurrentqueue/concurrentqueue.h:1259-1374 | every step of producer and dequeuers keeps the invariant |
| `QueueState.CircularLessExact` | soft_multi_node/include/concurrentqueue/concurrentqueue.h:297-302 | circular_less_than decides a < b exactly for numbers in -2^63 < a - b <= 2^63 |
| `QueueClaim.HeadBelowTail` | soft_multi_node/include/concurrentqueue/concurrentqueue.h:1333-1345 | the counting argument: claims decided never exceed elements published |
| `QueueIndex.CopyEntries` | soft_multi_node/include/concurrentqueue/concurrentqueue.h:1610-1638 | the copying loop of new_block_index: the new array starts with the used entries, oldest first |
| `QueueIndex.CopyIsGrown` | soft_multi_node/include/concurrentqueue/concurrentqueue.h:1610-1638 | the array that the loop returns is the index that the growth step of the runs installs, and its entries are those of the last blocks in order |
| `BTree.Tree.InsertUnique` | soft_multi_node/lib/parallel_hashmap/btree.h:2526-2548 | inserts exactly when the key is absent; the in-order keys become the same sorted sequence with the key, or stay; `Valid` keeps links, depth, sizes and rightmost leaf |
| `BTree.Tree.Emplace` | soft_multi_node/lib/parallel_hashmap/btree.h:3097-3127 | room is made and the key put where the search found its place; one more key |
| `BTree.Tree.MakeRoom` | soft_multi_node/lib/parallel_hashmap/btree.h:3100-3121 | after growing the root leaf, rebalancing or splitting, the place still stands for the same position in key order |
| `BTree.Tree.RebalanceOrSplit` | soft_multi_node/lib/parallel_hashmap/btree.h:2896-2994 | ends with room in the leaf, the same place in key order, and a well-formed tree, through left, right, split and root growth |
| `BTree.Tree.ShareWithLeft` | soft_multi_node/lib/parallel_hashmap/btree.h:2905-2932 | moves keys if and only if there is a left sibling with free slots and moving leaves room at the insertion place, as many as stated; else changes nothing |
| `BTree.Tree.ShareWithRight` | soft_multi_node/lib/parallel_hashmap/btree.h:2933-2957 | the same for the right sibling |
| `BTree.Tree.GrowRoot` | soft_multi_node/lib/parallel_hashmap/btree.h:2968-2976 | a full root gets a parent: one more level, the same keys |
| `BTree.Tree.SplitUnder` | soft_multi_node/lib/parallel_hashmap/btree.h:2978-2993 | a split below a parent with room |
| `BTree.Tree.RoomAbove` | soft_multi_node/lib/parallel_hashmap/btree.h:2960-2967 | the recursive call: the parent has room and the node is still well linked |
| `BTree.Tree.GrowLeaf` | soft_multi_node/lib/parallel_hashmap/btree.h:3103-3117 | a small root leaf is replaced by a larger one with the same keys |
| `BTree.Tree.Plant` | soft_multi_node/lib/parallel_hashmap/btree.h:2526-2530 | the first leaf |
| `BTree.Tree.Locate` | soft_multi_node/lib/parallel_hashmap/btree.h:3137-3153 | the descent ends in the leaf and position where the key belongs |
| `BTree.Tree.Last` | soft_multi_node/lib/parallel_hashmap/btree.h:3082-3094 | internal_last is the next key in order |
| `BTree.Tree.LowerBound` | soft_multi_node/lib/parallel_hashmap/btree.h:3176-3187 | the first key that is not less, and whether it is the key |
| `BTree.LinearSearch` | soft_multi_node/lib/parallel_hashmap/btree.h:1261-1275 | finds the first slot that is not less |
| `BTree.BinarySearch` | soft_multi_node/lib/parallel_hashmap/btree.h:1294-1310 | the same, by bisection |
| `BTree.EmplaceValue` | soft_multi_node/lib/parallel_hashmap/btree.h:2127-2152 | slots shift up by one |
| `BTreeNodes.RightToLeft` | soft_multi_node/lib/parallel_hashmap/btree.h:2172-2214 | the loops of rebalance_right_to_left compute `Share`: keys through the separator, children with their links |
| `BTreeNodes.LeftToRight` | soft_multi_node/lib/parallel_hashmap/btree.h:2216-2295 | the loops of rebalance_left_to_right compute `Share` in the other direction |
| `BTreeNodes.SplitNode` | soft_multi_node/lib/parallel_hashmap/btree.h:2297-2335 | the loops of split compute `Split`, with the cut depending on the insertion position |
| `BTreeNodes.TakeFirst` | soft_multi_node/lib/parallel_hashmap/btree.h:2198-2202 | children handed to the left get parent and position |
| `BTreeNodes.ShiftDown` | soft_multi_node/lib/parallel_hashmap/btree.h:2203-2207 | the remaining children move down |
| `BTreeNodes.ShiftUp` | soft_multi_node/lib/parallel_hashmap/btree.h:2280-2284 | children move up to make room |
| `BTreeNodes.GiveLast` | soft_multi_node/lib/parallel_hashmap/btree.h:2285-2288 | children handed to the right get parent and position |
| `BTreeMoves.ShareShape` | soft_multi_node/lib/parallel_hashmap/btree.h:2172-2295 | moving keys between siblings keeps equal depth and correct parent and position links |
| `BTreeMoves.SplitShape` | soft_multi_node/lib/parallel_hashmap/btree.h:2297-2335 | a split keeps them |
| `BTreeMoves.TallerShape` | soft_multi_node/lib/parallel_hashmap/btree.h:2968-2976 | a new root keeps them |
| `BTreeOrder.ShareOrder` | soft_multi_node/lib/parallel_hashmap/btree.h:2172-2295 | moving keys between siblings keeps the in-order keys of the whole tree |
| `BTreeOrder.SplitOrder` | soft_multi_node/lib/parallel_hashmap/btree.h:2297-2335 | a split keeps them |
| `BTreeOrder.TallerOrder` | soft_multi_node/lib/parallel_hashmap/btree.h:2968-2976 | a new root keeps them |
| `BTreeInsert.SharePlace` | soft_multi_node/lib/parallel_hashmap/btree.h:2896-2957 | the place of insertion, adjusted by rebalancing, still inserts at the same point of the key order |
| `BTreeInsert.SplitPlace` | soft_multi_node/lib/parallel_hashmap/btree.h:2978-2993 | the same for a split |
| `BTreeSearch.PutInPlace` | soft_multi_node/lib/parallel_hashmap/btree.h:3122-3127 | a key put where the search ends is sorted insertion into the in-order keys |
| `BTreeSearch.NextIsNotLess` | soft_multi_node/lib/parallel_hashmap/btree.h:3082-3094 | where the search ends, the next key in order is the first that is not less |
| `BTreeSearch.InsSorted` | soft_multi_node/lib/parallel_hashmap/btree.h:2526-2548 | sorted insertion of a new key stays strictly sorted |
| `BTreeSearch.InsAdds` | soft_multi_node/lib/parallel_hashmap/btree.h:2526-2548 | it adds exactly that key |
| `BTreeSteps.ShareEdges` | soft_multi_node/lib/parallel_hashmap/btree.h:2896-2957 | rebalancing keeps which leaves are rightmost and leftmost |
| `BTreeRoom.SplitRoom` | soft_multi_node/lib/parallel_hashmap/btree.h:2978-2993 | a split under a parent with room makes room and keeps everything below |
| `RadixArray.GAddrArray.Init` | soft_multi_node/database/storage/GAddrArray.h:12-43 | true if and only if the allocator answers every request the layers need; then every layer is built, and memory allocated before is untouched |
| `RadixArray.GAddrArray.SetSizes` | soft_multi_node/database/storage/GAddrArray.h:14-27 | the fewest layers that reach the size, and the sizes of the layers |
| `RadixArray.GAddrArray.BuildLayers` | soft_multi_node/database/storage/GAddrArray.h:32-41 | the outer loop: every layer below the root is built and linked |
| `RadixArray.GAddrArray.AddSegment` | soft_multi_node/database/storage/GAddrArray.h:33-40 | one more segment, linked from its parent, apart from all others |
| `RadixArray.GAddrArray.LocateParent` | soft_multi_node/database/storage/GAddrArray.h:80-94 | returns the segment built for (layer - 1, pos / 1024); the root for layers 0 and 1 |
| `RadixArray.GAddrArray.GetElement` | soft_multi_node/database/storage/GAddrArray.h:44-49 | returns the slot offset % 1024 of the last-layer segment offset / 1024 |
| `RadixArray.PathTo` | soft_multi_node/database/storage/GAddrArray.h:82-86 | the path holds the index of every node on the way |
| `RadixArray.ElementsApart` | soft_multi_node/database/storage/GAddrArray.h:44-49 | different offsets have slots that do not overlap |
| `RadixArray.ElementInside` | soft_multi_node/database/storage/GAddrArray.h:44-49 | a slot lies inside its segment; without layers exactly when elements are at most 10240 bytes |
| `RadixArray.LargeElement` | soft_multi_node/database/storage/GAddrArray.h:14-31 | for example an array of one element of 10241 bytes: it does not fit |
| `RadixArray.GAddrArray.Serialize` | soft_multi_node/database/storage/GAddrArray.h:50-61 | writes exactly the header bytes |
| `RadixArray.GAddrArray.Deserialize` | soft_multi_node/database/storage/GAddrArray.h:62-73 | reads every field back |
| `HashIndex.HashIndex.Init` | soft_multi_node/database/storage/HashIndex.h:14-24 | answers if and only if the allocator answers every request; then an empty index in memory, every bucket with an empty header of its own |
| `HashIndex.HashIndex.InsertRecord` | soft_multi_node/database/storage/HashIndex.h:25-37 | answers if and only if the allocator answers what the insertion needs (nothing when the key's newest items have a free slot); true exactly for a new key; the multimap gains the pointer at the end of the key's list; the memory invariant is kept |
| `HashIndex.HashIndex.SearchRecord` | soft_multi_node/database/storage/HashIndex.h:38-52 | null for an absent key, else pointer r = 2 * floor((n - 1) / 2) + 1 of the n inserted |
| `HashIndex.FoundNext` | soft_multi_node/database/storage/HashIndex.h:38-52 | helper: only every second insertion of a key changes what a search finds |
| `HashIndex.FoundIsLatest` | soft_multi_node/database/storage/HashIndex.h:38-52 | helper: a search finds the latest pointer exactly after an odd number of insertions |
| `HashIndex.InsertedOk` | soft_multi_node/database/storage/HashIndex.h:25-37 | an insertion in one bucket keeps all chains, all other keys' pointers and every key in its bucket |
| `HashIndex.HashIndex.Serialize` | soft_multi_node/database/storage/HashIndex.h:53-60 | writes exactly the bytes of array header and counts |
| `HashIndex.HashIndex.Deserialize` | soft_multi_node/database/storage/HashIndex.h:61-68 | reads them back |
| `HashIndex.HashIndex.Adopt` | soft_multi_node/database/storage/HashIndex.h:61-68 | an index deserialized from where another was serialized stands for the same multimap |
| `HashBuckets.BucketHeader.InsertNode` | soft_multi_node/database/storage/HashIndexHelper.h:71-124 | one node per key in an acyclic chain; answers if and only if the allocator does; true exactly for a new key; its asserts hold |
| `HashBuckets.BucketHeader.AddPtr` | soft_multi_node/database/storage/HashIndexHelper.h:84-99 | a known key: the free slot of its newest items, or new items in front |
| `HashBuckets.BucketHeader.AddNode` | soft_multi_node/database/storage/HashIndexHelper.h:100-123 | a new key: items, node, and the link from the last node or the head |
| `HashBuckets.BucketHeader.Walk` | soft_multi_node/database/storage/HashIndexHelper.h:73-83 | the loop stops at the key's node or at null after all keys |
| `HashBuckets.BucketHeader.SearchNode` | soft_multi_node/database/storage/HashIndexHelper.h:125-141 | finds exactly the keys of the bucket, and their items |
| `HashBuckets.ItemsIter.GetNext` | soft_multi_node/database/storage/HashIndexHelper.h:32-47 | yields the rest one by one, null after the last; its assert holds |
| `HashBuckets.ItemsIter.constructor` | soft_multi_node/database/storage/HashIndexHelper.h:29-31 | what will be yielded are all pointers of the key |
| `HashChains.VisitsAll` | soft_multi_node/database/storage/HashIndexHelper.h:28-51 | the iterator yields every inserted pointer as often as it was inserted |
| `HashChains.AddToHead` | soft_multi_node/database/storage/HashIndexHelper.h:85-88 | the structure change refines appending the pointer: second slot |
| `HashChains.AddChunk` | soft_multi_node/database/storage/HashIndexHelper.h:90-97 | the same: new items in front |
| `HashChains.AddLast` | soft_multi_node/database/storage/HashIndexHelper.h:100-117 | the same: new node behind the last |
| `HashChains.ListKept` | soft_multi_node/database/storage/HashIndexHelper.h:71-124 | pointers of other keys stay |
| `HashChains.BucketKept` | soft_multi_node/database/storage/HashIndexHelper.h:71-124 | chains of other buckets stay |
| `HashObjects.Put` | soft_multi_node/database/storage/HashIndexHelper.h:10-61 | a structure written where no other is keeps every structure and the array in memory |
| `Schemas.RecordSchema.InsertColumns` | soft_multi_node/database/storage/RecordSchema.h:26-36 | columns are placed one behind the other |
| `Schemas.PlacedApart` | soft_multi_node/database/storage/RecordSchema.h:26-36 | columns do not overlap and lie inside the record |
| `Schemas.RecordSchema.Serialize` | soft_multi_node/database/storage/RecordSchema.h:87-112 | the schema is in memory, and nothing outside GetSerializeSize changed |
| `Schemas.RecordSchema.Deserialize` | soft_multi_node/database/storage/RecordSchema.h:113-139 | every field and column is read back |
| `Schemas.SchemaUnique` | soft_multi_node/database/storage/RecordSchema.h:87-147 | memory determines the schema |
| `Catalogue.Table.Serialize` | soft_multi_node/database/storage/Table.h:63-73 | table, schema and index header lie apart within GetSerializeSize |
| `Catalogue.Table.Deserialize` | soft_multi_node/database/storage/Table.h:74-86 | everything is read back into new objects |
| `Catalogue.StorageManager.Serialize` | soft_multi_node/database/storage/StorageManager.h:38-45 | all tables are in memory, nothing outside GetSerializeSize changed |
| `Catalogue.StorageManager.Deserialize` | soft_multi_node/database/storage/StorageManager.h:46-56 | all tables are read back equal |
| `Catalogue.CatalogueUnique` | soft_multi_node/database/storage/StorageManager.h:38-59 | memory determines the whole catalogue, so reading back what was written restores it |
| `Catalogue.TablesApart` | soft_multi_node/database/storage/StorageManager.h:38-59 | the ranges of tables do not overlap and fit in GetSerializeSize |
| `LineAccess.TagExact` | soft_multi_node/include/GlobalAddress.h:14-17 | helper: getTag is equal exactly for addresses in the same line of the same node, and fits 64 bits |
| `LineAccess.Dsm.Write` | soft_multi_node/src/DSM.cpp:120-141 | exactly the given bytes change in the flat memory; pieces stay in one line each and cover the range once, in order |
| `LineAccess.Dsm.Read` | soft_multi_node/src/DSM.cpp:98-119 | returns the bytes of the flat memory, by such pieces |
| `LineAccess.ReadsWritten` | soft_multi_node/src/DSM.cpp:98-141 | helper: what was written is read back |
| `LineAccess.WroteIsStore` | soft_multi_node/src/DSM.cpp:98-141 | the lines refine the byte memory that the storage structures use |
| `Memory.AddrRoundTrip` | soft_multi_node/include/GlobalAddress.h:5-27 | the packed ten bytes of an address read back as the address |
| `Allocation.LocalAllocator.Malloc` | soft_multi_node/include/LocalAllocator.h:12-27 | the new state as a function of the old; the start is rounded up if asked; without need for a chunk the range ends inside the current one and the next starts behind it; the assert as a flag |
| `Allocation.GlobalAllocator.AllocChunk` | soft_multi_node/include/GlobalAllocator.h:17-36 | chunks are handed out in order until the region is used up, and the assert on the bitmap never fails |
| `Allocation.SecondTry` | soft_multi_node/src/Cache.cpp:1041-1043 | helper: the second try asks for another chunk exactly when rounding up a misaligned chunk leaves too little |
| `AllocationRuns.NeverOverlap` | soft_multi_node/src/Cache.cpp:1017-1051 | over all runs of all threads of all nodes, results of malloc never overlap |
| `AllocationRuns.InOwnChunk` | soft_multi_node/src/Cache.cpp:1017-1051 | each lies in one chunk that one agent gave to that thread alone, on a line if asked |
| `AllocationLimits.FailsExactly` | soft_multi_node/src/Cache.cpp:1017-1047 | for requests of at most a chunk: no assert of malloc fails in any run if and only if agent regions start on lines (or no chunk that does not is handed out) and a chunk fits between the last chunk of a node and 40 GB |
| `AllocationLimits.FullNodeFails` | soft_multi_node/include/LocalAllocator.h:25 | for example one agent with all of 40 GB: regular, and yet a call fails |
| `AllocationLimits.NullExactly` | soft_multi_node/src/DSM.cpp:77-83 | a result of malloc is the null address if and only if it is cut from chunk 0 of agent 0 of node 0 and only requests of size zero were cut from it before |
| `AllocationLimits.NullPossible` | soft_multi_node/src/DSM.cpp:77-83 | some run hands out the null address if and only if there are nodes, agents, threads and room for a chunk |
| `Semaphore.WaitersMatched` | soft_multi_node/include/concurrentqueue/lightweightsemaphore.h:198-262 | registered waiters = tokens, posted or still to post, + max(0, -m_count), timeouts included |
| `Semaphore.Conserved` | soft_multi_node/include/concurrentqueue/lightweightsemaphore.h:198-322 | initial + signalled = acquired + max(0, m_count) + tokens; so never more is acquired than was there |
| `Semaphore.NoLostWakeup` | soft_multi_node/include/concurrentqueue/lightweightsemaphore.h:219-226 | when m_count is not negative and a thread waits, a token is there or a signaller is about to post one |
| `Semaphore.ReturnsWhatItTook` | soft_multi_node/include/concurrentqueue/lightweightsemaphore.h:299-312 | a call returns what it took, at most max; a wait without timeout for more than zero takes something, unless a wait of the system fails (the assert of waitMany) |
| `Semaphore.NothingTaken` | soft_multi_node/include/concurrentqueue/lightweightsemaphore.h:198-312 | a blocking call for at least one returns nothing only after its wait of the system has given up, a non-blocking one only in a step that sees no count |
| `Semaphore.TakesAlone` | soft_multi_node/include/concurrentqueue/lightweightsemaphore.h:269-298 | on a positive count an undisturbed call takes as much of it as it asks for and is there |
| `Semaphore.RefusedAlone` | soft_multi_node/include/concurrentqueue/lightweightsemaphore.h:269-312 | without a count a non-blocking call returns nothing, a blocking one goes to spin |
| `Semaphore.ParksAlone` | soft_multi_node/include/concurrentqueue/lightweightsemaphore.h:201-211 | after its spins an undisturbed call registers as a waiter |
| `Semaphore.SignalsAlone` | soft_multi_node/include/concurrentqueue/lightweightsemaphore.h:313-322 | signal(n) adds n to the count and posts min(n, waiters) tokens |
| `SemaphoreSolo.TakesFrom` | soft_multi_node/include/concurrentqueue/lightweightsemaphore.h:198-298 | from any point before it is a waiter, an undisturbed call on a positive count takes as much as it asks for and is there |
| `SemaphoreSolo.WakesFrom` | soft_multi_node/include/concurrentqueue/lightweightsemaphore.h:211-262 | a waiter with a token at hand takes it and as much of the count as it still asks for, also one that is giving up when the count is back at zero |
| `SemaphoreSolo.GivesUpFrom` | soft_multi_node/include/concurrentqueue/lightweightsemaphore.h:219-226 | one that gives up while the count is below zero takes its registration back and returns nothing |
| `SemaphoreSolo.GoesRound` | soft_multi_node/include/concurrentqueue/lightweightsemaphore.h:219-226 | one that gives up while a token is still to be posted goes round until it is |
| `Semaphore.WaitManyOfNone` | soft_multi_node/include/concurrentqueue/lightweightsemaphore.h:299-312 | waitMany(0) returns 0, against its assert |
| `Semaphore.InVainExactly` | soft_multi_node/include/concurrentqueue/lightweightsemaphore.h:198-226 | a wait without timeout for more than zero returns 0 in some run if and only if waits of the system may fail |

## Left out

- The FPGA directory and the network: nothing is claimed about coherence between nodes. Messages to a node are arbitrary, except in `CacheSingle` and `CacheReplies`, which state the replies it admits.
- Byte contents of cache lines in the concurrent model: after the set lock is released a hit checks only the status, so contents are claimed only for the sequential `LineAccess`.
- Weak memory ordering: all step systems are sequentially consistent.
- A pop of an empty data_stack (Cache.cpp:488-490), which is undefined in the code: the thread does not move in the model. `CacheBuffers.LeastBuffers` says how many buffers rule it out, for caches whose sets have tags without end; tags are not bounded in the model.
- Semaphore.ReturnsWhatItTook: a wait without timeout may return nothing when a wait of the system fails, because the code then gives up as after a timeout.
- Evictions of several threads: with several application threads a later start_evict can overwrite a pending eviction, so pairing of evictions and replies is claimed for one thread only.
- The cache, the free list, the sub-queue, the semaphore and WRLock are values changed by steps instead of objects with atomic fields: their methods interleave, which a class whose methods run to the end would not show. Auxiliary fields (owner, location of buffers, tickets, history) are part of the states and are never read by a step that models code.
- `CacheLines.Cache` numbers buffers in the order of allocation; the allocator of huge pages is not part of this model.
- The spin loops of is_empty and reset_empty over the flags of a block are one step each; enqueue_bulk, implicit producers, the hash of producers, exceptions and element destructors that throw are not modelled. dequeue is dequeue_bulk with a maximum of one.
- QueueTheorems.FewStaysApart: runs longer than about 2^63 operations are not covered, because the code itself compares wrapped words.
- Semaphore.Conserved: the cast of the number of tokens to int and overflow of m_count are not modelled.
- The B-tree orders integer keys by `<`; slots are sequences of keys, so constructing, moving and destroying slot values, allocators, three-way comparators, hints, deletion and merging are not modelled. Nodes live in a map from identities to nodes, which stands for the heap.
- HashIndex.HashIndex.InsertRecord: record_count_ does not wrap, and the bucket lock is taken to do nothing, as RLock and WLock throw in this version. No answer (None), which it gives exactly when the allocator has none, stands for an allocator that loops forever.
- Padding bytes, and slots of Items that hold nothing yet, are zero or null; the code leaves them as they were.
- Table::Init and RegisterTables: they only combine the operations above. Record contents, key packing and hash functions are not modelled.
- LineAccess.Dsm.Write: the cache under readLine and writeLine is an ideal memory of lines there.
- LocalAllocator::free and GlobalAllocator::free_chunk, which nothing calls.
- spinlock_rw, QDMA, RPC, timers, statistics, prints, TPC-C and transactions.
