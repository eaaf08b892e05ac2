# In-place execution context, SoPointer, free list and spinlock

This project models part of the core of an agent-based simulation engine in
Dafny and proves properties about it.

- **`InPlaceExecutionContext`** is the per-thread execution context. While a
  step runs, each thread does the following through its own context:
  - It stages new simulation objects in a creation map.
  - It records removal requests.
  - It caches the result of its last neighbour search.
  - It runs the operations of one object, under the grid's lock for that
    object's box when the grid has one.

  At the end of the step, `TearDownIterationAll` merges every thread's
  staged objects into the resource manager:
  - One reservation is made per NUMA node.
  - Every thread's block is written at a prefix-sum offset.

  After that, it applies every removal request. `GetSimObject` resolves a
  uid through three tiers in order: the thread's own creation map, the
  resource manager, and then the creation maps of all contexts.
- **`SoPointer`** is a handle that holds only a uid. The largest uid stands
  for nullptr. Comparison, `operator bool` and nullptr assignment act on
  the uid alone. `DynamicCast` and the two `operator->` resolve the uid
  through the calling thread's context. The non-const `operator->` returns
  a `LockWrapper`, which takes a hold of the object's lock while it lives.
- **The free list `List`** is a singly linked list of `Node`s. It has
  `Push(head, tail)`, `Pop`, `Empty` and `PopNThreadSafe(n)`. The behaviour
  modelled is the one pinned by the memory manager's unit tests.
- **`Spinlock`** has `try_lock`, `lock` and `unlock`. The behaviour modelled
  is the one pinned by its unit test.

Files:

| file | module | what it holds |
|---|---|---|
| `sim_object.dfy` | `SimObjects` | 64-bit uids, simulation objects with their set of type names, neighbour pairs |
| `spinlock.dfy` | `Spinlocks` | `Spinlock` class and the unit-test scenario |
| `free_list.dfy` | `FreeList` | `Node`/`List` classes over a ghost `Contents` sequence and the four unit-test scenarios |
| `numa_offsets.dfy` | `NumaOffsets` | prefix-sum specification of the per-thread and per-node offsets and its tiling lemmas |
| `resource_manager.dfy` | `ResourceManagers` | the resource manager as the execution context uses it: a uid index and one slot sequence per NUMA node |
| `in_place_exec_ctxt.dfy` | `ExecutionContext` | the context class, the three-tier lookup, the neighbour-cache wrappers and the end-of-step merge |
| `so_pointer.dfy` | `SoPointers` | the `SoPointer` value, its operators, `DynamicCast`, the accessors and `LockWrapper` |

`core/resource_manager.h` is not part of this model. The resource manager
is modelled from the four calls the context makes on it:
`GrowSoContainer`, `AddNewSimObjects`, `Remove` and `GetSimObject`. Its
rows below cite those call sites. The free list's and the spinlock's
headers are not part of this model either. Those two are modelled from
their unit tests.

## Model

| member | source | states |
|---|---|---|
| `ExecutionContext.InPlaceExecutionContext.constructor` | src/core/execution_context/in_place_exec_ctxt.cc:23-24 | a new context has no staged objects, no removals, an empty neighbour cache and no locks |
| `ExecutionContext.SetupIterationAll` | src/core/execution_context/in_place_exec_ctxt.cc:32-36 | runs the whole step-end merge on what an earlier step left uncommitted, with every promise of `TearDownIterationAll`: the insertion layout, the removals after it, the resulting index, absent removed uids, no new empty slot, and every context drained |
| `ExecutionContext.TearDownIterationAll` | src/core/execution_context/in_place_exec_ctxt.cc:38-79 | every thread's objects are written at node offset + thread offset on its NUMA node, and the slots already in use are untouched; the removals come after all insertions, so an object staged and removed in the same step is gone; every removed uid is absent from the index and from every slot; a store with no empty slot keeps having none; every creation map and removal list is cleared |
| `ExecutionContext.ComputeThreadOffsets` | src/core/execution_context/in_place_exec_ctxt.cc:44-49 | each thread's offset is the number of objects staged by earlier threads on the same NUMA node; each node's count is the total staged on that node |
| `NumaOffsets.ThreadRangesDisjoint` | src/core/execution_context/in_place_exec_ctxt.cc:44-49 | two threads on the same node get non-overlapping ranges, the earlier thread's range first |
| `NumaOffsets.ThreadRangeInNode` | src/core/execution_context/in_place_exec_ctxt.cc:44-49 | every thread's range lies inside the space counted for its node |
| `NumaOffsets.CoveringThread` | src/core/execution_context/in_place_exec_ctxt.cc:44-49 | every position below a node's total belongs to the range of some thread on that node, so the ranges leave no gap |
| `NumaOffsets.NodeTotalMonotone` | src/core/execution_context/in_place_exec_ctxt.cc:47-48 | a node's running count never decreases as threads are added |
| `NumaOffsets.NodeTotalsAddUp` | src/core/execution_context/in_place_exec_ctxt.cc:44-49 | the per-node totals add up to the number of objects staged by all threads |
| `NumaOffsets.AllNodesStep` | src/core/execution_context/in_place_exec_ctxt.cc:47-48 | adding one thread adds its count to exactly one node's total |
| `NumaOffsets.AllNodesZero` | src/core/execution_context/in_place_exec_ctxt.cc:41 | before any thread is counted, every node's total is zero |
| `ExecutionContext.ReserveAll` | src/core/execution_context/in_place_exec_ctxt.cc:51-56 | each node grows by exactly its count of new objects, in empty slots; the returned offset of a node is its previous size; the index is unchanged |
| `ResourceManagers.ResourceManager.GrowSoContainer` | src/core/execution_context/in_place_exec_ctxt.cc:55 | appends `count` empty slots to node `n` only, and returns where they start |
| `ResourceManagers.Reserved` | src/core/execution_context/in_place_exec_ctxt.cc:55 | a reservation of `count` slots holds `count` empty slots |
| `ExecutionContext.CommitNewObjects` | src/core/execution_context/in_place_exec_ctxt.cc:44-66 | the whole insertion phase: the offsets match their prefix-sum specification, each node's old slots are kept, every new slot is filled, each thread's map sits in its block, the index gains every staged object, and every creation map is cleared |
| `ExecutionContext.CommitAll` | src/core/execution_context/in_place_exec_ctxt.cc:58-66 | after the loop over threads, every thread's block holds its map, the slots before the reservation are unchanged and the index is the old index merged with all maps |
| `ExecutionContext.CommitThread` | src/core/execution_context/in_place_exec_ctxt.cc:61-64 | one thread's commit extends the loop invariant from the first `i` threads to the first `i+1` |
| `ExecutionContext.ClearStaged` | src/core/execution_context/in_place_exec_ctxt.cc:65 | every context's creation map is empty afterwards |
| `ExecutionContext.CommitLayout` | src/core/execution_context/in_place_exec_ctxt.cc:44-66 | the finished commit loop, with the offsets and reservations it was given, yields the layout the insertion phase promises |
| `ExecutionContext.MergeLayoutFilled` | src/core/execution_context/in_place_exec_ctxt.cc:51-66 | if no node had an empty slot before the insertions, none has one after them |
| `ResourceManagers.ResourceManager.AddNewSimObjects` | src/core/execution_context/in_place_exec_ctxt.cc:64 | writes the map's objects, each exactly once and in some order, into the slots from `offset` on node `nid`; leaves every other slot and node alone; adds the map to the index |
| `ResourceManagers.FillBlock` | src/core/execution_context/in_place_exec_ctxt.cc:64 | the filled block holds exactly the map's objects, and the slots outside the block are unchanged |
| `ResourceManagers.EnumerateKeys` | src/core/execution_context/in_place_exec_ctxt.cc:64 | lists every key of the map exactly once |
| `ResourceManagers.BlockFromOrder` | src/core/execution_context/in_place_exec_ctxt.cc:64 | writing the map's values in the order of an enumeration of its keys places each object in the block |
| `ResourceManagers.BlockHoldsFrame` | src/core/execution_context/in_place_exec_ctxt.cc:58-66 | a block stays in place when only slots after it change |
| `ExecutionContext.ApplyRemovals` | src/core/execution_context/in_place_exec_ctxt.cc:68-78 | every uid in every context's removal list leaves the index and every slot, nothing else leaves, and every removal list is cleared |
| `ExecutionContext.RemoveAll` | src/core/execution_context/in_place_exec_ctxt.cc:74-76 | removing a list of uids one by one removes exactly the set of them from the index and from the slots |
| `ResourceManagers.ResourceManager.Remove` | src/core/execution_context/in_place_exec_ctxt.cc:75 | the uid leaves the index and every node's slots; other objects keep their slots; a uid that was absent stays absent |
| `ResourceManagers.Without` | src/core/execution_context/in_place_exec_ctxt.cc:75 | removing one uid from a slot sequence keeps exactly the slots that do not hold it |
| `ResourceManagers.WithoutConcat` | src/core/execution_context/in_place_exec_ctxt.cc:75 | removal works slot by slot: removing from a concatenation is removing from each part |
| `ResourceManagers.PurgedWithout` | src/core/execution_context/in_place_exec_ctxt.cc:74-76 | removing one more uid after a set of them is removing the enlarged set |
| `ResourceManagers.PurgedTwice` | src/core/execution_context/in_place_exec_ctxt.cc:69-78 | removing one set and then another is removing their union, so the order of the contexts does not matter |
| `ResourceManagers.PurgedConcat` | src/core/execution_context/in_place_exec_ctxt.cc:69-78 | removing a set from a concatenation is removing it from each part |
| `ResourceManagers.PurgedSound` | src/core/execution_context/in_place_exec_ctxt.cc:69-78 | every slot left after a removal holds none of the removed uids and was there before |
| `ResourceManagers.PurgedNothing` | src/core/execution_context/in_place_exec_ctxt.cc:69-78 | removing no uids changes nothing |
| `ResourceManagers.PurgedFromFacts` | src/core/execution_context/in_place_exec_ctxt.cc:68-78 | after the removals every removed uid is absent from every node, and a store that had no empty slot still has none |
| `ExecutionContext.PurgedFromNothing` | src/core/execution_context/in_place_exec_ctxt.cc:68-78 | removing nothing from every node changes no node |
| `ExecutionContext.PurgedFromTwice` | src/core/execution_context/in_place_exec_ctxt.cc:69-78 | two rounds of removal over all nodes are one round with the union |
| `ExecutionContext.MergeStagedKeys` | src/core/execution_context/in_place_exec_ctxt.cc:58-66 | after the merge a uid is in the index exactly when it was there before or some thread staged it |
| `ExecutionContext.MergeStagedLatest` | src/core/execution_context/in_place_exec_ctxt.cc:58-66 | in the model's sequential merge order, a uid staged by several threads maps to the object of the last of them; the source leaves that winner unspecified |
| `ExecutionContext.MergeStagedUntouched` | src/core/execution_context/in_place_exec_ctxt.cc:58-66 | an indexed uid that no thread staged keeps its object |
| `ExecutionContext.RemovedUidsIff` | src/core/execution_context/in_place_exec_ctxt.cc:69-78 | a uid is removed exactly when some context's list holds it |
| `ExecutionContext.StagedThenRemoved` | src/core/execution_context/in_place_exec_ctxt.cc:71-73 | an object staged in this step is absent afterwards exactly when some context asked to remove it; removals win over insertions |
| `ExecutionContext.RemovalIdempotent` | src/core/execution_context/in_place_exec_ctxt.cc:74-76 | asking again, from any context, to remove a uid that some context already listed leaves the removed set unchanged, and so the index and the containers after the merge |
| `ExecutionContext.RemovalIdempotentIndex` | src/core/execution_context/in_place_exec_ctxt.cc:74-76 | the index after the merge is the same with or without the repeated removal request |
| `ExecutionContext.InPlaceExecutionContext.Execute` | src/core/execution_context/in_place_exec_ctxt.cc:81-98 | the neighbour cache is cleared and the operations are applied in list order; a lock given by the grid must be free on entry and is free again afterwards |
| `ExecutionContext.ApplyOperations` | src/core/execution_context/in_place_exec_ctxt.cc:89-91 | the loop applies the operations to the object in order, and runs only while a given box lock is held |
| `ExecutionContext.ApplyAllConcat` | src/core/execution_context/in_place_exec_ctxt.cc:89-96 | running two operation lists one after the other is running their concatenation |
| `ExecutionContext.ApplyAllFirst` | src/core/execution_context/in_place_exec_ctxt.cc:89-96 | the first operation is applied first |
| `ExecutionContext.InPlaceExecutionContext.PushBack` | src/core/execution_context/in_place_exec_ctxt.cc:100-102 | stages the object under its own uid, replacing an earlier one with that uid, and keeps the map keyed by uid |
| `ExecutionContext.PushThenLookup` | src/core/execution_context/in_place_exec_ctxt.cc:100-102 | after `push_back(so)` the context's cached lookup returns `so`, and a full lookup from any context, even one that did not create it, finds an object with that uid before the merge; the pushing context finds `so` itself |
| `ExecutionContext.PushTwiceThenLookup` | src/core/execution_context/in_place_exec_ctxt.cc:100-102 | a second push with the same uid overwrites the first: the cached lookup returns the second object |
| `ExecutionContext.InPlaceExecutionContext.ForEachNeighborObjects` | src/core/execution_context/in_place_exec_ctxt.cc:104-117 | with a non-empty cache the callback sees the cached objects, otherwise the grid's; the cache is not filled |
| `ExecutionContext.Objects` | src/core/execution_context/in_place_exec_ctxt.cc:109-111 | the objects of the pairs, in order |
| `ExecutionContext.InPlaceExecutionContext.Fen` | src/core/execution_context/in_place_exec_ctxt.cc:119-134 | the pair is appended to the cache only when caching is on, and is always passed on unchanged |
| `ExecutionContext.InPlaceExecutionContext.ForEachNeighbor` | src/core/execution_context/in_place_exec_ctxt.cc:136-151 | a non-empty cache is replayed and kept; an empty one lets the grid's pairs through in order, and they fill the cache exactly when caching is on |
| `ExecutionContext.RepeatedNeighborSearch` | src/core/execution_context/in_place_exec_ctxt.cc:136-151 | a second search within the same `Execute` replays the first one's neighbours when the first found some |
| `ExecutionContext.InPlaceExecutionContext.FenWithinRadius` | src/core/execution_context/in_place_exec_ctxt.cc:153-171 | the pair is cached when caching is on; it is passed on, with distance 0, only when strictly inside the radius |
| `ExecutionContext.InPlaceExecutionContext.ForEachNeighborWithinRadius` | src/core/execution_context/in_place_exec_ctxt.cc:173-208 | the callback sees the in-radius pairs of the cache when it is non-empty, otherwise of the grid, with distance 0; the cache fills from the grid exactly when caching is on |
| `ExecutionContext.WithinRadiusSound` | src/core/execution_context/in_place_exec_ctxt.cc:167-169 | every call made is for a neighbour strictly inside the radius, and carries distance 0 |
| `ExecutionContext.WithinRadiusComplete` | src/core/execution_context/in_place_exec_ctxt.cc:177-183 | every neighbour strictly inside the radius gets a call |
| `ExecutionContext.WithinRadiusConcat` | src/core/execution_context/in_place_exec_ctxt.cc:177-183 | the filter works pair by pair, in order |
| `ExecutionContext.InPlaceExecutionContext.GetSimObject` | src/core/execution_context/in_place_exec_ctxt.cc:210-231 | the result is the three-tier resolution of the uid: own creation map, resource manager, then the first context whose creation map holds it |
| `ExecutionContext.FirstCachedIndex` | src/core/execution_context/in_place_exec_ctxt.cc:224-229 | the first context holding the uid: no earlier one holds it |
| `ExecutionContext.ResolveOrder` | src/core/execution_context/in_place_exec_ctxt.cc:210-231 | the own map is tried first, then the store, then the contexts in order, and the first hit wins |
| `ExecutionContext.ResolveNoneIff` | src/core/execution_context/in_place_exec_ctxt.cc:230 | the lookup returns null exactly when no tier holds the uid |
| `ExecutionContext.ResolveKeyed` | src/core/execution_context/in_place_exec_ctxt.cc:210-231 | with every tier keyed by uid, a hit is the object with the requested uid |
| `ResourceManagers.ResourceManager.GetSimObject` | src/core/execution_context/in_place_exec_ctxt.cc:218 | the object indexed under the uid, or null when there is none |
| `ExecutionContext.InPlaceExecutionContext.RemoveFromSimulation` | src/core/execution_context/in_place_exec_ctxt.cc:237-239 | appends the uid to the removal list |
| `ExecutionContext.InPlaceExecutionContext.GetCachedSimObject` | src/core/execution_context/in_place_exec_ctxt.cc:245-252 | the object staged in this context under the uid, or null exactly when none is staged |
| `ExecutionContext.StagedMaps` | src/core/execution_context/in_place_exec_ctxt.cc:224-229 | the creation maps of all contexts, in thread order |
| `ExecutionContext.StagedSizes` | src/core/execution_context/in_place_exec_ctxt.cc:48 | the number of objects each context staged |
| `ExecutionContext.RemovalLists` | src/core/execution_context/in_place_exec_ctxt.cc:74 | the removal lists of all contexts, in thread order |
| `SoPointers.NullPointer` | src/core/sim_object/so_pointer.h:62-63 | the default pointer represents nullptr |
| `SoPointers.FromUid` | src/core/sim_object/so_pointer.h:60 | the pointer holds the given uid, and it is null exactly when that uid is the largest one |
| `SoPointers.GetUid` | src/core/sim_object/so_pointer.h:67 | the uid read out, together with the pointer's type, rebuilds the pointer |
| `SoPointers.IsNull` | src/core/sim_object/so_pointer.h:99-101 | `== nullptr` holds exactly when the pointer is the default (largest-uid) pointer of its type |
| `SoPointers.IsNotNull` | src/core/sim_object/so_pointer.h:105 | `!= nullptr` holds exactly when the uid is not the largest one |
| `SoPointers.ToBool` | src/core/sim_object/so_pointer.h:163-165 | `operator bool` agrees with `!= nullptr` |
| `SoPointers.Equal` | src/core/sim_object/so_pointer.h:107 | two pointers of one type compare equal exactly when they are the same pointer |
| `SoPointers.NotEqual` | src/core/sim_object/so_pointer.h:109 | `!=` between two pointers is the negation of `==` |
| `SoPointers.EqualObject` | src/core/sim_object/so_pointer.h:112-115 | a pointer equals an object (by reference, and likewise by pointer at lines 122-125) exactly when it is the pointer built from that object's uid |
| `SoPointers.NotEqualObject` | src/core/sim_object/so_pointer.h:117-119 | `!=` against an object (and against an object pointer at lines 127-130) holds exactly when the uids differ |
| `SoPointers.DefaultIsNull` | src/core/sim_object/so_pointer.h:173 | the default uid is the largest one, so a default pointer is null and converts to false |
| `SoPointers.UidRoundTrip` | src/core/sim_object/so_pointer.h:60-67 | `GetUid` returns the uid the pointer was built from, and rebuilding from it gives the same pointer |
| `SoPointers.BoolIsNotNull` | src/core/sim_object/so_pointer.h:99-105 | `operator bool` and `!= nullptr` both hold exactly when `== nullptr` does not |
| `SoPointers.EqualityIsUidEquality` | src/core/sim_object/so_pointer.h:107-109 | two pointers of one type are equal exactly when their uids are, `!=` is the negation, and equality is value identity |
| `SoPointers.EqualObjectIsUid` | src/core/sim_object/so_pointer.h:112-130 | a pointer built from an object's uid equals the object, and `!=` against an object compares uids |
| `SoPointers.AssignNull` | src/core/sim_object/so_pointer.h:134-137 | after `= nullptr` the pointer, of the same type, is null |
| `SoPointers.AssignNullIdempotent` | src/core/sim_object/so_pointer.h:134-137 | assigning nullptr gives the default pointer, and doing it twice is doing it once |
| `SoPointers.DynamicCast` | src/core/sim_object/so_pointer.h:84-96 | the result has the target type; it is non-null exactly when the source pointer is non-null and the context resolves its uid to an object of the target type, and then it keeps the uid |
| `SoPointers.CastCases` | src/core/sim_object/so_pointer.h:70-96 | null stays null; a miss or an object of another type gives null; a hit of the target type keeps the uid |
| `SoPointers.CastIdempotent` | src/core/sim_object/so_pointer.h:70-96 | casting again to the same type against the same lookup changes nothing |
| `SoPointers.Get` | src/core/sim_object/so_pointer.h:154-161 | the const accessor returns an object exactly when `DynamicCast` to the pointer's own type would be non-null, and then it is the resolved object |
| `SoPointers.Arrow` | src/core/sim_object/so_pointer.h:144-152 | on a hit of the pointer's type, returns a new wrapper of the resolved object and takes one hold of its lock; nothing else in the context changes |
| `SoPointers.LockWrapper.constructor` | src/core/sim_object/so_pointer.h:42-46 | with a context, adds one hold of the object's lock and changes nothing else in it |
| `SoPointers.LockWrapper.Destroy` | src/core/sim_object/so_pointer.h:47-51 | with a context, drops one hold of the object's lock |
| `SoPointers.LockWrapperLifetime` | src/core/sim_object/so_pointer.h:41-57 | construction followed by destruction leaves the context's locks as they were, and changes nothing else in the context |
| `ExecutionContext.InPlaceExecutionContext.AddLock` | src/core/sim_object/so_pointer.h:44 | adds one hold of the lock to the context's lock multiset; nothing else in the context changes |
| `ExecutionContext.InPlaceExecutionContext.RemoveLock` | src/core/sim_object/so_pointer.h:49 | drops one hold of the lock from the context's lock multiset; nothing else in the context changes |
| `FreeList.List.constructor` | test/unit/core/memory/memory_manager_test.cc:21 | a new list is empty |
| `FreeList.Node.constructor` | test/unit/core/memory/memory_manager_test.cc:23-26 | a new node links to nothing, so its null `next` ends any chain it is the last node of |
| `FreeList.List.Empty` | test/unit/core/memory/memory_manager_test.cc:32-47 | holds exactly when the list has no nodes |
| `FreeList.List.Push` | test/unit/core/memory/memory_manager_test.cc:34 | on an empty list, the chain starting at `head` becomes the list; otherwise the segment from `head` to `tail` is put in front, with `tail` linked to the old head |
| `FreeList.List.Pop` | test/unit/core/memory/memory_manager_test.cc:37-49 | returns the first node and drops it, or null on an empty list, which stays empty |
| `FreeList.List.PopNThreadSafe` | test/unit/core/memory/memory_manager_test.cc:69-72 | takes the first `min(n, size)` nodes; the first and last of them are returned, as a linked chain, or null for both when none is taken; the rest stay in order |
| `FreeList.PushPopEmptyScenario` | test/unit/core/memory/memory_manager_test.cc:20-50 | the test's four pops return n1, n2, n3, n4 and then null, and `Empty` answers true, false, false, false, false, true |
| `FreeList.PopNLessScenario` | test/unit/core/memory/memory_manager_test.cc:53-78 | popping 3 of 4 returns n1..n3 and leaves n4 |
| `FreeList.PopNMoreScenario` | test/unit/core/memory/memory_manager_test.cc:81-103 | popping 8 of 4 returns n1..n4 and empties the list |
| `FreeList.PopNEqualScenario` | test/unit/core/memory/memory_manager_test.cc:106-128 | popping 4 of 4 returns n1..n4 and empties the list |
| `Spinlocks.Spinlock.constructor` | test/unit/core/util/spinlock_test.cc:21 | a new lock is free |
| `Spinlocks.Spinlock.TryLock` | test/unit/core/util/spinlock_test.cc:23-24 | succeeds exactly when the lock was free, and the lock is held afterwards |
| `Spinlocks.Spinlock.Lock` | test/unit/core/util/spinlock_test.cc:30 | a free lock becomes held |
| `Spinlocks.Spinlock.Unlock` | test/unit/core/util/spinlock_test.cc:26 | the lock becomes free |
| `Spinlocks.SpinlockScenario` | test/unit/core/util/spinlock_test.cc:20-33 | the test's four `try_lock` calls answer true, false, true, false |

## Left out

- Parallel threads. The OpenMP loop that commits the new objects
  (`in_place_exec_ctxt.cc:58-66`) is a sequential loop over the threads. The
  blocks it writes are disjoint, as `ThreadRangesDisjoint` shows. Each
  creation map is cleared after all blocks are written, not right after its
  own block. The stores end up the same as in the source. The index ends
  up the same only when no uid is staged by two contexts. Otherwise the
  source's concurrent `AddNewSimObjects` calls (`in_place_exec_ctxt.cc:64`)
  leave unspecified which object the index keeps, and both copies are
  stored. `MergeStagedLatest` describes the sequential model only. In that
  case the model's `Remove` drops every stored copy, while the source
  reaches only the copy its index points to.
- The thread and NUMA topology. Threads are the positions of the context
  sequence, and each thread's NUMA node is given as the sequence `numaOf`.
  The active simulation's resource manager, grid, parameters and context
  list are passed as arguments.
- Integer width of the offsets. `thread_offsets`, `new_so_per_numa` and
  `numa_offsets` are 64-bit unsigned in the source; the model uses
  unbounded naturals. Wrap-around would need more than 2^64 staged objects,
  so it is not modelled.
- The resource manager's storage layout. Each NUMA node's slots are a
  sequence of optional objects, and `Remove` drops the object's slot from
  every node. How the real container compacts after a removal, and where it
  moves the last object, is not modelled.
- The iteration order of `new_sim_objects_` (an unordered map). The order is
  left open in `AddNewSimObjects`. When two threads stage the same uid, the
  later thread in the model's merge order wins; in the source the winner is
  unspecified (see parallel threads above).
- `ExecutionContext.InPlaceExecutionContext.Execute`: the grid's neighbour
  mutex builder is a `Spinlock?`. The body locks a given mutex around the
  operation loop (`in_place_exec_ctxt.cc:86-91`), but no contract states
  that it is held while the operations run, because a modelled `Operation`
  cannot observe the lock. The contract only states that the lock is free
  on entry and free again afterwards. Blocking on a mutex that is already
  held is not modelled; the lock must be free.
- `DisableNeighborGuard` and `GetConstSimObject`. The first only forwards to
  the grid. The second is `GetSimObject` itself.
- The grid search. The grid's answer for the query is a given sequence of
  neighbour pairs. A callback is modelled as the sequence of calls it
  receives. Squared distances are `real`, not `double`.
- `ForEachNeighborObjects`: the overload that takes a `std::function`
  forwards to the grid without filling the cache. The model keeps that
  behaviour.
- The destructor's `delete` of staged objects. There is no manual memory
  management in the model.
- `Operation`: an operation is a function from object to object. Its side
  effects on other objects or on the context are not modelled.
- `SoPointer` type checks. The C++ template parameter is a type name, and
  `dynamic_cast` is a test that the object's set of type names contains it.
  Only the non-const `DynamicCast` is cited, because the two overloads
  differ only in const-ness, which the model does not represent.
- `SoPointers.Equal` compares two pointers of the same type. The templated
  `operator==` that compares an `SoPointer` with an `SoPointer` of another
  type by uid (`so_pointer.h:112-115`) is marked for removal in the source
  and is not modelled.
- `SoPointers.AssignNull`: `operator=(nullptr)` changes the pointer in place.
  `SoPointer` is a value here, so `AssignNull` returns the new value.
- `SoPointers.Arrow`: when the lookup or the cast fails, the source builds a
  `LockWrapper` around a null object, and its constructor then dereferences
  it. The model returns no wrapper and takes no lock in that case.
- `SoPointers.Get`: `operator*` dereferences the result of the const
  `operator->`. Dereferencing null is not modelled.
- `SoPointer`'s `GetUidPtr`, `operator<<` and the virtual destructor. These
  are address-taking, printing and a no-op destructor.
- Object locks. Each object's lock is named by its uid. A context's held
  locks are a multiset. The lock class itself is not modelled.
- Free list atomics. `PopNThreadSafe` is modelled single-threaded, and the
  list header is not part of this model. `Push` on an empty list adopts the
  whole null-terminated chain from `head`, because the test pushes `(n1, n3)`
  and then pops `n4`. `PopNThreadSafe` leaves the last taken node's `next`
  link as it was.
- `MemoryManager::New` (`memory_manager_test.cc:130-133`). Its test only
  prints an address and checks nothing.
- `Spinlocks.Spinlock.Lock`: busy-waiting on a held lock is not modelled.
  The lock must be free when `Lock` is called.
