/**
 * The per-thread execution context of the simulation engine and the
 * step-end merge of all contexts into the resource manager.
 *
 * A context stages the objects created during a step (`newObjects`, keyed
 * by uid), the uids whose removal was requested (`remove`), and the pairs
 * of the last neighbour search (`neighborCache`). `TearDownIterationAll`
 * hands every staged object to the resource manager at a precomputed,
 * disjoint offset of its thread's NUMA node, then applies every removal,
 * and leaves every context drained.
 *
 * The simulation singleton is replaced by explicit parameters: the resource
 * manager `rm`, the list of all contexts `all`, the thread -> NUMA node
 * mapping `numaOf`, the `cache_neighbors_` flag, and the neighbour stream
 * the grid produces for the query object.
 */
module ExecutionContext {
  import opened SimObjects
  import opened Spinlocks
  import opened ResourceManagers
  import opened NumaOffsets

  // ---------------------------------------------------------------------
  // Operations and neighbour streams
  // ---------------------------------------------------------------------

  /** An operation `Execute` applies to the object it is given. */
  type Operation = SimObject -> SimObject

  /** The object after the operations, applied in list order. */
  function ApplyAll(ops: seq<Operation>, so: SimObject): SimObject
  {
    if ops == [] then so else ops[|ops| - 1](ApplyAll(ops[..|ops| - 1], so))
  }

  /** Running two operation lists one after the other is running their concatenation. */
  lemma {:induction false} ApplyAllConcat(ops1: seq<Operation>, ops2: seq<Operation>, so: SimObject)
    ensures ApplyAll(ops1 + ops2, so) == ApplyAll(ops2, ApplyAll(ops1, so))
  {
    if ops2 == [] {
      assert ops1 + ops2 == ops1;
    } else {
      ApplyAllConcat(ops1, ops2[..|ops2| - 1], so);
      assert (ops1 + ops2)[..|ops1 + ops2| - 1] == ops1 + ops2[..|ops2| - 1];
    }
  }

  /** The first operation of the list is the first one the object sees. */
  lemma ApplyAllFirst(op: Operation, rest: seq<Operation>, so: SimObject)
    ensures ApplyAll([op] + rest, so) == ApplyAll(rest, op(so))
  {
    ApplyAllConcat([op], rest, so);
    assert [op][..0] == [];
  }

  /**
   * The callback invocations of a radius search over `pairs`: every pair
   * strictly inside the squared radius, in stream order, passed on with
   * distance 0 (the source passes 0, not the distance).
   */
  function WithinRadius(pairs: seq<Neighbor>, squaredRadius: real): seq<Neighbor>
  {
    if pairs == [] then []
    else
      var p := pairs[|pairs| - 1];
      WithinRadius(pairs[..|pairs| - 1], squaredRadius)
        + (if p.squaredDistance < squaredRadius then [Neighbor(p.so, 0.0)] else [])
  }

  /** The radius filter works pair by pair: a split stream gives the split invocations. */
  lemma {:induction false} WithinRadiusConcat(a: seq<Neighbor>, b: seq<Neighbor>, squaredRadius: real)
    ensures WithinRadius(a + b, squaredRadius) == WithinRadius(a, squaredRadius) + WithinRadius(b, squaredRadius)
  {
    if b == [] {
      assert a + b == a;
    } else {
      WithinRadiusConcat(a, b[..|b| - 1], squaredRadius);
      assert (a + b)[..|a + b| - 1] == a + b[..|b| - 1];
    }
  }

  /**
   * Every invocation of a radius search comes from a pair of the stream,
   * at index `k`, whose squared distance is strictly below the radius.
   */
  lemma {:induction false} WithinRadiusSound(pairs: seq<Neighbor>, squaredRadius: real, i: nat) returns (k: nat)
    requires i < |WithinRadius(pairs, squaredRadius)|
    ensures k < |pairs| && pairs[k].squaredDistance < squaredRadius
    ensures WithinRadius(pairs, squaredRadius)[i] == Neighbor(pairs[k].so, 0.0)
  {
    var init := pairs[..|pairs| - 1];
    if i < |WithinRadius(init, squaredRadius)| {
      k := WithinRadiusSound(init, squaredRadius, i);
    } else {
      k := |pairs| - 1;
    }
  }

  /** Every pair of the stream strictly inside the radius reaches the callback. */
  lemma {:induction false} WithinRadiusComplete(pairs: seq<Neighbor>, squaredRadius: real, k: nat)
    requires k < |pairs| && pairs[k].squaredDistance < squaredRadius
    ensures Neighbor(pairs[k].so, 0.0) in WithinRadius(pairs, squaredRadius)
  {
    if k < |pairs| - 1 {
      WithinRadiusComplete(pairs[..|pairs| - 1], squaredRadius, k);
    }
  }

  /** The objects of a pair stream, in order: what the `std::function` callback receives. */
  function Objects(pairs: seq<Neighbor>): (r: seq<SimObject>)
    ensures |r| == |pairs|
    ensures forall i :: 0 <= i < |pairs| ==> r[i] == pairs[i].so
  {
    seq(|pairs|, i requires 0 <= i < |pairs| => pairs[i].so)
  }

  // ---------------------------------------------------------------------
  // Three-tier lookup
  // ---------------------------------------------------------------------

  /**
   * What `GetSimObject` consults: the asking context's own creation map,
   * the resource manager's index, and the creation maps of all contexts.
   */
  datatype Snapshot = Snapshot(own: map<Uid, SimObject>, store: map<Uid, SimObject>, all: seq<map<Uid, SimObject>>)

  /** The position of the first map holding `uid`, or `|maps|` when none does. */
  function FirstCachedIndex(maps: seq<map<Uid, SimObject>>, uid: Uid): (i: nat)
    ensures i <= |maps|
    ensures forall j :: 0 <= j < i ==> uid !in maps[j]
    ensures i < |maps| ==> uid in maps[i]
  {
    if maps == [] then 0
    else if uid in maps[0] then 0
    else 1 + FirstCachedIndex(maps[1..], uid)
  }

  /** The object `GetSimObject` returns: own map, else the store, else the first context holding it. */
  function Resolve(v: Snapshot, uid: Uid): Option<SimObject>
  {
    if uid in v.own then Some(v.own[uid])
    else if uid in v.store then Some(v.store[uid])
    else
      var i := FirstCachedIndex(v.all, uid);
      if i < |v.all| then Some(v.all[i][uid]) else None
  }

  /** The tiers are tried in order, and among the contexts the first one holding the uid wins. */
  lemma ResolveOrder(v: Snapshot, uid: Uid, i: nat)
    ensures uid in v.own ==> Resolve(v, uid) == Some(v.own[uid])
    ensures uid !in v.own && uid in v.store ==> Resolve(v, uid) == Some(v.store[uid])
    ensures uid !in v.own && uid !in v.store && i < |v.all| && uid in v.all[i]
            && (forall j :: 0 <= j < i ==> uid !in v.all[j])
            ==> Resolve(v, uid) == Some(v.all[i][uid])
  {
  }

  /** The lookup misses exactly when no tier holds the uid. */
  lemma ResolveNoneIff(v: Snapshot, uid: Uid)
    ensures Resolve(v, uid) == None
            <==> uid !in v.own && uid !in v.store && forall i :: 0 <= i < |v.all| ==> uid !in v.all[i]
  {
  }

  /** When every tier is keyed by uid, a hit is the object with the asked uid. */
  lemma ResolveKeyed(v: Snapshot, uid: Uid)
    requires KeyedByUid(v.own) && KeyedByUid(v.store)
    requires forall i :: 0 <= i < |v.all| ==> KeyedByUid(v.all[i])
    ensures Resolve(v, uid).Some? ==> Resolve(v, uid).value.uid == uid
  {
  }

  // ---------------------------------------------------------------------
  // The context
  // ---------------------------------------------------------------------

  class InPlaceExecutionContext {
    /** `new_sim_objects_`: objects created during this step, by uid. */
    var newObjects: map<Uid, SimObject>
    /** `remove_`: uids whose removal was requested during this step. */
    var remove: seq<Uid>
    /** `neighbor_cache_`: the (neighbour, squared distance) pairs of the last grid search. */
    var neighborCache: seq<Neighbor>
    /** The locks `SoPointer` accessors hold through this context, one entry per holder. */
    var locks: multiset<Uid>

    ghost predicate Valid()
      reads this
    {
      KeyedByUid(newObjects)
    }

    constructor ()
      ensures Valid()
      ensures newObjects == map[] && remove == [] && neighborCache == [] && locks == multiset{}
    {
      newObjects := map[];
      remove := [];
      neighborCache := [];
      locks := multiset{};
    }

    /** `push_back`: stages a new object under its uid, replacing one staged with the same uid. */
    method PushBack(so: SimObject)
      requires Valid()
      modifies this`newObjects
      ensures Valid()
      ensures newObjects == old(newObjects)[so.uid := so]
    {
      newObjects := newObjects[so.uid := so];
    }

    /** Requests the removal of `uid` at the end of the step. */
    method RemoveFromSimulation(uid: Uid)
      modifies this`remove
      ensures remove == old(remove) + [uid]
    {
      remove := remove + [uid];
    }

    /** The object staged here under `uid`, or null. */
    method GetCachedSimObject(uid: Uid) returns (r: Option<SimObject>)
      ensures r.Some? <==> uid in newObjects
      ensures r.Some? ==> r.value == newObjects[uid]
    {
      r := None;
      if uid in newObjects {
        r := Some(newObjects[uid]);
      }
    }

    /** The state `GetSimObject` reads, as a value. */
    function View(rm: ResourceManager, all: seq<InPlaceExecutionContext>): Snapshot
      reads this, rm, all
    {
      Snapshot(newObjects, rm.index, StagedMaps(all))
    }

    /**
     * Resolves a uid: this context's creation map first, then the resource
     * manager, then the creation maps of all contexts in order.
     */
    method GetSimObject(uid: Uid, rm: ResourceManager, all: seq<InPlaceExecutionContext>) returns (r: Option<SimObject>)
      ensures r == Resolve(View(rm, all), uid)
    {
      r := GetCachedSimObject(uid);
      if r.Some? {
        return;
      }
      r := rm.GetSimObject(uid);
      if r.Some? {
        return;
      }
      ghost var maps := StagedMaps(all);
      var i := 0;
      while i < |all|
        invariant 0 <= i <= |all|
        invariant forall j :: 0 <= j < i ==> uid !in maps[j]
      {
        r := all[i].GetCachedSimObject(uid);
        if r.Some? {
          return;
        }
        i := i + 1;
      }
      r := None;
    }

    /**
     * Applies the operations to `so` in list order with the neighbour cache
     * cleared first; when the grid provides a mutex for the object's box
     * (`cellLock`), the body holds it around the run; the contract states
     * only that it is free on entry and free again afterwards.
     */
    method Execute(so: SimObject, ops: seq<Operation>, cellLock: Spinlock?) returns (r: SimObject)
      requires cellLock != null ==> !cellLock.held
      modifies this`neighborCache, cellLock
      ensures neighborCache == []
      ensures r == ApplyAll(ops, so)
      ensures cellLock != null ==> !cellLock.held
    {
      if cellLock != null {
        cellLock.Lock();
        neighborCache := [];
        r := ApplyOperations(so, ops, cellLock);
        cellLock.Unlock();
      } else {
        neighborCache := [];
        r := ApplyOperations(so, ops, null);
      }
    }

    /**
     * `Fen`: the callback wrapper of a grid search; records the pair when
     * caching is on, then hands it to the caller's callback.
     */
    method Fen(pair: Neighbor, cacheNeighbors: bool) returns (call: Neighbor)
      modifies this`neighborCache
      ensures neighborCache == old(neighborCache) + (if cacheNeighbors then [pair] else [])
      ensures call == pair
    {
      if cacheNeighbors {
        neighborCache := neighborCache + [pair];
      }
      call := pair;
    }

    /**
     * `FenWithinRadius`: records every pair when caching is on, and hands
     * the neighbour (with distance 0) to the callback only when it lies
     * strictly inside the squared radius.
     */
    method FenWithinRadius(pair: Neighbor, cacheNeighbors: bool, squaredRadius: real) returns (calls: seq<Neighbor>)
      modifies this`neighborCache
      ensures neighborCache == old(neighborCache) + (if cacheNeighbors then [pair] else [])
      ensures calls == WithinRadius([pair], squaredRadius)
    {
      if cacheNeighbors {
        neighborCache := neighborCache + [pair];
      }
      calls := [];
      if pair.squaredDistance < squaredRadius {
        calls := [Neighbor(pair.so, 0.0)];
      }
      assert [pair][..0] == [];
    }

    /**
     * `ForEachNeighbor` with a (neighbour, distance) callback: replays a
     * non-empty cache without asking the grid; otherwise streams `grid`,
     * the grid's pairs for the query, through `Fen`. Returns the callback's
     * invocations in order.
     */
    method ForEachNeighbor(grid: seq<Neighbor>, cacheNeighbors: bool) returns (calls: seq<Neighbor>)
      modifies this`neighborCache
      ensures old(neighborCache) != [] ==> calls == old(neighborCache) && neighborCache == old(neighborCache)
      ensures old(neighborCache) == [] ==> calls == grid && neighborCache == (if cacheNeighbors then grid else [])
    {
      calls := [];
      if |neighborCache| != 0 {
        for i := 0 to |neighborCache|
          invariant neighborCache == old(neighborCache)
          invariant calls == neighborCache[..i]
        {
          calls := calls + [neighborCache[i]];
        }
        return;
      }
      for i := 0 to |grid|
        invariant calls == grid[..i]
        invariant neighborCache == if cacheNeighbors then grid[..i] else []
      {
        var call := Fen(grid[i], cacheNeighbors);
        calls := calls + [call];
        assert grid[..i + 1] == grid[..i] + [grid[i]];
      }
    }

    /**
     * `ForEachNeighbor` with an object-only callback: replays the objects
     * of a non-empty cache, otherwise forwards to the grid; it never
     * fills the cache.
     */
    method ForEachNeighborObjects(grid: seq<Neighbor>) returns (calls: seq<SimObject>)
      ensures calls == Objects(if neighborCache != [] then neighborCache else grid)
    {
      calls := [];
      var source := if |neighborCache| != 0 then neighborCache else grid;
      for i := 0 to |source|
        invariant calls == Objects(source[..i])
      {
        calls := calls + [source[i].so];
      }
      assert source[..|source|] == source;
    }

    /**
     * `ForEachNeighborWithinRadius`: as `ForEachNeighbor`, but only pairs
     * strictly inside the squared radius reach the callback, while every
     * streamed pair is cached.
     */
    method ForEachNeighborWithinRadius(grid: seq<Neighbor>, cacheNeighbors: bool, squaredRadius: real) returns (calls: seq<Neighbor>)
      modifies this`neighborCache
      ensures old(neighborCache) != [] ==>
                calls == WithinRadius(old(neighborCache), squaredRadius) && neighborCache == old(neighborCache)
      ensures old(neighborCache) == [] ==>
                calls == WithinRadius(grid, squaredRadius) && neighborCache == (if cacheNeighbors then grid else [])
    {
      calls := [];
      if |neighborCache| != 0 {
        for i := 0 to |neighborCache|
          invariant neighborCache == old(neighborCache)
          invariant calls == WithinRadius(neighborCache[..i], squaredRadius)
        {
          var pair := neighborCache[i];
          if pair.squaredDistance < squaredRadius {
            calls := calls + [Neighbor(pair.so, 0.0)];
          }
          assert neighborCache[..i + 1][..i] == neighborCache[..i];
        }
        assert neighborCache[..|neighborCache|] == neighborCache;
        return;
      }
      for i := 0 to |grid|
        invariant calls == WithinRadius(grid[..i], squaredRadius)
        invariant neighborCache == if cacheNeighbors then grid[..i] else []
      {
        var hit := FenWithinRadius(grid[i], cacheNeighbors, squaredRadius);
        WithinRadiusConcat(grid[..i], [grid[i]], squaredRadius);
        assert grid[..i + 1] == grid[..i] + [grid[i]];
        calls := calls + hit;
      }
      assert grid[..|grid|] == grid;
    }

    /** Adds one hold of an object's lock. */
    method AddLock(lock: Uid)
      modifies this`locks
      ensures locks == old(locks) + multiset{lock}
    {
      locks := locks + multiset{lock};
    }

    /** Drops one hold of an object's lock. */
    method RemoveLock(lock: Uid)
      modifies this`locks
      ensures locks == old(locks) - multiset{lock}
    {
      locks := locks - multiset{lock};
    }
  }

  /** The operation loop of `Execute`; it runs only while the box's lock, when there is one, is held. */
  method ApplyOperations(so: SimObject, ops: seq<Operation>, cellLock: Spinlock?) returns (r: SimObject)
    requires cellLock != null ==> cellLock.held
    ensures r == ApplyAll(ops, so)
  {
    r := so;
    for i := 0 to |ops|
      invariant r == ApplyAll(ops[..i], so)
    {
      assert ops[..i + 1][..i] == ops[..i];
      r := ops[i](r);
    }
    assert ops[..|ops|] == ops;
  }

  /**
   * Two grid searches for one object inside one `Execute`, caching on:
   * the second replays the first. `later` is what the grid would stream
   * at the second search; it is consulted only when the first search
   * found no neighbour and so left the cache empty.
   */
  method RepeatedNeighborSearch(ctxt: InPlaceExecutionContext, stream: seq<Neighbor>, later: seq<Neighbor>)
    returns (first: seq<Neighbor>, second: seq<Neighbor>)
    requires ctxt.neighborCache == []
    modifies ctxt
    ensures first == stream
    ensures second == if stream != [] then stream else later
  {
    first := ctxt.ForEachNeighbor(stream, true);
    second := ctxt.ForEachNeighbor(later, true);
  }

  /**
   * An object pushed into context `c` is found at once: by `c`'s own
   * cached lookup, and by a full lookup from any context `d`, even one
   * that did not create it, before the step-end merge. The object found
   * has the pushed uid, and `c` itself finds exactly the pushed object.
   */
  method PushThenLookup(c: InPlaceExecutionContext, d: InPlaceExecutionContext, so: SimObject,
                        rm: ResourceManager, all: seq<InPlaceExecutionContext>)
    returns (cached: Option<SimObject>, found: Option<SimObject>)
    requires c in all && d.Valid() && rm.Valid()
    requires forall t :: 0 <= t < |all| ==> all[t].Valid()
    modifies c`newObjects
    ensures cached == Some(so)
    ensures found.Some? && found.value.uid == so.uid
    ensures d == c ==> found == Some(so)
  {
    c.PushBack(so);
    cached := c.GetCachedSimObject(so.uid);
    found := d.GetSimObject(so.uid, rm, all);
    ghost var v := d.View(rm, all);
    ghost var k :| 0 <= k < |all| && all[k] == c;
    assert so.uid in v.all[k];
    ResolveNoneIff(v, so.uid);
    ResolveKeyed(v, so.uid);
  }

  /** Two pushes with the same uid: the second object replaces the first in the creation map. */
  method PushTwiceThenLookup(c: InPlaceExecutionContext, first: SimObject, second: SimObject)
    returns (cached: Option<SimObject>)
    requires c.Valid() && first.uid == second.uid
    modifies c`newObjects
    ensures cached == Some(second)
    ensures c.Valid() && c.newObjects == old(c.newObjects)[second.uid := second]
  {
    c.PushBack(first);
    c.PushBack(second);
    cached := c.GetCachedSimObject(second.uid);
  }

  // ---------------------------------------------------------------------
  // The step-end merge
  // ---------------------------------------------------------------------

  /** One context per thread: no context occurs twice. */
  ghost predicate AllDistinct(all: seq<InPlaceExecutionContext>)
  {
    forall i, j :: 0 <= i < j < |all| ==> all[i] != all[j]
  }

  /** The creation maps of the contexts, in thread order. */
  function StagedMaps(all: seq<InPlaceExecutionContext>): (r: seq<map<Uid, SimObject>>)
    reads all
    ensures |r| == |all|
    ensures forall i :: 0 <= i < |all| ==> r[i] == all[i].newObjects
  {
    seq(|all|, i requires 0 <= i < |all| reads all => all[i].newObjects)
  }

  /** The number of objects each thread staged. */
  function StagedSizes(all: seq<InPlaceExecutionContext>): (r: seq<nat>)
    reads all
    ensures |r| == |all|
    ensures forall i :: 0 <= i < |all| ==> r[i] == |all[i].newObjects|
  {
    seq(|all|, i requires 0 <= i < |all| reads all => |all[i].newObjects|)
  }

  /** The removal lists of the contexts, in thread order. */
  ghost function RemovalLists(all: seq<InPlaceExecutionContext>): (r: seq<seq<Uid>>)
    reads all
    ensures |r| == |all|
    ensures forall i :: 0 <= i < |all| ==> r[i] == all[i].remove
  {
    seq(|all|, i requires 0 <= i < |all| reads all => all[i].remove)
  }

  /** The index after the creation maps of threads below `k` are added in thread order. */
  function MergeStaged(index: map<Uid, SimObject>, staged: seq<map<Uid, SimObject>>, k: nat): map<Uid, SimObject>
    requires k <= |staged|
  {
    if k == 0 then index else MergeStaged(index, staged, k - 1) + staged[k - 1]
  }

  /** Every uid listed for removal by the threads below `k`. */
  function RemovedUids(lists: seq<seq<Uid>>, k: nat): set<Uid>
    requires k <= |lists|
  {
    if k == 0 then {} else RemovedUids(lists, k - 1) + Elements(lists[k - 1])
  }

  /** The uids of a list, as a set. */
  function Elements(s: seq<Uid>): set<Uid>
  {
    set u | u in s
  }

  /** After the merge, the index holds the old entries and every staged uid. */
  lemma {:induction false} MergeStagedKeys(index: map<Uid, SimObject>, staged: seq<map<Uid, SimObject>>, k: nat, u: Uid)
    requires k <= |staged|
    ensures u in MergeStaged(index, staged, k) <==> u in index || exists i :: 0 <= i < k && u in staged[i]
  {
    if k > 0 {
      MergeStagedKeys(index, staged, k - 1, u);
    }
  }

  /** A staged object is what the index names, unless a later thread staged the same uid. */
  lemma {:induction false} MergeStagedLatest(index: map<Uid, SimObject>, staged: seq<map<Uid, SimObject>>, k: nat, i: nat, u: Uid)
    requires i < k <= |staged| && u in staged[i]
    requires forall j :: i < j < k ==> u !in staged[j]
    ensures u in MergeStaged(index, staged, k) && MergeStaged(index, staged, k)[u] == staged[i][u]
  {
    if i < k - 1 {
      MergeStagedLatest(index, staged, k - 1, i, u);
    }
  }

  /** An entry no thread staged keeps its old object. */
  lemma {:induction false} MergeStagedUntouched(index: map<Uid, SimObject>, staged: seq<map<Uid, SimObject>>, k: nat, u: Uid)
    requires k <= |staged| && u in index
    requires forall j :: 0 <= j < k ==> u !in staged[j]
    ensures u in MergeStaged(index, staged, k) && MergeStaged(index, staged, k)[u] == index[u]
  {
    if k > 0 {
      MergeStagedUntouched(index, staged, k - 1, u);
    }
  }

  /** A uid is removed exactly when some thread listed it. */
  lemma {:induction false} RemovedUidsIff(lists: seq<seq<Uid>>, k: nat, u: Uid)
    requires k <= |lists|
    ensures u in RemovedUids(lists, k) <==> exists i :: 0 <= i < k && u in lists[i]
  {
    if k > 0 {
      RemovedUidsIff(lists, k - 1, u);
    }
  }

  /**
   * Removal wins over creation: a uid some thread staged and some thread
   * listed for removal is absent after the merge, and a staged uid
   * nobody listed is present.
   */
  lemma StagedThenRemoved(index: map<Uid, SimObject>, staged: seq<map<Uid, SimObject>>, lists: seq<seq<Uid>>, i: nat, u: Uid)
    requires |staged| == |lists| && i < |staged| && u in staged[i]
    ensures (exists j :: 0 <= j < |lists| && u in lists[j])
            <==> u !in MergeStaged(index, staged, |staged|) - RemovedUids(lists, |lists|)
  {
    MergeStagedKeys(index, staged, |staged|, u);
    RemovedUidsIff(lists, |lists|, u);
  }

  /**
   * Asking again for a removal that some context, this one or another,
   * already asked for changes nothing: the removed set, and so both the
   * index and the containers after the merge, stay the same.
   */
  lemma RemovalIdempotent(lists: seq<seq<Uid>>, i: nat, j: nat, u: Uid)
    requires i < |lists| && j < |lists| && u in lists[j]
    ensures RemovedUids(lists[i := lists[i] + [u]], |lists|) == RemovedUids(lists, |lists|)
  {
    var lists' := lists[i := lists[i] + [u]];
    forall v
      ensures v in RemovedUids(lists', |lists|) <==> v in RemovedUids(lists, |lists|)
    {
      RemovedUidsIff(lists, |lists|, v);
      RemovedUidsIff(lists', |lists|, v);
      if v in RemovedUids(lists', |lists|) {
        var k :| 0 <= k < |lists| && v in lists'[k];
        if k == i && v !in lists[i] {
          assert v == u && u in lists[j];
        } else {
          assert v in lists[k];
        }
      }
      if v in RemovedUids(lists, |lists|) {
        var k :| 0 <= k < |lists| && v in lists[k];
        assert v in lists'[k];
      }
    }
  }

  /** The index after the merge is the same whether or not the duplicate removal request is made. */
  lemma RemovalIdempotentIndex(index: map<Uid, SimObject>, lists: seq<seq<Uid>>, i: nat, j: nat, u: Uid)
    requires i < |lists| && j < |lists| && u in lists[j]
    ensures index - RemovedUids(lists[i := lists[i] + [u]], |lists|) == index - RemovedUids(lists, |lists|)
  {
    RemovalIdempotent(lists, i, j, u);
  }

  /**
   * The accumulator loop of `TearDownIterationAll`: for each thread, its
   * write offset is what its node has accumulated so far, and then its
   * node's total grows by that thread's count.
   */
  method ComputeThreadOffsets(sizes: seq<nat>, numaOf: seq<nat>, numaNodes: nat)
    returns (threadOffsets: seq<nat>, newPerNuma: seq<nat>)
    requires |numaOf| == |sizes|
    requires forall t :: 0 <= t < |numaOf| ==> numaOf[t] < numaNodes
    ensures |threadOffsets| == |sizes| && |newPerNuma| == numaNodes
    ensures forall t :: 0 <= t < |sizes| ==> threadOffsets[t] == ThreadOffset(sizes, numaOf, t)
    ensures forall n :: 0 <= n < numaNodes ==> newPerNuma[n] == NodeTotal(sizes, numaOf, n, |sizes|)
  {
    newPerNuma := seq(numaNodes, _ => 0);
    threadOffsets := seq(|sizes|, _ => 0);
    for tid := 0 to |sizes|
      invariant |threadOffsets| == |sizes| && |newPerNuma| == numaNodes
      invariant forall t :: 0 <= t < tid ==> threadOffsets[t] == ThreadOffset(sizes, numaOf, t)
      invariant forall n :: 0 <= n < numaNodes ==> newPerNuma[n] == NodeTotal(sizes, numaOf, n, tid)
    {
      var nid := numaOf[tid];
      threadOffsets := threadOffsets[tid := newPerNuma[nid]];
      newPerNuma := newPerNuma[nid := newPerNuma[nid] + sizes[tid]];
    }
  }

  /** The stores fit the layout: node `k` holds its old `numaOffsets[k]` slots and the node's new total. */
  ghost predicate Laid(stores: seq<seq<Slot>>, sizes: seq<nat>, numaOf: seq<nat>, numaOffsets: seq<nat>)
    requires |numaOf| == |sizes|
  {
    && |numaOffsets| == |stores|
    && (forall t :: 0 <= t < |numaOf| ==> numaOf[t] < |stores|)
    && (forall k :: 0 <= k < |stores| ==> |stores[k]| == numaOffsets[k] + NodeTotal(sizes, numaOf, k, |sizes|))
  }

  /** The threads below `i` have their blocks written. */
  ghost predicate Committed(stores: seq<seq<Slot>>, sizes: seq<nat>, numaOf: seq<nat>, staged: seq<map<Uid, SimObject>>,
                            numaOffsets: seq<nat>, i: nat)
    requires |numaOf| == |sizes| == |staged| && i <= |sizes| && Laid(stores, sizes, numaOf, numaOffsets)
  {
    forall t :: 0 <= t < i ==> BlockAt(stores, sizes, numaOf, staged, numaOffsets, t)
  }

  /** Thread `t`'s block, at its offset inside its node's new range, holds its staged objects. */
  ghost predicate BlockAt(stores: seq<seq<Slot>>, sizes: seq<nat>, numaOf: seq<nat>, staged: seq<map<Uid, SimObject>>,
                          numaOffsets: seq<nat>, t: nat)
    requires |numaOf| == |sizes| == |staged| && t < |sizes| && Laid(stores, sizes, numaOf, numaOffsets)
  {
    BlockHolds(stores[numaOf[t]], numaOffsets[numaOf[t]] + ThreadOffset(sizes, numaOf, t), staged[t])
  }

  /** On every node, the new range written by the threads below `i` has no empty slot. */
  ghost predicate FilledUpTo(stores: seq<seq<Slot>>, sizes: seq<nat>, numaOf: seq<nat>, numaOffsets: seq<nat>, i: nat)
    requires |numaOf| == |sizes| && i <= |sizes| && Laid(stores, sizes, numaOf, numaOffsets)
  {
    forall k, j ::
      0 <= k < |stores| && numaOffsets[k] <= j < numaOffsets[k] + NodeTotal(sizes, numaOf, k, i) && j < |stores[k]|
      ==> stores[k][j].Some?
  }

  /**
   * The frame of a commit step: thread `i` writes from its offset in node
   * `numaOf[i]` on; the slots of that node below the offset and every
   * other node are kept.
   */
  ghost predicate WritesBlock(s: seq<seq<Slot>>, s': seq<seq<Slot>>, sizes: seq<nat>, numaOf: seq<nat>,
                              staged: seq<map<Uid, SimObject>>, numaOffsets: seq<nat>, i: nat)
    requires |numaOf| == |sizes| == |staged| && i < |sizes| && Laid(s, sizes, numaOf, numaOffsets)
  {
    var nid := numaOf[i];
    var offset := numaOffsets[nid] + ThreadOffset(sizes, numaOf, i);
    && |s'| == |s|
    && (forall k :: 0 <= k < |s| && k != nid ==> s'[k] == s[k])
    && |s'[nid]| == |s[nid]| && offset <= |s[nid]|
    && s'[nid][..offset] == s[nid][..offset]
  }

  /** A commit step keeps the layout and the old slots of every node. */
  lemma LaidStep(s: seq<seq<Slot>>, s': seq<seq<Slot>>, sizes: seq<nat>, numaOf: seq<nat>,
                 staged: seq<map<Uid, SimObject>>, numaOffsets: seq<nat>, i: nat)
    requires |numaOf| == |sizes| == |staged| && i < |sizes| && Laid(s, sizes, numaOf, numaOffsets)
    requires WritesBlock(s, s', sizes, numaOf, staged, numaOffsets, i)
    ensures Laid(s', sizes, numaOf, numaOffsets)
    ensures forall k :: 0 <= k < |s| ==> s'[k][..numaOffsets[k]] == s[k][..numaOffsets[k]]
  {
    var nid := numaOf[i];
    var offset := numaOffsets[nid] + ThreadOffset(sizes, numaOf, i);
    assert s'[nid][..numaOffsets[nid]] == s'[nid][..offset][..numaOffsets[nid]];
    assert s[nid][..numaOffsets[nid]] == s[nid][..offset][..numaOffsets[nid]];
  }

  /** A commit step keeps the block of an earlier thread `t` of the same node. */
  lemma KeepsBlock(s: seq<seq<Slot>>, s': seq<seq<Slot>>, sizes: seq<nat>, numaOf: seq<nat>,
                   staged: seq<map<Uid, SimObject>>, numaOffsets: seq<nat>, i: nat, t: nat)
    requires |numaOf| == |sizes| == |staged| && t < i < |sizes| && numaOf[t] == numaOf[i]
    requires Laid(s, sizes, numaOf, numaOffsets)
    requires sizes[t] == |staged[t]|
    requires BlockAt(s, sizes, numaOf, staged, numaOffsets, t)
    requires WritesBlock(s, s', sizes, numaOf, staged, numaOffsets, i) && Laid(s', sizes, numaOf, numaOffsets)
    ensures BlockAt(s', sizes, numaOf, staged, numaOffsets, t)
  {
    var n := numaOf[t];
    ThreadRangesDisjoint(sizes, numaOf, t, i);
    BlockHoldsFrame(s[n], s'[n], numaOffsets[n] + ThreadOffset(sizes, numaOf, t), staged[t],
                    numaOffsets[n] + ThreadOffset(sizes, numaOf, i));
  }

  /** A commit step keeps the blocks of the earlier threads and adds its own. */
  lemma CommittedStep(s: seq<seq<Slot>>, s': seq<seq<Slot>>, sizes: seq<nat>, numaOf: seq<nat>,
                      staged: seq<map<Uid, SimObject>>, numaOffsets: seq<nat>, i: nat)
    requires |numaOf| == |sizes| == |staged| && i < |sizes| && Laid(s, sizes, numaOf, numaOffsets)
    requires forall t :: 0 <= t < |sizes| ==> sizes[t] == |staged[t]|
    requires Committed(s, sizes, numaOf, staged, numaOffsets, i)
    requires WritesBlock(s, s', sizes, numaOf, staged, numaOffsets, i) && Laid(s', sizes, numaOf, numaOffsets)
    requires BlockAt(s', sizes, numaOf, staged, numaOffsets, i)
    ensures Committed(s', sizes, numaOf, staged, numaOffsets, i + 1)
  {
    forall t | 0 <= t < i + 1
      ensures BlockAt(s', sizes, numaOf, staged, numaOffsets, t)
    {
      if t < i {
        assert BlockAt(s, sizes, numaOf, staged, numaOffsets, t);
        if numaOf[t] == numaOf[i] {
          KeepsBlock(s, s', sizes, numaOf, staged, numaOffsets, i, t);
        } else {
          assert s'[numaOf[t]] == s[numaOf[t]];
        }
      }
    }
  }

  /** A commit step extends the gap-free filled range of its node by its own block. */
  lemma FilledStep(s: seq<seq<Slot>>, s': seq<seq<Slot>>, sizes: seq<nat>, numaOf: seq<nat>,
                   staged: seq<map<Uid, SimObject>>, numaOffsets: seq<nat>, i: nat)
    requires |numaOf| == |sizes| == |staged| && i < |sizes| && Laid(s, sizes, numaOf, numaOffsets)
    requires forall t :: 0 <= t < |sizes| ==> sizes[t] == |staged[t]|
    requires FilledUpTo(s, sizes, numaOf, numaOffsets, i)
    requires WritesBlock(s, s', sizes, numaOf, staged, numaOffsets, i) && Laid(s', sizes, numaOf, numaOffsets)
    requires BlockAt(s', sizes, numaOf, staged, numaOffsets, i)
    ensures FilledUpTo(s', sizes, numaOf, numaOffsets, i + 1)
  {
    var nid := numaOf[i];
    var offset := numaOffsets[nid] + ThreadOffset(sizes, numaOf, i);
    forall k, j | 0 <= k < |s'| && numaOffsets[k] <= j < numaOffsets[k] + NodeTotal(sizes, numaOf, k, i + 1)
                  && j < |s'[k]|
      ensures s'[k][j].Some?
    {
      if k == nid && j < offset {
        assert s'[nid][j] == s'[nid][..offset][j];
        assert s[nid][j] == s[nid][..offset][j];
      }
    }
  }

  /**
   * The state of the commit loop after the threads below `i`: the layout
   * holds, the old slots `stores0` are kept, the blocks of those threads
   * are written, their range is gap-free, and their maps are indexed.
   */
  ghost predicate CommitInv(stores: seq<seq<Slot>>, index: map<Uid, SimObject>, sizes: seq<nat>, numaOf: seq<nat>,
                            staged: seq<map<Uid, SimObject>>, numaOffsets: seq<nat>,
                            stores0: seq<seq<Slot>>, index0: map<Uid, SimObject>, i: nat)
  {
    && |numaOf| == |sizes| == |staged| && i <= |sizes|
    && Laid(stores, sizes, numaOf, numaOffsets) && Laid(stores0, sizes, numaOf, numaOffsets)
    && (forall k :: 0 <= k < |stores| ==> stores[k][..numaOffsets[k]] == stores0[k][..numaOffsets[k]])
    && Committed(stores, sizes, numaOf, staged, numaOffsets, i)
    && FilledUpTo(stores, sizes, numaOf, numaOffsets, i)
    && index == MergeStaged(index0, staged, i)
  }

  /** One iteration of the commit loop keeps its state, one thread further on. */
  lemma CommitInvStep(s: seq<seq<Slot>>, s': seq<seq<Slot>>, index: map<Uid, SimObject>, index': map<Uid, SimObject>,
                      sizes: seq<nat>, numaOf: seq<nat>, staged: seq<map<Uid, SimObject>>, numaOffsets: seq<nat>,
                      s0: seq<seq<Slot>>, index0: map<Uid, SimObject>, i: nat, offset: nat)
    requires CommitInv(s, index, sizes, numaOf, staged, numaOffsets, s0, index0, i) && i < |sizes|
    requires forall t :: 0 <= t < |sizes| ==> sizes[t] == |staged[t]|
    requires offset == ThreadOffset(sizes, numaOf, i) + numaOffsets[numaOf[i]]
    requires |s'| == |s|
    requires forall n :: 0 <= n < |s'| && n != numaOf[i] ==> s'[n] == s[n]
    requires |s'[numaOf[i]]| == |s[numaOf[i]]| && offset <= |s[numaOf[i]]|
    requires s'[numaOf[i]][..offset] == s[numaOf[i]][..offset]
    requires BlockHolds(s'[numaOf[i]], offset, staged[i])
    requires index' == index + staged[i]
    ensures CommitInv(s', index', sizes, numaOf, staged, numaOffsets, s0, index0, i + 1)
  {
    ThreadRangeInNode(sizes, numaOf, i);
    assert WritesBlock(s, s', sizes, numaOf, staged, numaOffsets, i);
    LaidStep(s, s', sizes, numaOf, staged, numaOffsets, i);
    assert BlockAt(s', sizes, numaOf, staged, numaOffsets, i);
    CommittedStep(s, s', sizes, numaOf, staged, numaOffsets, i);
    FilledStep(s, s', sizes, numaOf, staged, numaOffsets, i);
  }

  /** What a finished commit loop establishes, stated slot by slot. */
  lemma CommitInvDone(stores: seq<seq<Slot>>, index: map<Uid, SimObject>, sizes: seq<nat>, numaOf: seq<nat>,
                      staged: seq<map<Uid, SimObject>>, numaOffsets: seq<nat>,
                      stores0: seq<seq<Slot>>, index0: map<Uid, SimObject>)
    requires CommitInv(stores, index, sizes, numaOf, staged, numaOffsets, stores0, index0, |sizes|)
    ensures |stores| == |numaOffsets| && forall t :: 0 <= t < |numaOf| ==> numaOf[t] < |stores|
    ensures forall n :: 0 <= n < |stores| ==>
              |stores[n]| == numaOffsets[n] + NodeTotal(sizes, numaOf, n, |sizes|)
              && stores[n][..numaOffsets[n]] == stores0[n][..numaOffsets[n]]
    ensures forall n, j :: 0 <= n < |stores| && numaOffsets[n] <= j < |stores[n]| ==> stores[n][j].Some?
    ensures forall t :: 0 <= t < |sizes| ==>
              BlockHolds(stores[numaOf[t]], numaOffsets[numaOf[t]] + ThreadOffset(sizes, numaOf, t), staged[t])
    ensures index == MergeStaged(index0, staged, |sizes|)
  {
    forall t | 0 <= t < |sizes|
      ensures BlockHolds(stores[numaOf[t]], numaOffsets[numaOf[t]] + ThreadOffset(sizes, numaOf, t), staged[t])
    {
      assert BlockAt(stores, sizes, numaOf, staged, numaOffsets, t);
    }
  }

  /**
   * The containers `after` are `before` with the new objects laid out:
   * `threadOffsets` is the per-node prefix sum of the staged counts,
   * `newPerNuma` the per-node totals; node `n` is grown once, by
   * `newPerNuma[n]` slots starting at `numaOffsets[n]` (its old length),
   * its old slots are kept, every new slot is filled, and thread `t`'s
   * objects occupy exactly its block at `numaOffsets[n] + threadOffsets[t]`.
   */
  ghost predicate MergeLayout(before: seq<seq<Slot>>, after: seq<seq<Slot>>, numaOf: seq<nat>, sizes: seq<nat>,
                              staged: seq<map<Uid, SimObject>>, threadOffsets: seq<nat>, numaOffsets: seq<nat>,
                              newPerNuma: seq<nat>)
    requires |numaOf| == |sizes|
  {
    && |staged| == |threadOffsets| == |sizes|
    && |numaOffsets| == |newPerNuma| == |after| == |before|
    && (forall t :: 0 <= t < |numaOf| ==> numaOf[t] < |after|)
    && (forall t :: 0 <= t < |sizes| ==> threadOffsets[t] == ThreadOffset(sizes, numaOf, t))
    && (forall n :: 0 <= n < |after| ==> newPerNuma[n] == NodeTotal(sizes, numaOf, n, |sizes|))
    && (forall n :: 0 <= n < |after| ==>
          numaOffsets[n] == |before[n]| && |after[n]| == numaOffsets[n] + newPerNuma[n]
          && after[n][..numaOffsets[n]] == before[n])
    && (forall n, j :: 0 <= n < |after| && numaOffsets[n] <= j < |after[n]| ==> after[n][j].Some?)
    && (forall t :: 0 <= t < |sizes| ==>
          BlockHolds(after[numaOf[t]], numaOffsets[numaOf[t]] + threadOffsets[t], staged[t]))
  }

  /** Laying out the new objects leaves no slot empty that was not empty before. */
  lemma MergeLayoutFilled(before: seq<seq<Slot>>, after: seq<seq<Slot>>, numaOf: seq<nat>, sizes: seq<nat>,
                          staged: seq<map<Uid, SimObject>>, threadOffsets: seq<nat>, numaOffsets: seq<nat>,
                          newPerNuma: seq<nat>)
    requires |numaOf| == |sizes|
    requires MergeLayout(before, after, numaOf, sizes, staged, threadOffsets, numaOffsets, newPerNuma)
    ensures AllFilled(before) ==> AllFilled(after)
  {
    if AllFilled(before) {
      forall n, j | 0 <= n < |after| && 0 <= j < |after[n]|
        ensures after[n][j].Some?
      {
        if j < numaOffsets[n] {
          assert after[n][j] == after[n][..numaOffsets[n]][j];
        }
      }
    }
  }

  /**
   * Lines 51-66 of `TearDownIterationAll`: reserve each node's total at
   * the end of its container, then let every thread write its staged
   * objects at its own offset inside its node's reserved range, index
   * them, and clear its creation map.
   */
  method CommitNewObjects(all: seq<InPlaceExecutionContext>, numaOf: seq<nat>, rm: ResourceManager)
    returns (threadOffsets: seq<nat>, numaOffsets: seq<nat>, newPerNuma: seq<nat>,
             ghost sizes: seq<nat>, ghost staged: seq<map<Uid, SimObject>>)
    requires |numaOf| == |all| && AllDistinct(all)
    requires forall t :: 0 <= t < |numaOf| ==> numaOf[t] < |rm.stores|
    requires forall t :: 0 <= t < |all| ==> all[t].Valid()
    requires rm.Valid()
    modifies rm, all`newObjects
    ensures sizes == old(StagedSizes(all)) && staged == old(StagedMaps(all))
    ensures rm.Valid()
    ensures MergeLayout(old(rm.stores), rm.stores, numaOf, sizes, staged, threadOffsets, numaOffsets, newPerNuma)
    ensures rm.index == MergeStaged(old(rm.index), staged, |all|)
    ensures forall t :: 0 <= t < |all| ==> all[t].Valid() && all[t].newObjects == map[]
  {
    var counts := StagedSizes(all);
    var maps := StagedMaps(all);
    sizes, staged := counts, maps;
    threadOffsets, newPerNuma := ComputeThreadOffsets(counts, numaOf, |rm.stores|);
    numaOffsets := ReserveAll(rm, newPerNuma);
    ghost var reserved := rm.stores;
    CommitAll(rm, numaOf, counts, maps, threadOffsets, numaOffsets);
    ClearStaged(all);
    CommitLayout(old(rm.stores), reserved, rm.stores, rm.index, numaOf, counts, maps, threadOffsets, numaOffsets,
                 newPerNuma, old(rm.index));
  }

  /** The state a finished commit loop leaves is the layout `MergeLayout` describes. */
  lemma CommitLayout(before: seq<seq<Slot>>, reserved: seq<seq<Slot>>, after: seq<seq<Slot>>, index: map<Uid, SimObject>,
                     numaOf: seq<nat>, sizes: seq<nat>, staged: seq<map<Uid, SimObject>>, threadOffsets: seq<nat>,
                     numaOffsets: seq<nat>, newPerNuma: seq<nat>, index0: map<Uid, SimObject>)
    requires CommitInv(after, index, sizes, numaOf, staged, numaOffsets, reserved, index0, |sizes|)
    requires |threadOffsets| == |sizes| && |reserved| == |before| == |numaOffsets| == |newPerNuma|
    requires forall t :: 0 <= t < |sizes| ==> threadOffsets[t] == ThreadOffset(sizes, numaOf, t)
    requires forall n :: 0 <= n < |before| ==> newPerNuma[n] == NodeTotal(sizes, numaOf, n, |sizes|)
    requires forall n :: 0 <= n < |before| ==>
               numaOffsets[n] == |before[n]| && reserved[n] == before[n] + Reserved(newPerNuma[n])
    ensures MergeLayout(before, after, numaOf, sizes, staged, threadOffsets, numaOffsets, newPerNuma)
  {
    CommitInvDone(after, index, sizes, numaOf, staged, numaOffsets, reserved, index0);
    PrefixKept(before, reserved, after, numaOffsets, newPerNuma);
    BlocksAtOffsets(after, numaOf, sizes, staged, threadOffsets, numaOffsets);
  }

  /** The slots before each reservation are the node's slots from before the step. */
  lemma PrefixKept(before: seq<seq<Slot>>, reserved: seq<seq<Slot>>, after: seq<seq<Slot>>,
                   numaOffsets: seq<nat>, newPerNuma: seq<nat>)
    requires |reserved| == |before| == |after| == |numaOffsets| == |newPerNuma|
    requires forall n :: 0 <= n < |before| ==>
               numaOffsets[n] == |before[n]| && reserved[n] == before[n] + Reserved(newPerNuma[n])
    requires forall n :: 0 <= n < |after| ==>
               numaOffsets[n] <= |after[n]| && after[n][..numaOffsets[n]] == reserved[n][..numaOffsets[n]]
    ensures forall n :: 0 <= n < |after| ==> after[n][..numaOffsets[n]] == before[n]
  {
    forall n | 0 <= n < |after|
      ensures after[n][..numaOffsets[n]] == before[n]
    {
      assert reserved[n][..numaOffsets[n]] == before[n];
    }
  }

  /** Every thread's block, placed by its prefix-sum offset, is placed by the offset the loop computed. */
  lemma BlocksAtOffsets(after: seq<seq<Slot>>, numaOf: seq<nat>, sizes: seq<nat>, staged: seq<map<Uid, SimObject>>,
                        threadOffsets: seq<nat>, numaOffsets: seq<nat>)
    requires |numaOf| == |sizes| == |staged| == |threadOffsets|
    requires forall t :: 0 <= t < |numaOf| ==> numaOf[t] < |after| && numaOf[t] < |numaOffsets|
    requires forall t :: 0 <= t < |sizes| ==> threadOffsets[t] == ThreadOffset(sizes, numaOf, t)
    requires forall t :: 0 <= t < |sizes| ==>
               BlockHolds(after[numaOf[t]], numaOffsets[numaOf[t]] + ThreadOffset(sizes, numaOf, t), staged[t])
    ensures forall t :: 0 <= t < |sizes| ==>
              BlockHolds(after[numaOf[t]], numaOffsets[numaOf[t]] + threadOffsets[t], staged[t])
  {
    forall t | 0 <= t < |sizes|
      ensures BlockHolds(after[numaOf[t]], numaOffsets[numaOf[t]] + threadOffsets[t], staged[t])
    {
      assert threadOffsets[t] == ThreadOffset(sizes, numaOf, t);
    }
  }

  /**
   * The commit loop: thread `i` writes the objects of its creation map at
   * its offset in its node and indexes them. The threads write disjoint
   * ranges, so the order of the iterations does not matter.
   */
  method CommitAll(rm: ResourceManager, numaOf: seq<nat>, sizes: seq<nat>, staged: seq<map<Uid, SimObject>>,
                   threadOffsets: seq<nat>, numaOffsets: seq<nat>)
    requires |numaOf| == |sizes| == |staged| == |threadOffsets|
    requires forall t :: 0 <= t < |sizes| ==> sizes[t] == |staged[t]| && KeyedByUid(staged[t])
    requires forall t :: 0 <= t < |sizes| ==> threadOffsets[t] == ThreadOffset(sizes, numaOf, t)
    requires rm.Valid() && Laid(rm.stores, sizes, numaOf, numaOffsets)
    modifies rm
    ensures rm.Valid()
    ensures CommitInv(rm.stores, rm.index, sizes, numaOf, staged, numaOffsets, old(rm.stores), old(rm.index), |sizes|)
  {
    for i := 0 to |sizes|
      invariant rm.Valid()
      invariant CommitInv(rm.stores, rm.index, sizes, numaOf, staged, numaOffsets, old(rm.stores), old(rm.index), i)
    {
      CommitThread(rm, i, numaOf, sizes, staged, staged[i], threadOffsets, numaOffsets, old(rm.stores), old(rm.index));
    }
  }

  /** Clears the creation map of every context (line 65, for every thread). */
  method ClearStaged(all: seq<InPlaceExecutionContext>)
    modifies all`newObjects
    ensures forall t :: 0 <= t < |all| ==> all[t].newObjects == map[]
  {
    for i := 0 to |all|
      invariant forall t :: 0 <= t < i ==> all[t].newObjects == map[]
    {
      all[i].newObjects := map[];
    }
  }

  /** One thread's step of the commit loop: `AddNewSimObjects` at the thread's offset in its node. */
  method CommitThread(rm: ResourceManager, i: nat, numaOf: seq<nat>, sizes: seq<nat>, staged: seq<map<Uid, SimObject>>,
                      newObjects: map<Uid, SimObject>, threadOffsets: seq<nat>, numaOffsets: seq<nat>,
                      ghost stores0: seq<seq<Slot>>, ghost index0: map<Uid, SimObject>)
    requires |numaOf| == |sizes| == |staged| == |threadOffsets| && i < |sizes|
    requires newObjects == staged[i]
    requires forall t :: 0 <= t < |sizes| ==> sizes[t] == |staged[t]| && KeyedByUid(staged[t])
    requires threadOffsets[i] == ThreadOffset(sizes, numaOf, i)
    requires rm.Valid() && CommitInv(rm.stores, rm.index, sizes, numaOf, staged, numaOffsets, stores0, index0, i)
    modifies rm
    ensures rm.Valid() && CommitInv(rm.stores, rm.index, sizes, numaOf, staged, numaOffsets, stores0, index0, i + 1)
  {
    var nid := numaOf[i];
    var offset := threadOffsets[i] + numaOffsets[nid];
    ThreadRangeInNode(sizes, numaOf, i);
    ghost var before := rm.stores;
    ghost var beforeIndex := rm.index;
    rm.AddNewSimObjects(nid, offset, newObjects);
    CommitInvStep(before, rm.stores, beforeIndex, rm.index, sizes, numaOf, staged, numaOffsets,
                  stores0, index0, i, offset);
  }

  /** Reserves `newPerNuma[n]` slots at the end of every node `n`, returning where each reserve starts. */
  method ReserveAll(rm: ResourceManager, newPerNuma: seq<nat>) returns (numaOffsets: seq<nat>)
    requires |newPerNuma| == |rm.stores|
    modifies rm
    ensures |rm.stores| == |old(rm.stores)| == |numaOffsets| && rm.index == old(rm.index)
    ensures forall k :: 0 <= k < |rm.stores| ==>
              numaOffsets[k] == |old(rm.stores[k])| && rm.stores[k] == old(rm.stores[k]) + Reserved(newPerNuma[k])
  {
    numaOffsets := [];
    var n := 0;
    while n < |newPerNuma|
      invariant 0 <= n <= |newPerNuma| == |rm.stores| == |old(rm.stores)|
      invariant |numaOffsets| == n
      invariant forall k :: 0 <= k < n ==>
                  numaOffsets[k] == |old(rm.stores[k])| && rm.stores[k] == old(rm.stores[k]) + Reserved(newPerNuma[k])
      invariant forall k :: n <= k < |rm.stores| ==> rm.stores[k] == old(rm.stores[k])
      invariant rm.index == old(rm.index)
    {
      var offset := rm.GrowSoContainer(newPerNuma[n], n);
      numaOffsets := numaOffsets + [offset];
      n := n + 1;
    }
  }

  /**
   * The removal loop of one context: `rm.Remove` for every uid of the
   * list, in order. Afterwards every container is purged of these uids,
   * and none of them is indexed.
   */
  method RemoveAll(rm: ResourceManager, uids: seq<Uid>)
    requires rm.Valid()
    modifies rm
    ensures rm.Valid()
    ensures rm.index == old(rm.index) - Elements(uids)
    ensures PurgedFrom(rm.stores, old(rm.stores), Elements(uids))
  {
    ghost var stores0 := rm.stores;
    PurgedFromNothing(stores0);
    assert Elements(uids[..0]) == {};
    for k := 0 to |uids|
      invariant rm.Valid()
      invariant rm.index == old(rm.index) - Elements(uids[..k])
      invariant PurgedFrom(rm.stores, stores0, Elements(uids[..k]))
    {
      assert Elements(uids[..k + 1]) == Elements(uids[..k]) + {uids[k]} by {
        assert uids[..k + 1] == uids[..k] + [uids[k]];
      }
      ghost var before := rm.stores;
      rm.Remove(uids[k]);
      forall n | 0 <= n < |stores0|
        ensures rm.stores[n] == Purged(stores0[n], Elements(uids[..k + 1]))
      {
        PurgedWithout(stores0[n], Elements(uids[..k]), uids[k]);
      }
    }
    assert uids[..|uids|] == uids;
  }

  /** Purging of no uid keeps every container. */
  lemma PurgedFromNothing(stores: seq<seq<Slot>>)
    ensures PurgedFrom(stores, stores, {})
  {
    forall n | 0 <= n < |stores|
      ensures stores[n] == Purged(stores[n], {})
    {
      PurgedNothing(stores[n]);
    }
  }

  /** Purging in two rounds is purging once of both rounds' uids. */
  lemma PurgedFromTwice(s0: seq<seq<Slot>>, s1: seq<seq<Slot>>, s2: seq<seq<Slot>>, a: set<Uid>, b: set<Uid>)
    requires PurgedFrom(s1, s0, a) && PurgedFrom(s2, s1, b)
    ensures PurgedFrom(s2, s0, a + b)
  {
    forall n | 0 <= n < |s0|
      ensures s2[n] == Purged(s0[n], a + b)
    {
      PurgedTwice(s0[n], a, b);
    }
  }

  /**
   * Lines 68-78 of `TearDownIterationAll`: every context's removal list is
   * applied to the resource manager, in thread order, and then cleared.
   */
  method ApplyRemovals(all: seq<InPlaceExecutionContext>, rm: ResourceManager, ghost lists: seq<seq<Uid>>)
    requires AllDistinct(all) && rm.Valid()
    requires |lists| == |all| && forall t :: 0 <= t < |all| ==> all[t].remove == lists[t]
    modifies rm, all`remove
    ensures rm.Valid()
    ensures rm.index == old(rm.index) - RemovedUids(lists, |lists|)
    ensures PurgedFrom(rm.stores, old(rm.stores), RemovedUids(lists, |lists|))
    ensures forall t :: 0 <= t < |all| ==> all[t].remove == []
    ensures forall t :: 0 <= t < |all| ==> all[t].newObjects == old(all[t].newObjects)
  {
    ghost var stores0 := rm.stores;
    PurgedFromNothing(stores0);
    for i := 0 to |all|
      invariant rm.Valid()
      invariant forall t :: 0 <= t < i ==> all[t].remove == []
      invariant forall t :: i <= t < |all| ==> all[t].remove == lists[t]
      invariant rm.index == old(rm.index) - RemovedUids(lists, i)
      invariant PurgedFrom(rm.stores, stores0, RemovedUids(lists, i))
    {
      var ctxt := all[i];
      ghost var before := rm.stores;
      RemoveAll(rm, ctxt.remove);
      PurgedFromTwice(stores0, before, rm.stores, RemovedUids(lists, i), Elements(lists[i]));
      ctxt.remove := [];
    }
  }

  /**
   * `TearDownIterationAll`: the step-end merge. Every thread's staged
   * objects are written at its offset inside the range reserved, once per
   * NUMA node, for that node's new objects, and indexed; then every
   * removal list is applied. Afterwards every context is drained. The
   * offsets, the node totals and the bases returned by `GrowSoContainer`
   * are returned so that their arithmetic can be stated; `committed` is
   * the containers between the two phases.
   */
  method TearDownIterationAll(all: seq<InPlaceExecutionContext>, numaOf: seq<nat>, rm: ResourceManager)
    returns (threadOffsets: seq<nat>, numaOffsets: seq<nat>, newPerNuma: seq<nat>,
             ghost sizes: seq<nat>, ghost staged: seq<map<Uid, SimObject>>, ghost lists: seq<seq<Uid>>,
             ghost committed: seq<seq<Slot>>)
    requires |numaOf| == |all| && AllDistinct(all)
    requires forall t :: 0 <= t < |numaOf| ==> numaOf[t] < |rm.stores|
    requires forall t :: 0 <= t < |all| ==> all[t].Valid()
    requires rm.Valid()
    modifies rm, all`newObjects, all`remove
    ensures sizes == old(StagedSizes(all)) && staged == old(StagedMaps(all)) && lists == old(RemovalLists(all))
    // the insertions: one reservation per node, every thread's objects at its offset
    ensures MergeLayout(old(rm.stores), committed, numaOf, sizes, staged, threadOffsets, numaOffsets, newPerNuma)
    // the removals, after all insertions
    ensures rm.Valid() && PurgedFrom(rm.stores, committed, RemovedUids(lists, |lists|))
    ensures rm.index == MergeStaged(old(rm.index), staged, |all|) - RemovedUids(lists, |lists|)
    ensures forall u :: u in RemovedUids(lists, |lists|) ==> u !in rm.index && rm.NotStored(u)
    ensures old(rm.Filled()) ==> rm.Filled()
    // every context drained
    ensures forall t :: 0 <= t < |all| ==> all[t].Valid() && all[t].newObjects == map[] && all[t].remove == []
  {
    lists := RemovalLists(all);
    threadOffsets, numaOffsets, newPerNuma, sizes, staged := CommitNewObjects(all, numaOf, rm);
    committed := rm.stores;
    MergeLayoutFilled(old(rm.stores), committed, numaOf, sizes, staged, threadOffsets, numaOffsets, newPerNuma);
    ApplyRemovals(all, rm, lists);
    PurgedFromFacts(rm.stores, committed, RemovedUids(lists, |lists|));
  }

  /** `SetupIterationAll`: the first step may start with uncommitted changes, so it runs the same merge. */
  method SetupIterationAll(all: seq<InPlaceExecutionContext>, numaOf: seq<nat>, rm: ResourceManager)
    returns (threadOffsets: seq<nat>, numaOffsets: seq<nat>, newPerNuma: seq<nat>,
             ghost sizes: seq<nat>, ghost staged: seq<map<Uid, SimObject>>, ghost lists: seq<seq<Uid>>,
             ghost committed: seq<seq<Slot>>)
    requires |numaOf| == |all| && AllDistinct(all)
    requires forall t :: 0 <= t < |numaOf| ==> numaOf[t] < |rm.stores|
    requires forall t :: 0 <= t < |all| ==> all[t].Valid()
    requires rm.Valid()
    modifies rm, all`newObjects, all`remove
    ensures sizes == old(StagedSizes(all)) && staged == old(StagedMaps(all)) && lists == old(RemovalLists(all))
    ensures MergeLayout(old(rm.stores), committed, numaOf, sizes, staged, threadOffsets, numaOffsets, newPerNuma)
    ensures rm.Valid() && PurgedFrom(rm.stores, committed, RemovedUids(lists, |lists|))
    ensures rm.index == MergeStaged(old(rm.index), staged, |all|) - RemovedUids(lists, |lists|)
    ensures forall u :: u in RemovedUids(lists, |lists|) ==> u !in rm.index && rm.NotStored(u)
    ensures old(rm.Filled()) ==> rm.Filled()
    ensures forall t :: 0 <= t < |all| ==> all[t].Valid() && all[t].newObjects == map[] && all[t].remove == []
  {
    threadOffsets, numaOffsets, newPerNuma, sizes, staged, lists, committed := TearDownIterationAll(all, numaOf, rm);
  }
}
