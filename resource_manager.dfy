/**
 * The global object store, as far as the step-end merge uses it: a
 * uid -> object index and one slot sequence per NUMA node. It is a
 * collaborator of the execution context; only the four operations the
 * merge and the lookup call are modelled.
 */
module ResourceManagers {
  import opened SimObjects

  /** A slot of a node's store: `None` while reserved and not yet filled. */
  type Slot = Option<SimObject>

  /** `count` reserved slots, none of them filled yet. */
  function Reserved(count: nat): (s: seq<Slot>)
    ensures |s| == count
    ensures forall j :: 0 <= j < count ==> s[j] == None
  {
    seq(count, _ => None)
  }

  /** The slot holds the object with this uid. */
  predicate Holds(slot: Slot, uid: Uid)
  {
    slot.Some? && slot.value.uid == uid
  }

  /** The slots of `s` with every object of this uid taken out, the others kept in order. */
  function Without(s: seq<Slot>, uid: Uid): (r: seq<Slot>)
    ensures forall j :: 0 <= j < |r| ==> !Holds(r[j], uid) && r[j] in s
    ensures forall j :: 0 <= j < |s| && !Holds(s[j], uid) ==> s[j] in r
  {
    if s == [] then []
    else (if Holds(s[0], uid) then [] else [s[0]]) + Without(s[1..], uid)
  }

  /** Taking one uid out of two joined slot sequences takes it out of each. */
  lemma {:induction false} WithoutConcat(a: seq<Slot>, b: seq<Slot>, uid: Uid)
    ensures Without(a + b, uid) == Without(a, uid) + Without(b, uid)
  {
    if a == [] {
      assert a + b == b;
    } else {
      var first := if Holds(a[0], uid) then [] else [a[0]];
      assert (a + b)[0] == a[0] && (a + b)[1..] == a[1..] + b;
      calc {
        Without(a + b, uid);
        first + Without(a[1..] + b, uid);
        { WithoutConcat(a[1..], b, uid); }
        first + (Without(a[1..], uid) + Without(b, uid));
        (first + Without(a[1..], uid)) + Without(b, uid);
        Without(a, uid) + Without(b, uid);
      }
    }
  }

  /** The slot holds an object whose uid is one of `gone`. */
  predicate HoldsAny(slot: Slot, gone: set<Uid>)
  {
    slot.Some? && slot.value.uid in gone
  }

  /**
   * The slots of `s` with every object whose uid is in `gone` taken out,
   * the others kept in order: a container after all these uids are removed.
   */
  function Purged(s: seq<Slot>, gone: set<Uid>): seq<Slot>
  {
    if s == [] then []
    else (if HoldsAny(s[0], gone) then [] else [s[0]]) + Purged(s[1..], gone)
  }

  /**
   * Removing the uids one at a time is removing them all at once: taking
   * `uid` out of a purged container purges it of one more uid.
   */
  lemma {:induction false} PurgedWithout(s: seq<Slot>, gone: set<Uid>, uid: Uid)
    ensures Without(Purged(s, gone), uid) == Purged(s, gone + {uid})
  {
    if s != [] {
      var first := if HoldsAny(s[0], gone) then [] else [s[0]];
      PurgedWithout(s[1..], gone, uid);
      WithoutConcat(first, Purged(s[1..], gone), uid);
      assert first != [] ==> Without(first, uid) == (if Holds(s[0], uid) then [] else [s[0]]) + Without([], uid);
    }
  }

  /** Purging twice is purging once of both sets of uids. */
  lemma {:induction false} PurgedTwice(s: seq<Slot>, a: set<Uid>, b: set<Uid>)
    ensures Purged(Purged(s, a), b) == Purged(s, a + b)
  {
    if s != [] {
      PurgedTwice(s[1..], a, b);
      PurgedConcat(if HoldsAny(s[0], a) then [] else [s[0]], Purged(s[1..], a), b);
    }
  }

  /** Purging two joined slot sequences purges each. */
  lemma {:induction false} PurgedConcat(x: seq<Slot>, y: seq<Slot>, gone: set<Uid>)
    ensures Purged(x + y, gone) == Purged(x, gone) + Purged(y, gone)
  {
    if x == [] {
      assert x + y == y;
    } else {
      var first := if HoldsAny(x[0], gone) then [] else [x[0]];
      assert (x + y)[0] == x[0] && (x + y)[1..] == x[1..] + y;
      calc {
        Purged(x + y, gone);
        first + Purged(x[1..] + y, gone);
        { PurgedConcat(x[1..], y, gone); }
        first + (Purged(x[1..], gone) + Purged(y, gone));
        (first + Purged(x[1..], gone)) + Purged(y, gone);
      }
    }
  }

  /** Every slot of a purged container is a slot of the original that holds none of the purged uids. */
  lemma {:induction false} PurgedSound(s: seq<Slot>, gone: set<Uid>, j: nat)
    requires j < |Purged(s, gone)|
    ensures !HoldsAny(Purged(s, gone)[j], gone) && Purged(s, gone)[j] in s
  {
    var first := if HoldsAny(s[0], gone) then [] else [s[0]];
    assert Purged(s, gone) == first + Purged(s[1..], gone);
    if j >= |first| {
      PurgedSound(s[1..], gone, j - |first|);
    }
  }

  /** No reserved slot of any node is left unfilled. */
  predicate AllFilled(stores: seq<seq<Slot>>)
  {
    forall n, j :: 0 <= n < |stores| && 0 <= j < |stores[n]| ==> stores[n][j].Some?
  }

  /** No slot of any node holds an object with this uid. */
  predicate Absent(stores: seq<seq<Slot>>, uid: Uid)
  {
    forall n, j :: 0 <= n < |stores| && 0 <= j < |stores[n]| ==> !Holds(stores[n][j], uid)
  }

  /** `now` is every container of `before` purged of the uids `gone`. */
  ghost predicate PurgedFrom(now: seq<seq<Slot>>, before: seq<seq<Slot>>, gone: set<Uid>)
  {
    |now| == |before| && forall n :: 0 <= n < |before| ==> now[n] == Purged(before[n], gone)
  }

  /**
   * After a purge no container holds a purged uid, and containers without
   * empty slots stay without empty slots.
   */
  lemma PurgedFromFacts(now: seq<seq<Slot>>, before: seq<seq<Slot>>, gone: set<Uid>)
    requires PurgedFrom(now, before, gone)
    ensures forall u :: u in gone ==> Absent(now, u)
    ensures AllFilled(before) ==> AllFilled(now)
  {
    forall n, j | 0 <= n < |now| && 0 <= j < |now[n]|
      ensures !HoldsAny(now[n][j], gone) && now[n][j] in before[n]
    {
      PurgedSound(before[n], gone, j);
    }
  }

  /** Purging no uid keeps every slot. */
  lemma {:induction false} PurgedNothing(s: seq<Slot>)
    ensures Purged(s, {}) == s
  {
    if s != [] {
      PurgedNothing(s[1..]);
    }
  }

  /**
   * The slots `offset` .. `offset + |m|` of `s` hold exactly the objects of
   * `m`: every slot holds an object of `m`, no two slots the same one, and
   * every object of `m` is in one of them.
   */
  ghost predicate BlockHolds(s: seq<Slot>, offset: nat, m: map<Uid, SimObject>)
  {
    && offset + |m| <= |s|
    && (forall j :: offset <= j < offset + |m| ==>
          s[j].Some? && s[j].value.uid in m && m[s[j].value.uid] == s[j].value)
    && (forall j, j' :: offset <= j < j' < offset + |m| ==> s[j] != s[j'])
    && (forall u {:trigger Placed(s, offset, m, u)} :: u in m ==> Placed(s, offset, m, u))
  }

  /** The object of `m` under `u` is in one of the slots `offset` .. `offset + |m|` of `s`. */
  ghost predicate Placed(s: seq<Slot>, offset: nat, m: map<Uid, SimObject>, u: Uid)
    requires offset + |m| <= |s| && u in m
  {
    Some(m[u]) in s[offset..offset + |m|]
  }

  /** A block is a property of its own slots only: slots outside it may change. */
  lemma BlockHoldsFrame(s: seq<Slot>, s': seq<Slot>, offset: nat, m: map<Uid, SimObject>, hi: nat)
    requires BlockHolds(s, offset, m) && offset + |m| <= hi <= |s| && hi <= |s'|
    requires s'[..hi] == s[..hi]
    ensures BlockHolds(s', offset, m)
  {
    assert forall j :: 0 <= j < hi ==> s'[j] == s'[..hi][j] == s[..hi][j] == s[j];
    assert s'[offset..offset + |m|] == s[offset..offset + |m|];
    forall u | u in m
      ensures Placed(s', offset, m, u)
    {
      assert Placed(s, offset, m, u);
    }
  }

  /** The keys of `m`, each once, in an unspecified order: the iteration order of an unordered map. */
  method EnumerateKeys(m: map<Uid, SimObject>) returns (order: seq<Uid>)
    ensures |order| == |m|
    ensures forall k, k' :: 0 <= k < k' < |order| ==> order[k] != order[k']
    ensures forall u :: u in m <==> u in order
  {
    var rest := m.Keys;
    order := [];
    while rest != {}
      invariant rest <= m.Keys
      invariant forall u :: u in m ==> (u in rest <==> u !in order)
      invariant forall k :: 0 <= k < |order| ==> order[k] in m
      invariant forall k, k' :: 0 <= k < k' < |order| ==> order[k] != order[k']
      invariant |order| + |rest| == |m|
      decreases rest
    {
      var u :| u in rest;
      order := order + [u];
      rest := rest - {u};
    }
  }

  /**
   * Slots filled with the objects of `m` in the order of a key
   * enumeration hold exactly the objects of `m`.
   */
  lemma BlockFromOrder(r: seq<Slot>, offset: nat, m: map<Uid, SimObject>, order: seq<Uid>)
    requires KeyedByUid(m) && offset + |m| <= |r| && |order| == |m|
    requires forall k, k' :: 0 <= k < k' < |order| ==> order[k] != order[k']
    requires forall u :: u in m <==> u in order
    requires forall k :: 0 <= k < |order| ==> r[offset + k] == Some(m[order[k]])
    ensures BlockHolds(r, offset, m)
  {
    forall j | offset <= j < offset + |m|
      ensures r[j].Some? && r[j].value.uid in m && m[r[j].value.uid] == r[j].value
    {
      assert r[offset + (j - offset)] == Some(m[order[j - offset]]);
    }
    forall j, j' | offset <= j < j' < offset + |m|
      ensures r[j] != r[j']
    {
      assert r[offset + (j - offset)] == Some(m[order[j - offset]]);
      assert r[offset + (j' - offset)] == Some(m[order[j' - offset]]);
    }
    forall u | u in m
      ensures Placed(r, offset, m, u)
    {
      var k :| 0 <= k < |order| && order[k] == u;
      assert r[offset..offset + |m|][k] == r[offset + k];
    }
  }

  /**
   * The slot loop of `AddNewSimObjects`: the objects of `m`, taken in any
   * order, fill the slots from `offset` on; every other slot is kept.
   */
  method FillBlock(slots: seq<Slot>, offset: nat, m: map<Uid, SimObject>) returns (r: seq<Slot>)
    requires offset + |m| <= |slots| && KeyedByUid(m)
    ensures |r| == |slots|
    ensures r[..offset] == slots[..offset]
    ensures r[offset + |m|..] == slots[offset + |m|..]
    ensures BlockHolds(r, offset, m)
  {
    var order := EnumerateKeys(m);
    r := slots;
    for i := 0 to |order|
      invariant |r| == |slots|
      invariant forall j :: 0 <= j < |r| && !(offset <= j < offset + i) ==> r[j] == slots[j]
      invariant forall k :: 0 <= k < i ==> r[offset + k] == Some(m[order[k]])
    {
      r := r[offset + i := Some(m[order[i]])];
    }
    assert r[..offset] == slots[..offset];
    assert r[offset + |m|..] == slots[offset + |m|..];
    BlockFromOrder(r, offset, m, order);
  }

  class ResourceManager {
    /** `GetSimObject`'s view: which object each uid names. */
    var index: map<Uid, SimObject>
    /** One object container per NUMA node. */
    var stores: seq<seq<Slot>>

    ghost predicate Valid()
      reads this
    {
      KeyedByUid(index)
    }

    constructor (numaNodes: nat)
      ensures Valid() && index == map[]
      ensures |stores| == numaNodes && forall n :: 0 <= n < numaNodes ==> stores[n] == []
    {
      index := map[];
      stores := seq(numaNodes, _ => []);
    }

    /** The object with this uid, or null. */
    function GetSimObject(uid: Uid): (r: Option<SimObject>)
      reads this
      ensures r.Some? <==> uid in index
      ensures r.Some? ==> r.value == index[uid]
    {
      if uid in index then Some(index[uid]) else None
    }

    /** No reserved slot is left unfilled. */
    predicate Filled()
      reads this
    {
      AllFilled(stores)
    }

    /** No slot of any node holds an object with this uid. */
    predicate NotStored(uid: Uid)
      reads this
    {
      Absent(stores, uid)
    }

    /** Reserves `count` slots at the end of node `n`'s container and returns where they start. */
    method GrowSoContainer(count: nat, n: nat) returns (offset: nat)
      requires n < |stores|
      modifies this
      ensures offset == |old(stores[n])|
      ensures stores == old(stores)[n := old(stores[n]) + Reserved(count)]
      ensures index == old(index)
    {
      offset := |stores[n]|;
      stores := stores[n := stores[n] + Reserved(count)];
    }

    /**
     * Writes the objects of `m` into node `nid`'s slots from `offset` on,
     * in the map's (unspecified) iteration order, and indexes them.
     */
    method AddNewSimObjects(nid: nat, offset: nat, m: map<Uid, SimObject>)
      requires Valid() && KeyedByUid(m)
      requires nid < |stores| && offset + |m| <= |stores[nid]|
      modifies this
      ensures Valid()
      ensures index == old(index) + m
      ensures |stores| == |old(stores)|
      ensures forall n :: 0 <= n < |stores| && n != nid ==> stores[n] == old(stores[n])
      ensures |stores[nid]| == |old(stores[nid])|
      ensures stores[nid][..offset] == old(stores[nid])[..offset]
      ensures stores[nid][offset + |m|..] == old(stores[nid])[offset + |m|..]
      ensures BlockHolds(stores[nid], offset, m)
    {
      var slots := FillBlock(stores[nid], offset, m);
      stores := stores[nid := slots];
      index := index + m;
    }

    /** Drops the object with this uid, if any, from the index and from every node's container. */
    method Remove(uid: Uid)
      requires Valid()
      modifies this
      ensures Valid()
      ensures index == old(index) - {uid}
      ensures |stores| == |old(stores)|
      ensures forall n :: 0 <= n < |stores| ==> stores[n] == Without(old(stores[n]), uid)
      ensures NotStored(uid)
      ensures forall v :: old(NotStored(v)) ==> NotStored(v)
      ensures old(Filled()) ==> Filled()
    {
      index := index - {uid};
      var old_stores := stores;
      stores := seq(|old_stores|, n requires 0 <= n < |old_stores| => Without(old_stores[n], uid));
      forall v | old(NotStored(v))
        ensures NotStored(v)
      {
        forall n, j | 0 <= n < |stores| && 0 <= j < |stores[n]|
          ensures !Holds(stores[n][j], v)
        {
          var i :| 0 <= i < |old_stores[n]| && old_stores[n][i] == stores[n][j];
        }
      }
    }
  }
}
