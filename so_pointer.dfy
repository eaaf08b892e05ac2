/**
 * `SoPointer<T>`: a handle to a simulation object that holds only the
 * object's uid, so that it stays valid when the object is moved to another
 * NUMA domain. The uid `MaxUid` stands for nullptr. Every use resolves the
 * uid through the execution context of the calling thread.
 *
 * The C++ template parameter is kept as the pointer's `pointee` type name;
 * `DynamicCast<TCast>` yields a pointer whose `pointee` is `TCast`.
 */
module SoPointers {
  import opened SimObjects
  import opened ExecutionContext
  import opened ResourceManagers

  datatype SoPointer = SoPointer(pointee: TypeName, uid: Uid)

  /** The default constructor: a pointer that represents nullptr. */
  function NullPointer(pointee: TypeName): (p: SoPointer)
    ensures p.pointee == pointee && IsNull(p)
  {
    SoPointer(pointee, MaxUid)
  }

  /** `SoPointer(uid)`: a pointer to the object with this uid. */
  function FromUid(pointee: TypeName, uid: Uid): (p: SoPointer)
    ensures GetUid(p) == uid && p.pointee == pointee
    ensures IsNull(p) <==> uid == MaxUid
  {
    SoPointer(pointee, uid)
  }

  /** The uid the pointer holds. */
  function GetUid(p: SoPointer): (u: Uid)
    ensures SoPointer(p.pointee, u) == p
  {
    p.uid
  }

  /** `p == nullptr`. */
  predicate IsNull(p: SoPointer)
    ensures IsNull(p) <==> p == SoPointer(p.pointee, MaxUid)
  {
    p.uid == MaxUid
  }

  /** `p != nullptr`: the negation of `p == nullptr`. */
  predicate IsNotNull(p: SoPointer)
    ensures IsNotNull(p) <==> GetUid(p) != MaxUid
  {
    !IsNull(p)
  }

  /** `operator bool`: whether the pointer is not the null uid. */
  predicate ToBool(p: SoPointer)
    ensures ToBool(p) <==> IsNotNull(p)
  {
    p.uid != MaxUid
  }

  /** `p == q` for two pointers of the same type: they hold the same uid. */
  predicate Equal(p: SoPointer, q: SoPointer)
    requires p.pointee == q.pointee
    ensures Equal(p, q) <==> p == q
  {
    p.uid == q.uid
  }

  /** `p != q` for two pointers of the same type. */
  predicate NotEqual(p: SoPointer, q: SoPointer)
    requires p.pointee == q.pointee
    ensures NotEqual(p, q) <==> !Equal(p, q)
  {
    p.uid != q.uid
  }

  /** `p == so` (by reference or by pointer): the pointer holds the object's uid. */
  predicate EqualObject(p: SoPointer, so: SimObject)
    ensures EqualObject(p, so) <==> p == FromUid(p.pointee, so.uid)
  {
    p.uid == so.uid
  }

  /** `p != so`: the negation of `p == so`. */
  predicate NotEqualObject(p: SoPointer, so: SimObject)
    ensures NotEqualObject(p, so) <==> GetUid(p) != so.uid
  {
    !EqualObject(p, so)
  }

  /** `p = nullptr`: the pointer afterwards, of the same type, represents nullptr. */
  function AssignNull(p: SoPointer): (r: SoPointer)
    ensures r.pointee == p.pointee && IsNull(r)
  {
    SoPointer(p.pointee, MaxUid)
  }

  /**
   * What `DynamicCast<target>` returns when the context resolves the
   * pointer's uid to `found`: null for a null pointer, for a miss and for
   * an object that is not a `target`; otherwise a `target` pointer to the
   * same uid.
   */
  function CastResult(p: SoPointer, target: TypeName, found: Option<SimObject>): (r: SoPointer)
  {
    if IsNull(p) then NullPointer(target)
    else if found.None? || !IsA(found.value, target) then NullPointer(target)
    else SoPointer(target, p.uid)
  }

  /**
   * `DynamicCast<target>`: a null pointer stays null without a lookup;
   * otherwise the uid is resolved through the calling thread's context
   * `ctxt` (its own creation map, the resource manager, all contexts) and
   * the result is null unless the object found is a `target`.
   */
  method DynamicCast(p: SoPointer, target: TypeName, ctxt: InPlaceExecutionContext, rm: ResourceManager,
                     all: seq<InPlaceExecutionContext>) returns (r: SoPointer)
    ensures r.pointee == target
    ensures IsNull(p) ==> IsNull(r)
    ensures !IsNull(r) <==>
              !IsNull(p) && Resolve(ctxt.View(rm, all), p.uid).Some?
              && IsA(Resolve(ctxt.View(rm, all), p.uid).value, target)
    ensures !IsNull(r) ==> r.uid == p.uid
    ensures r == CastResult(p, target, Resolve(ctxt.View(rm, all), p.uid))
  {
    if p.uid == MaxUid {
      return SoPointer(target, MaxUid);
    }
    var so := ctxt.GetSimObject(p.uid, rm, all);
    if so.None? || target !in so.value.types {
      return SoPointer(target, MaxUid);
    }
    r := SoPointer(target, p.uid);
  }

  /** A default-constructed pointer compares equal to nullptr and holds the largest uid. */
  lemma DefaultIsNull(pointee: TypeName)
    ensures IsNull(NullPointer(pointee)) && GetUid(NullPointer(pointee)) == MaxUid
    ensures !ToBool(NullPointer(pointee))
  {
  }

  /** The constructor and `GetUid` are inverse: the uid put in is the uid read out. */
  lemma UidRoundTrip(pointee: TypeName, uid: Uid)
    ensures GetUid(FromUid(pointee, uid)) == uid
    ensures FromUid(pointee, GetUid(FromUid(pointee, uid))) == FromUid(pointee, uid)
  {
  }

  /** `operator bool`, `!= nullptr` and `== nullptr` agree: the first two are the negation of the third. */
  lemma BoolIsNotNull(p: SoPointer)
    ensures ToBool(p) <==> !IsNull(p)
    ensures IsNotNull(p) <==> !IsNull(p)
  {
  }

  /** Assigning nullptr yields null whatever the uid was, and assigning it twice is assigning it once. */
  lemma AssignNullIdempotent(p: SoPointer)
    ensures IsNull(AssignNull(p)) && AssignNull(AssignNull(p)) == AssignNull(p)
    ensures AssignNull(p) == NullPointer(p.pointee)
  {
  }

  /**
   * Pointer equality is uid equality, `!=` is its negation, and two
   * pointers of one type are equal exactly when they are the same value.
   */
  lemma EqualityIsUidEquality(p: SoPointer, q: SoPointer)
    requires p.pointee == q.pointee
    ensures Equal(p, q) <==> GetUid(p) == GetUid(q)
    ensures NotEqual(p, q) <==> !Equal(p, q)
    ensures Equal(p, q) <==> p == q
  {
  }

  /** Comparing with an object compares with that object's uid: a pointer made from it is equal to it. */
  lemma EqualObjectIsUid(pointee: TypeName, so: SimObject, p: SoPointer)
    ensures EqualObject(FromUid(pointee, so.uid), so)
    ensures NotEqualObject(p, so) <==> GetUid(p) != so.uid
  {
  }

  /**
   * The cast's outcomes: null in, null out; a miss or an object of
   * another type gives null; a hit on a `target` keeps the uid.
   */
  lemma CastCases(p: SoPointer, target: TypeName, found: Option<SimObject>)
    ensures CastResult(p, target, found).pointee == target
    ensures IsNull(p) ==> IsNull(CastResult(p, target, found))
    ensures !IsNull(p) && (found.None? || !IsA(found.value, target)) ==> IsNull(CastResult(p, target, found))
    ensures !IsNull(p) && found.Some? && IsA(found.value, target) ==> CastResult(p, target, found) == SoPointer(target, p.uid)
  {
  }

  /** Casting again to the same type, against the same lookup, changes nothing. */
  lemma CastIdempotent(p: SoPointer, target: TypeName, found: Option<SimObject>)
    ensures CastResult(CastResult(p, target, found), target, found) == CastResult(p, target, found)
  {
  }

  /**
   * `LockWrapper`: what the non-const `operator->` returns. While it
   * lives, the context holds one more reference to the object's lock;
   * the lock is named by the object's uid.
   */
  class LockWrapper {
    const ctxt: InPlaceExecutionContext?
    const so: SimObject

    /** Adds the object's lock to the context, when there is a context. */
    constructor (ctxt: InPlaceExecutionContext?, so: SimObject)
      modifies ctxt
      ensures this.ctxt == ctxt && this.so == so
      ensures ctxt != null ==> ctxt.locks == old(ctxt.locks) + multiset{so.uid}
      ensures ctxt != null ==> unchanged(ctxt`newObjects, ctxt`remove, ctxt`neighborCache)
    {
      this.ctxt := ctxt;
      this.so := so;
      new;
      if ctxt != null {
        ctxt.AddLock(so.uid);
      }
    }

    /** The destructor: removes the same lock from the same context. */
    method Destroy()
      modifies ctxt
      ensures ctxt != null ==> ctxt.locks == old(ctxt.locks) - multiset{so.uid}
      ensures ctxt != null ==> unchanged(ctxt`newObjects, ctxt`remove, ctxt`neighborCache)
    {
      if ctxt != null {
        ctxt.RemoveLock(so.uid);
      }
    }
  }

  /**
   * The const `operator->` (and `operator*` through it): resolves the uid
   * through the calling thread's context and casts to the pointer's own
   * type; the result is the object when it is found and is of that type.
   * The source asserts that the pointer is not null.
   */
  method Get(p: SoPointer, ctxt: InPlaceExecutionContext, rm: ResourceManager,
             all: seq<InPlaceExecutionContext>) returns (r: Option<SimObject>)
    requires !IsNull(p)
    ensures r.Some? <==> !IsNull(CastResult(p, p.pointee, Resolve(ctxt.View(rm, all), p.uid)))
    ensures r.Some? ==> r == Resolve(ctxt.View(rm, all), p.uid) && IsA(r.value, p.pointee)
  {
    r := ctxt.GetSimObject(p.uid, rm, all);
    if r.Some? && p.pointee !in r.value.types {
      r := None;
    }
  }

  /**
   * The non-const `operator->`: resolves the uid like `Get` and wraps the
   * object in a `LockWrapper`, which adds the object's lock to the context
   * for as long as the wrapper lives. The source asserts that the pointer
   * is not null; when the lookup or the cast fails it hands a null object
   * to the wrapper, which this model represents by returning no wrapper and
   * taking no lock.
   */
  method Arrow(p: SoPointer, ctxt: InPlaceExecutionContext, rm: ResourceManager,
               all: seq<InPlaceExecutionContext>) returns (w: LockWrapper?)
    requires !IsNull(p)
    modifies ctxt
    ensures var found := old(Resolve(ctxt.View(rm, all), p.uid));
            if found.Some? && IsA(found.value, p.pointee) then
              w != null && fresh(w) && w.ctxt == ctxt && w.so == found.value
              && ctxt.locks == old(ctxt.locks) + multiset{found.value.uid}
            else
              w == null && ctxt.locks == old(ctxt.locks)
    ensures unchanged(ctxt`newObjects, ctxt`remove, ctxt`neighborCache)
  {
    var so := Get(p, ctxt, rm, all);
    if so.Some? {
      w := new LockWrapper(ctxt, so.value);
    } else {
      w := null;
    }
  }

  /**
   * A `LockWrapper`'s whole lifetime, from construction to destruction:
   * the lock it adds is the lock it removes, so the context's lock
   * collection is the same afterwards.
   */
  method LockWrapperLifetime(ctxt: InPlaceExecutionContext?, so: SimObject)
    modifies ctxt
    ensures ctxt != null ==> ctxt.locks == old(ctxt.locks)
    ensures ctxt != null ==> unchanged(ctxt`newObjects, ctxt`remove, ctxt`neighborCache)
  {
    var w := new LockWrapper(ctxt, so);
    w.Destroy();
  }
}
