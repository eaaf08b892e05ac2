/**
 * Values shared by the execution context, the resource manager and
 * SoPointer: unsigned 64-bit uids, an optional result, simulation objects
 * as the core sees them, and the pairs a neighbour search streams.
 */
module SimObjects {

  /** The range of C++ `uint64_t`. */
  newtype uint64 = x: int | 0 <= x < 0x1_0000_0000_0000_0000

  /** `SoUid`: the stable identity of a simulation object. */
  type Uid = uint64

  /** `std::numeric_limits<uint64_t>::max()`, the uid that stands for nullptr. */
  const MaxUid: Uid := 0xFFFF_FFFF_FFFF_FFFF

  /** A pointer that may be nullptr: `None` is the null pointer. */
  datatype Option<T> = None | Some(value: T)

  /** The name of a C++ class deriving from SimObject. */
  type TypeName = string

  /**
   * A simulation object: its uid and the names of the classes it is an
   * instance of (its own class and all its bases). `dynamic_cast` to a
   * class succeeds exactly when that class is among `types`.
   */
  datatype SimObject = SimObject(uid: Uid, types: set<TypeName>)

  predicate IsA(so: SimObject, target: TypeName)
  {
    target in so.types
  }

  /** One element of a neighbour stream: a neighbour and its squared distance. */
  datatype Neighbor = Neighbor(so: SimObject, squaredDistance: real)

  /** Every entry is stored under its own uid, as `new_sim_objects_[so->GetUid()]` does. */
  ghost predicate KeyedByUid(m: map<Uid, SimObject>)
  {
    forall u :: u in m ==> m[u].uid == u
  }
}
