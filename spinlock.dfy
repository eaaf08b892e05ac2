/**
 * The spinlock as a two-state machine: free or held. Busy-waiting in
 * `lock` is modelled by its precondition that the lock is free, since a
 * sequential caller could otherwise never return.
 */
module Spinlocks {

  class Spinlock {
    /** True while some thread holds the lock (the atomic flag is set). */
    var held: bool

    /** A new lock is free. */
    constructor ()
      ensures !held
    {
      held := false;
    }

    /** Test-and-set: succeeds exactly when the lock was free; the lock is held afterwards either way. */
    method TryLock() returns (acquired: bool)
      modifies this
      ensures acquired == !old(held)
      ensures held
    {
      acquired := !held;
      held := true;
    }

    /** Spins until the lock is acquired; sequentially, the lock must be free. */
    method Lock()
      requires !held
      modifies this
      ensures held
    {
      held := true;
    }

    /** Only the holder unlocks; afterwards the lock is free. */
    method Unlock()
      requires held
      modifies this
      ensures !held
    {
      held := false;
    }
  }

  /**
   * The sequence of calls of `SpinlockTest.All`: the results of its four
   * `try_lock` calls, in order.
   */
  method SpinlockScenario() returns (first: bool, second: bool, third: bool, fourth: bool)
    ensures first && !second && third && !fourth
  {
    var lock := new Spinlock();
    first := lock.TryLock();
    second := lock.TryLock();
    lock.Unlock();
    third := lock.TryLock();
    lock.Unlock();
    lock.Lock();
    fourth := lock.TryLock();
    lock.Unlock();
  }
}
