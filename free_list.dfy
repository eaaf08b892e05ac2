/**
 * The free list of the memory manager, run sequentially: nodes with
 * `next` links and a list whose head is the first free node. The atomics
 * of the lock-free implementation are not modelled; every operation here
 * is one atomic step.
 */
module FreeList {

  /** A recyclable memory block; `next` links it to the following free node. */
  class Node {
    var next: Node?

    constructor ()
      ensures next == null
    {
      next := null;
    }
  }

  function Min(a: nat, b: nat): (m: nat)
  {
    if a <= b then a else b
  }

  /** No node occurs twice in `chain`. */
  ghost predicate Distinct(chain: seq<Node>)
  {
    forall i, j :: 0 <= i < j < |chain| ==> chain[i] != chain[j]
  }

  /** Each node of `chain` links to the one after it. */
  ghost predicate Linked(chain: seq<Node>)
    reads set x | x in chain
  {
    forall i :: 0 <= i < |chain| - 1 ==> chain[i].next == chain[i + 1]
  }

  /** `chain` is exactly the null-terminated list of nodes reached from `first`. */
  ghost predicate ChainFrom(first: Node?, chain: seq<Node>)
    reads set x | x in chain
  {
    && Linked(chain)
    && Distinct(chain)
    && (chain == [] ==> first == null)
    && (chain != [] ==> first == chain[0] && chain[|chain| - 1].next == null)
  }

  class List {
    var head: Node?

    /** The free nodes, in the order `Pop` hands them out. */
    ghost var Contents: seq<Node>
    /** The nodes this list owns. */
    ghost var Repr: set<Node>

    ghost predicate Valid()
      reads this, Repr
    {
      Repr == (set x | x in Contents) && ChainFrom(head, Contents)
    }

    /** A new list holds no node. */
    constructor ()
      ensures Valid() && Contents == []
    {
      head := null;
      Contents := [];
      Repr := {};
    }

    /** True exactly when no free node remains. */
    predicate Empty()
      requires Valid()
      reads this, Repr
      ensures Empty() <==> Contents == []
    {
      head == null
    }

    /**
     * Puts the linked chain `h`..`t` (the nodes of `segment`) in front of
     * the list. On a non-empty list `t` is linked to the old first node;
     * an empty list adopts `h` as its head and so holds every node reached
     * from `h`, including those past `t` (the nodes of `beyond`).
     */
    method Push(h: Node, t: Node, ghost segment: seq<Node>, ghost beyond: seq<Node>)
      requires Valid()
      requires |segment| > 0 && segment[0] == h && segment[|segment| - 1] == t
      requires Linked(segment) && Distinct(segment)
      requires forall x :: x in segment ==> x !in Repr
      requires Contents == [] ==> ChainFrom(h, segment + beyond)
      modifies this, t
      ensures Valid()
      ensures Contents == if old(Contents) == [] then segment + beyond else segment + old(Contents)
      ensures old(Contents) != [] ==> t.next == old(head)
    {
      if head == null {
        Contents := segment + beyond;
      } else {
        ghost var rest := Contents;
        assert t in segment;
        assert forall k :: 0 <= k < |rest| ==> rest[k] in Repr && rest[k] != t;
        t.next := head;
        Contents := segment + rest;
        assert Linked(Contents) by {
          forall i | 0 <= i < |Contents| - 1
            ensures Contents[i].next == Contents[i + 1]
          {
            if i < |segment| - 1 {
              assert segment[i] != t;
            } else if i >= |segment| {
              assert Contents[i] == rest[i - |segment|];
            }
          }
        }
        assert Distinct(Contents) by {
          forall i, j | 0 <= i < j < |Contents|
            ensures Contents[i] != Contents[j]
          {
            if i < |segment| <= j {
              assert Contents[j] == rest[j - |segment|];
            }
          }
        }
      }
      head := h;
      Repr := set x | x in Contents;
    }

    /** Takes the first node off the list, or returns null on an empty list. */
    method Pop() returns (r: Node?)
      requires Valid()
      modifies this
      ensures Valid()
      ensures old(Contents) == [] ==> r == null && Contents == []
      ensures old(Contents) != [] ==> r == old(Contents)[0] && Contents == old(Contents)[1..]
    {
      r := head;
      if head != null {
        head := head.next;
        Contents := Contents[1..];
        Repr := set x | x in Contents;
      }
    }

    /**
     * Takes the first min(n, |Contents|) nodes off the list, in order, and
     * reports the first and the last of them; both are null when nothing
     * is taken. The taken nodes stay linked from `first` to `last`.
     */
    method PopNThreadSafe(n: nat) returns (first: Node?, last: Node?)
      requires Valid()
      modifies this
      ensures Valid()
      ensures Min(n, |old(Contents)|) == 0 ==> first == null && last == null
      ensures Min(n, |old(Contents)|) > 0 ==>
                first == old(Contents)[0] && last == old(Contents)[Min(n, |old(Contents)|) - 1]
      ensures Contents == old(Contents)[Min(n, |old(Contents)|)..]
      ensures Linked(old(Contents)[..Min(n, |old(Contents)|)])
    {
      if n == 0 || head == null {
        return null, null;
      }
      var cur := head;
      var i := 1;
      while i < n && cur.next != null
        invariant 1 <= i <= n && i <= |Contents|
        invariant cur == Contents[i - 1]
        invariant cur.next == if i < |Contents| then Contents[i] else null
        invariant Valid() && Contents == old(Contents)
      {
        cur := cur.next;
        i := i + 1;
      }
      assert i == Min(n, |Contents|);
      first, last := head, cur;
      head := cur.next;
      Contents := Contents[i..];
      Repr := set x | x in Contents;
    }
  }

  /** Four fresh nodes linked n1 -> n2 -> n3 -> n4, as every `ListTest` case builds them. */
  method FourNodes() returns (n1: Node, n2: Node, n3: Node, n4: Node)
    ensures fresh(n1) && fresh(n2) && fresh(n3) && fresh(n4)
    ensures n1.next == n2 && n2.next == n3 && n3.next == n4 && n4.next == null
  {
    n1 := new Node();
    n2 := new Node();
    n3 := new Node();
    n4 := new Node();
    n1.next := n2;
    n2.next := n3;
    n3.next := n4;
  }

  /**
   * `ListTest.PushPopEmpty`: the chain is pushed with n3 as its tail, yet
   * n4 is still popped after n3. `empty` records every `Empty()` the test
   * checks and `popped` every `Pop()` result, in order.
   */
  method PushPopEmptyScenario() returns (n1: Node, n2: Node, n3: Node, n4: Node, popped: seq<Node?>, empty: seq<bool>)
    ensures popped == [n1, n2, n3, n4, null]
    ensures empty == [true, false, false, false, false, true]
  {
    var l := new List();
    n1, n2, n3, n4 := FourNodes();
    var e0 := l.Empty();
    assert [n1, n2, n3] + [n4] == [n1, n2, n3, n4];
    l.Push(n1, n3, [n1, n2, n3], [n4]);
    var e1 := l.Empty();
    popped, empty := DrainFour(l);
    empty := [e0, e1] + empty;
  }

  /** The pops of `ListTest.PushPopEmpty`, each followed by the `Empty()` check the test makes. */
  method DrainFour(l: List) returns (popped: seq<Node?>, empty: seq<bool>)
    requires l.Valid() && |l.Contents| == 4
    modifies l
    ensures popped == [old(l.Contents)[0], old(l.Contents)[1], old(l.Contents)[2], old(l.Contents)[3], null]
    ensures empty == [false, false, false, true]
  {
    var p1 := l.Pop();
    var e1 := l.Empty();
    var p2 := l.Pop();
    var e2 := l.Empty();
    var p3 := l.Pop();
    var e3 := l.Empty();
    var p4 := l.Pop();
    var e4 := l.Empty();
    var p5 := l.Pop();
    popped := [p1, p2, p3, p4, p5];
    empty := [e1, e2, e3, e4];
  }

  /** `ListTest.PopNThreadSafe_Less`: three of four nodes are taken and n4 stays. */
  method PopNLessScenario() returns (n1: Node, n3: Node, n4: Node, first: Node?, last: Node?, emptyAfter: bool, next: Node?, emptyEnd: bool)
    ensures first == n1 && last == n3
    ensures !emptyAfter && next == n4 && emptyEnd
  {
    var l := new List();
    var n2;
    n1, n2, n3, n4 := FourNodes();
    l.Push(n1, n4, [n1, n2, n3, n4], []);
    first, last := l.PopNThreadSafe(3);
    emptyAfter := l.Empty();
    next := l.Pop();
    emptyEnd := l.Empty();
  }

  /** `ListTest.PopNThreadSafe_More`: asking for eight of four nodes takes all four. */
  method PopNMoreScenario() returns (n1: Node, n4: Node, first: Node?, last: Node?, emptyAfter: bool)
    ensures first == n1 && last == n4 && emptyAfter
  {
    var l := new List();
    var n2, n3;
    n1, n2, n3, n4 := FourNodes();
    l.Push(n1, n4, [n1, n2, n3, n4], []);
    first, last := l.PopNThreadSafe(8);
    emptyAfter := l.Empty();
  }

  /** `ListTest.PopNThreadSafe_Equal`: asking for exactly four of four nodes takes all four. */
  method PopNEqualScenario() returns (n1: Node, n4: Node, first: Node?, last: Node?, emptyAfter: bool)
    ensures first == n1 && last == n4 && emptyAfter
  {
    var l := new List();
    var n2, n3;
    n1, n2, n3, n4 := FourNodes();
    l.Push(n1, n4, [n1, n2, n3, n4], []);
    first, last := l.PopNThreadSafe(4);
    emptyAfter := l.Empty();
  }
}
