/**
 * The arithmetic of the step-end merge: every thread stages some number of
 * new objects, every thread belongs to one NUMA node, and each thread gets
 * a write offset inside the region reserved for its node. The functions
 * here are the specification the merge's accumulator loop is proved
 * against; the lemmas state what the offsets guarantee.
 */
module NumaOffsets {

  /**
   * The number of objects staged by the threads below `k` that run on
   * node `n`: `sizes[t]` is what thread `t` staged, `numaOf[t]` its node.
   */
  function NodeTotal(sizes: seq<nat>, numaOf: seq<nat>, n: nat, k: nat): nat
    requires |numaOf| == |sizes| && k <= |sizes|
  {
    if k == 0 then 0
    else NodeTotal(sizes, numaOf, n, k - 1) + (if numaOf[k - 1] == n then sizes[k - 1] else 0)
  }

  /** Where thread `t` writes inside its node's region: what its node's lower threads staged. */
  function ThreadOffset(sizes: seq<nat>, numaOf: seq<nat>, t: nat): nat
    requires |numaOf| == |sizes| && t < |sizes|
  {
    NodeTotal(sizes, numaOf, numaOf[t], t)
  }

  /** All objects staged by the threads below `k`, whatever their node. */
  function Staged(sizes: seq<nat>, k: nat): nat
    requires k <= |sizes|
  {
    if k == 0 then 0 else Staged(sizes, k - 1) + sizes[k - 1]
  }

  /** The node totals of nodes below `nodes`, added up. */
  function AllNodes(sizes: seq<nat>, numaOf: seq<nat>, nodes: nat, k: nat): nat
    requires |numaOf| == |sizes| && k <= |sizes|
  {
    if nodes == 0 then 0
    else AllNodes(sizes, numaOf, nodes - 1, k) + NodeTotal(sizes, numaOf, nodes - 1, k)
  }

  /** A node's running total never decreases as more threads are counted. */
  lemma {:induction false} NodeTotalMonotone(sizes: seq<nat>, numaOf: seq<nat>, n: nat, j: nat, k: nat)
    requires |numaOf| == |sizes| && j <= k <= |sizes|
    ensures NodeTotal(sizes, numaOf, n, j) <= NodeTotal(sizes, numaOf, n, k)
  {
    if j < k {
      NodeTotalMonotone(sizes, numaOf, n, j, k - 1);
    }
  }

  /**
   * Two threads of one node write disjoint ranges, the lower-numbered
   * thread's range entirely before the other's.
   */
  lemma ThreadRangesDisjoint(sizes: seq<nat>, numaOf: seq<nat>, t: nat, u: nat)
    requires |numaOf| == |sizes| && t < u < |sizes| && numaOf[t] == numaOf[u]
    ensures ThreadOffset(sizes, numaOf, t) + sizes[t] <= ThreadOffset(sizes, numaOf, u)
  {
    NodeTotalMonotone(sizes, numaOf, numaOf[t], t + 1, u);
  }

  /** Every thread's range lies inside the region its node reserves. */
  lemma ThreadRangeInNode(sizes: seq<nat>, numaOf: seq<nat>, t: nat)
    requires |numaOf| == |sizes| && t < |sizes|
    ensures ThreadOffset(sizes, numaOf, t) + sizes[t] <= NodeTotal(sizes, numaOf, numaOf[t], |sizes|)
  {
    NodeTotalMonotone(sizes, numaOf, numaOf[t], t + 1, |sizes|);
  }

  /**
   * The ranges leave no gap: every position below a node's total belongs
   * to the range of some thread of that node, returned as `t`.
   */
  lemma {:induction false} CoveringThread(sizes: seq<nat>, numaOf: seq<nat>, n: nat, k: nat, p: nat) returns (t: nat)
    requires |numaOf| == |sizes| && k <= |sizes|
    requires p < NodeTotal(sizes, numaOf, n, k)
    ensures t < k && numaOf[t] == n
    ensures ThreadOffset(sizes, numaOf, t) <= p < ThreadOffset(sizes, numaOf, t) + sizes[t]
  {
    if p < NodeTotal(sizes, numaOf, n, k - 1) {
      t := CoveringThread(sizes, numaOf, n, k - 1, p);
    } else {
      t := k - 1;
    }
  }

  /** Counting one more thread adds its objects to exactly its own node's total. */
  lemma {:induction false} AllNodesStep(sizes: seq<nat>, numaOf: seq<nat>, nodes: nat, k: nat)
    requires |numaOf| == |sizes| && k < |sizes|
    ensures AllNodes(sizes, numaOf, nodes, k + 1)
            == AllNodes(sizes, numaOf, nodes, k) + (if numaOf[k] < nodes then sizes[k] else 0)
  {
    if nodes > 0 {
      AllNodesStep(sizes, numaOf, nodes - 1, k);
    }
  }

  /**
   * When every thread runs on one of `nodes` nodes, the node totals add up
   * to the number of objects staged by all threads: the merge reserves
   * room for every staged object and for nothing else.
   */
  lemma {:induction false} NodeTotalsAddUp(sizes: seq<nat>, numaOf: seq<nat>, nodes: nat, k: nat)
    requires |numaOf| == |sizes| && k <= |sizes|
    requires forall t :: 0 <= t < |numaOf| ==> numaOf[t] < nodes
    ensures AllNodes(sizes, numaOf, nodes, k) == Staged(sizes, k)
  {
    if k == 0 {
      AllNodesZero(sizes, numaOf, nodes);
    } else {
      NodeTotalsAddUp(sizes, numaOf, nodes, k - 1);
      AllNodesStep(sizes, numaOf, nodes, k - 1);
    }
  }

  /** Before any thread is counted, every node total is zero. */
  lemma {:induction false} AllNodesZero(sizes: seq<nat>, numaOf: seq<nat>, nodes: nat)
    requires |numaOf| == |sizes|
    ensures AllNodes(sizes, numaOf, nodes, 0) == 0
  {
    if nodes > 0 {
      AllNodesZero(sizes, numaOf, nodes - 1);
    }
  }
}
