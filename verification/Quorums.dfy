/** Majorities of a fixed cluster whose nodes are numbered 0 to n - 1. */
module Quorums {

  function Majority(n: nat): nat {
    n / 2 + 1
  }

  predicate Quorum(q: set<nat>, n: nat) {
    (forall i | i in q :: i < n) && |q| >= Majority(n)
  }

  lemma {:induction false} AtMost(q: set<nat>, n: nat)
    requires forall i | i in q :: i < n
    ensures |q| <= n
    decreases n
  {
    if n == 0 {
      assert q == {};
    } else {
      AtMost(q - {n - 1}, n - 1);
    }
  }

  /** Any two majorities share a node: the fact behind both election and commit safety. */
  lemma QuorumsMeet(a: set<nat>, b: set<nat>, n: nat) returns (common: nat)
    requires Quorum(a, n) && Quorum(b, n)
    ensures common in a && common in b && common < n
  {
    AtMost(a + b, n);
    assert |a + b| + |a * b| == |a| + |b|;
    common :| common in a * b;
  }
}
