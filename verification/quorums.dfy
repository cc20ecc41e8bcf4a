/** Majorities of a fixed set of servers and the two facts Raft needs of them. */
module Quorums {

  predicate Majority(servers: set<nat>, q: set<nat>)
  {
    q <= servers && 2 * |q| > |servers|
  }

  lemma SubsetSize<T>(a: set<T>, b: set<T>)
    requires a <= b
    ensures |a| <= |b|
  {
    assert b == a + (b - a);
  }

  /** Any two majorities share a server. */
  lemma Overlap(servers: set<nat>, p: set<nat>, q: set<nat>) returns (v: nat)
    requires Majority(servers, p) && Majority(servers, q)
    ensures v in p && v in q && v in servers
  {
    if p * q == {} {
      SubsetSize(p + q, servers);
    }
    v :| v in p * q;
  }

  lemma Widen(servers: set<nat>, p: set<nat>, q: set<nat>)
    requires Majority(servers, p) && p <= q <= servers
    ensures Majority(servers, q)
  {
    SubsetSize(p, q);
  }
}
