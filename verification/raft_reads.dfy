/** The commit rule and the read barrier, on every run. */
module RaftReads {
  import opened RaftTypes
  import opened RaftLog
  import opened NodeSpec
  import opened ClusterSpec
  import opened History
  import opened Relation
  import opened RelationVotes
  import opened RelationAppend
  import opened RelationApply
  import opened RunHistory
  import opened RaftSafety
  import Quorums

  // ---------------------------------------------------------------------------
  // The commit rule picks the highest index it may
  // ---------------------------------------------------------------------------

  /** What section 5.4.2 of the Raft paper allows a leader to commit: an entry of its own term
      that it and enough others to make a majority of the servers are known to hold. */
  ghost predicate MayCommit(n: Node, servers: set<Id>, idx: nat)
    requires Wf(n.log)
  {
    idx > n.commit && TermAt(n.log, idx) == Some(n.term) && Quorums.Majority(servers, {n.id} + Acked(n, idx))
  }

  lemma EnoughAcks(n: Node, servers: set<Id>, idx: nat)
    requires PeersOf(n.peers, n.id, servers) && n.id in servers
    ensures 1 + |Acked(n, idx)| >= Majority(n) <==> Quorums.Majority(servers, {n.id} + Acked(n, idx))
  {
    hide Majority, Quorums.Majority;
    var t := {n.id} + Acked(n, idx);
    assert forall p :: p in Acked(n, idx) ==> p in Elems(n.peers);
    assert |t| == 1 + |Acked(n, idx)|;
    CountIsMajority(n, n.id, servers, t);
  }

  /** Terms do not decrease along the whole log, sentinel included, nor exceed the server's term. */
  ghost predicate Ordered(n: Node)
  {
    Wf(n.log) && Sorted(n.log) && n.log[|n.log| - 1].term <= n.term
  }

  /** Stopping at the first entry of another term loses nothing. */
  lemma {:induction false} ScanIsHighest(n: Node, servers: set<Id>, idx: nat)
    requires Ordered(n) && idx <= Last(n.log) && First(n.log) <= n.commit
    requires PeersOf(n.peers, n.id, servers) && n.id in servers
    ensures var c := CommitScan(n, idx);
      (c == n.commit || MayCommit(n, servers, c)) && forall x :: c < x <= idx ==> !MayCommit(n, servers, x)
    decreases idx
  {
    hide Majority, Quorums.Majority, Acked;
    if idx > n.commit {
      if TermAt(n.log, idx) == Some(n.term) {
        EnoughAcks(n, servers, idx);
        if 1 + |Acked(n, idx)| < Majority(n) { ScanIsHighest(n, servers, idx - 1); }
      } else {
        forall x | n.commit < x <= idx
          ensures TermAt(n.log, x) != Some(n.term)
        {
          assert n.log[x - First(n.log)].term <= n.log[idx - First(n.log)].term <= n.log[|n.log| - 1].term;
        }
      }
    }
  }

  lemma LeaderOrdered(c: Cluster, h: Hist, v: Id)
    requires Explains(c, h) && v in c.nodes && c.nodes[v].node.role == Leader
    ensures Ordered(c.nodes[v].node) && First(c.nodes[v].node.log) <= c.nodes[v].node.commit
  {
    hide Inv, Rel, NodeRel, Grows, Valid, Committed, CursorRel, MatchRel;
    Explained(c, h, v);
    LeaderIs(c, h, v);
    CursorParts(c.nodes[v], h.cp[v]);
    var n := c.nodes[v].node;
    CleanSorted(n.log, h.virt[v], h.cp[v]);
    LastOfVirtual(n.log, h.virt[v], h.cp[v]);
    VirtShape(h, v) by { InvParts(h); }
  }

  lemma CleanSorted(log: seq<Entry>, L: seq<Entry>, K: seq<Entry>)
    requires LogRel(log, L, K) && K <= L && Shape(L)
    ensures Sorted(log)
  {
    forall i, j | 0 <= i < j < |log|
      ensures log[i].term <= log[j].term
    {
      assert log[j] == L[First(log) + j - 1];
      if i > 0 { assert log[i] == L[First(log) + i - 1]; }
    }
  }

  lemma WhoIs(c: Cluster, h: Hist, v: Id)
    requires Explains(c, h) && v in c.nodes
    ensures c.nodes[v].node.id == v && v in c.servers && PeersOf(c.nodes[v].node.peers, v, c.servers)
  {
    hide Inv, NodeRel, PeersOf, TallyRel, RpcRel, ReplyRel;
    RelParts(c, h, v);
    NodeParts(c.nodes[v], h, v);
  }

  /** In every reachable state a leader that applies the commit rule commits exactly the highest
      index the rule allows, or nothing if it allows none. */
  lemma CommitRuleExact(run: seq<Cluster>, i: nat, v: Id)
    requires IsRun(run) && At(run, i, v) && NodeAt(run, i, v).role == Leader
    ensures var n := NodeAt(run, i, v);
      Wf(n.log) && n.id == v && var c := AdvanceCommit(n).commit;
      (c == n.commit || MayCommit(n, run[i].servers, c)) && forall x :: x > c ==> !MayCommit(n, run[i].servers, x)
  {
    hide Inv, Rel, IsRun, Grows, Acked, Majority, Quorums.Majority, PeersOf;
    var h, k, top := TwoHistories(run, i, i);
    LeaderOrdered(run[i], h, v);
    WhoIs(run[i], h, v);
    ScanIsHighest(NodeAt(run, i, v), run[i].servers, Last(NodeAt(run, i, v).log));
  }

  // ---------------------------------------------------------------------------
  // ReadIndex without the lease
  // ---------------------------------------------------------------------------

  /** In the step after state `j`, server `w` accepts an AppendEntries of term `T` and says so. */
  ghost predicate Confirms(run: seq<Cluster>, j: nat, w: Id, T: nat)
  {
    j + 1 < |run| && ConfirmsAcross(run[j], run[j + 1], w, T)
  }

  ghost predicate ConfirmsAcross(c: Cluster, d: Cluster, w: Id, T: nat)
  {
    exists rpc, recent :: ConfirmsBy(c, d, rpc, recent, w, T)
  }

  ghost predicate ConfirmsBy(c: Cluster, d: Cluster, rpc: Rpc, recent: bool, w: Id, T: nat)
  {
    Moves(c, Do(Serve(rpc, recent)), d) && rpc.to == w && rpc.req.AskAppend? &&
    var o := HandleAppend(c.nodes[w].node, rpc.req.append);
    o.resp.success && o.resp.term == T
  }

  lemma ConfirmedTerm(c: Cluster, d: Cluster, rpc: Rpc, recent: bool, w: Id, T: nat)
    requires ConfirmsBy(c, d, rpc, recent, w, T)
    ensures w in d.nodes && d.nodes[w].node.term == T
  {
    hide FirstNew, ConflictHint;
  }

  /** No entry of an earlier term lies above the commit index: the leader either has nothing
      that might be committed without its knowing, or only its own proposals. */
  predicate OnlyOwnAbove(n: Node)
    requires Wf(n.log)
  {
    forall x :: n.commit < x <= Last(n.log) ==> TermAt(n.log, x) == Some(n.term)
  }

  /** The read barrier: a leader of term `T` samples its commit index in state `i`, at a moment
      when no entry of an earlier term lies above it; a majority, itself included, then
      confirms `T`. The index sampled, and so any index returned that is no lower, is at least
      every commit index any server had up to that moment. */
  lemma ReadIndexSafe(run: seq<Cluster>, i: nat, v: Id, acks: set<Id>, m: nat, w: Id)
    requires IsRun(run) && At(run, i, v) && NodeAt(run, i, v).role == Leader && Wf(NodeAt(run, i, v).log)
    requires OnlyOwnAbove(NodeAt(run, i, v))
    requires Quorums.Majority(run[i].servers, acks)
    requires forall x :: x in acks && x != v ==> exists j :: i <= j && Confirms(run, j, x, NodeAt(run, i, v).term)
    requires m <= i && At(run, m, w)
    ensures NodeAt(run, m, w).commit <= NodeAt(run, i, v).commit
  {
    hide Inv, Rel, IsRun, Grows, NodeRel, LogRel, CursorRel, Valid, Shape, Committed, MatchRel, Confirms;
    var hs := RunHasHistory(run);
    var h, g := hs[i], hs[m];
    var n := NodeAt(run, i, v);
    Explained(run[m], g, w);
    CursorParts(run[m].nodes[w], g.cp[w]);
    CommittedGrows(g, h, g.cp[w], g.term[w], g.term[w]);
    if g.cp[w] != [] {
      var U := WhoCommitted(h, g.cp[w], g.term[w]);
      LeaderIs(run[i], h, v);
      NoLaterLeader(run, hs, i, v, acks, U);
      LeaderCoversEarlier(run[i], h, v, U);
    }
  }

  /** The same in the terms the server counts in: `acks` are the peers whose heartbeat came
      back in favour, and the index returned may be a later commit index of the same
      leadership. */
  lemma ConfirmedReadSafe(run: seq<Cluster>, i: nat, v: Id, acks: set<Id>, returned: nat, m: nat, w: Id)
    requires IsRun(run) && At(run, i, v) && NodeAt(run, i, v).role == Leader && Wf(NodeAt(run, i, v).log)
    requires OnlyOwnAbove(NodeAt(run, i, v))
    requires acks <= Elems(NodeAt(run, i, v).peers) && 2 * (1 + |acks|) > 1 + |NodeAt(run, i, v).peers|
    requires forall x :: x in acks ==> exists j :: i <= j && Confirms(run, j, x, NodeAt(run, i, v).term)
    requires NodeAt(run, i, v).commit <= returned && m <= i && At(run, m, w)
    ensures NodeAt(run, m, w).commit <= returned
  {
    hide Inv, Rel, IsRun, Grows, NodeRel, LogRel, CursorRel, Valid, Shape, Committed, Confirms, PeersOf;
    var h, k, top := TwoHistories(run, i, i);
    Explained(run[i], h, v);
    SameServersAs(run[i], h);
    NodeParts(run[i].nodes[v], h, v);
    WithSelf(NodeAt(run, i, v), v, h.servers, acks);
    ReadIndexSafe(run, i, v, acks + {v}, m, w);
  }

  /** A local read: once the reading server's state machine contains as many entries as the
      index returned, it contains everything any state machine contained when the index was
      sampled. */
  lemma LocalReadSees(run: seq<Cluster>, i: nat, v: Id, acks: set<Id>, returned: nat, r: nat, m: nat, w: Id)
    requires IsRun(run) && At(run, i, v) && NodeAt(run, i, v).role == Leader && Wf(NodeAt(run, i, v).log)
    requires OnlyOwnAbove(NodeAt(run, i, v))
    requires acks <= Elems(NodeAt(run, i, v).peers) && 2 * (1 + |acks|) > 1 + |NodeAt(run, i, v).peers|
    requires forall x :: x in acks ==> exists j :: i <= j && Confirms(run, j, x, NodeAt(run, i, v).term)
    requires NodeAt(run, i, v).commit <= returned && At(run, r, v) && returned <= |run[r].nodes[v].app|
    requires m <= i && At(run, m, w)
    ensures run[m].nodes[w].app <= run[r].nodes[v].app
  {
    hide Inv, Rel, IsRun, Grows, NodeRel, LogRel, Valid, Shape, Committed, Confirms, FeedRel, FedAll;
    ConfirmedReadSafe(run, i, v, acks, returned, m, w);
    ContainsCommitted(run, m, w);
    var a, b := run[m].nodes[w].app, run[r].nodes[v].app;
    forall x | 0 <= x < |a|
      ensures a[x] == b[x]
    {
      StateMachineSafety(run, m, w, r, v, x);
    }
  }

  /** A state machine contains nothing that is not committed on its server. */
  lemma ContainsCommitted(run: seq<Cluster>, m: nat, w: Id)
    requires IsRun(run) && At(run, m, w)
    ensures |run[m].nodes[w].app| <= NodeAt(run, m, w).commit
  {
    hide Inv, Rel, IsRun, Grows, NodeRel, LogRel, Valid, Shape, Committed, FedAll;
    var h, k, top := TwoHistories(run, m, m);
    Explained(run[m], h, w);
  }

  /** The state machine contains what `lastApplied` says if and only if nothing is on its way
      up to it; otherwise it contains less. */
  lemma DeliveredExactly(run: seq<Cluster>, r: nat, v: Id)
    requires IsRun(run) && At(run, r, v)
    ensures |run[r].nodes[v].app| <= NodeAt(run, r, v).applied
    ensures |run[r].nodes[v].app| == NodeAt(run, r, v).applied <==>
      run[r].nodes[v].queue == [] && NodeAt(run, r, v).pending == None
  {
    hide Inv, Rel, IsRun, Grows, NodeRel, LogRel, Valid, Shape, Committed, FeedRel;
    var h, k, top := TwoHistories(run, r, r);
    Explained(run[r], h, v);
    FedBelow(run[r].nodes[v].app, run[r].nodes[v].queue, h.cp[v]);
  }

  lemma WithSelf(n: Node, v: Id, servers: set<Id>, acks: set<Id>)
    requires PeersOf(n.peers, v, servers) && v in servers && acks <= Elems(n.peers) && 2 * (1 + |acks|) > 1 + |n.peers|
    ensures Quorums.Majority(servers, acks + {v})
  {
    DistinctSize(n.peers);
    assert v !in Elems(n.peers) && servers == Elems(n.peers) + {v};
  }

  lemma LeaderCoversEarlier(c: Cluster, h: Hist, v: Id, U: nat)
    requires Explains(c, h) && v in c.nodes && c.nodes[v].node.role == Leader && Wf(c.nodes[v].node.log)
    requires OnlyOwnAbove(c.nodes[v].node)
    requires U in h.commits && U <= c.nodes[v].node.term
    ensures h.commits[U] <= c.nodes[v].node.commit
  {
    hide Inv, Rel, Grows, NodeRel, LogRel, CursorRel, Valid, Shape, Committed, MatchRel;
    var n := c.nodes[v].node;
    LeaderIs(c, h, v);
    Explained(c, h, v);
    CursorParts(c.nodes[v], h.cp[v]);
    LogRelWf(n.log, h.virt[v], h.cp[v]);
    forall y | n.commit <= y < |h.virt[v]|
      ensures h.virt[v][y].term == n.term
    {
      TermAtVirtual(n.log, h.virt[v], h.cp[v], y + 1);
    }
    EarlierCommits(h, n.term, U, n.commit) by { InvParts(h); LeaderCommit(n, h, v); }
  }

  lemma LeaderCommit(n: Node, h: Hist, v: Id)
    requires Basic(h) && LeaderRel(n, h, v)
    ensures n.term in h.llog && (n.term in h.commits ==> h.commits[n.term] <= n.commit)
  {
  }

  lemma WhoCommitted(h: Hist, L: seq<Entry>, t: nat) returns (U: nat)
    requires Committed(h, L, t) && L != []
    ensures U in h.commits && U in h.llog && |L| <= h.commits[U]
  {
    U :| CommittedBy(h, L, t, U);
  }

  /** No leader of a later term was elected before the leadership was confirmed. */
  lemma NoLaterLeader(run: seq<Cluster>, hs: seq<Hist>, i: nat, v: Id, acks: set<Id>, U: nat)
    requires |hs| == |run| && (forall a :: 0 <= a < |run| ==> Explains(run[a], hs[a]))
    requires forall a, b :: 0 <= a <= b < |run| ==> Grows(hs[a], hs[b])
    requires At(run, i, v) && Quorums.Majority(run[i].servers, acks)
    requires forall x :: x in acks && x != v ==> exists j :: i <= j && Confirms(run, j, x, NodeAt(run, i, v).term)
    requires U in hs[i].llog
    ensures U <= NodeAt(run, i, v).term
  {
    hide Inv, Rel, Grows, NodeRel, LogRel, CursorRel, Valid, Shape, Committed, Confirms;
    var h := hs[i];
    Explained(run[i], h, v);
    SameServersAs(run[i], h);
    var x := LaterVoter(h, acks, U) by { InvParts(h); }
    if x != v {
      var j :| i <= j && Confirms(run, j, x, NodeAt(run, i, v).term);
      TermThen(run, hs, j, x, NodeAt(run, i, v).term);
      TermGrows(h, hs[j + 1], x);
    }
  }

  lemma SameServersAs(c: Cluster, h: Hist)
    requires Explains(c, h)
    ensures c.servers == h.servers
  {
    hide Inv, NodeRel, RpcRel, ReplyRel, TallyRel;
  }

  lemma LaterVoter(h: Hist, acks: set<Id>, U: nat) returns (x: Id)
    requires Basic(h) && ElectionsOk(h) && U in h.llog && Quorums.Majority(h.servers, acks)
    ensures x in acks && x in h.servers && h.term[x] >= U
  {
    x := Quorums.Overlap(h.servers, acks, Voters(h, U, h.leader[U]));
  }

  lemma TermThen(run: seq<Cluster>, hs: seq<Hist>, j: nat, x: Id, T: nat)
    requires |hs| == |run| && (forall a :: 0 <= a < |run| ==> Explains(run[a], hs[a]))
    requires Confirms(run, j, x, T)
    ensures j + 1 < |run| && x in hs[j + 1].term && hs[j + 1].term[x] == T
  {
    hide Inv, Rel, Grows, NodeRel, LogRel, CursorRel, Valid, Shape, Committed, ConfirmsBy;
    var rpc: Rpc, recent: bool :| ConfirmsBy(run[j], run[j + 1], rpc, recent, x, T);
    ConfirmedTerm(run[j], run[j + 1], rpc, recent, x, T);
    assert Explains(run[j + 1], hs[j + 1]);
    Explained(run[j + 1], hs[j + 1], x);
  }

  lemma TermGrows(h: Hist, k: Hist, x: Id)
    requires Grows(h, k) && x in h.term
    ensures x in k.term && h.term[x] <= k.term[x]
  {
  }

  /** Commits of earlier terms do not lie above `r` if only entries of the leader's own do. */
  lemma EarlierCommits(h: Hist, T: nat, U: nat, r: nat)
    requires Basic(h) && CommitsOk(h) && Complete(h) && U in h.commits && U <= T && T in h.llog
    requires T in h.commits ==> h.commits[T] <= r
    requires forall y :: r <= y < |h.llog[T]| ==> h.llog[T][y].term == T
    ensures h.commits[U] <= r
  {
    hide Majority, Quorums.Majority;
    if U < T {
      CommitsArePossible(h, U);
      assert Agree(h.llog[U], h.llog[T], h.commits[U]);
    }
  }

  /** In particular the barrier is safe as soon as an entry of the leader's own term is
      committed: terms are ordered along the log. */
  lemma OwnTermIsEnough(run: seq<Cluster>, i: nat, v: Id)
    requires IsRun(run) && At(run, i, v) && NodeAt(run, i, v).role == Leader && Wf(NodeAt(run, i, v).log)
    requires TermAt(NodeAt(run, i, v).log, NodeAt(run, i, v).commit) == Some(NodeAt(run, i, v).term)
    ensures OnlyOwnAbove(NodeAt(run, i, v))
  {
    hide Inv, Rel, IsRun, Grows;
    var h, k, top := TwoHistories(run, i, i);
    LeaderOrdered(run[i], h, v);
    var n := NodeAt(run, i, v);
    var f := First(n.log);
    forall x | n.commit < x <= Last(n.log)
      ensures TermAt(n.log, x) == Some(n.term)
    {
      assert n.log[n.commit - f].term <= n.log[x - f].term <= n.log[|n.log| - 1].term;
    }
  }
}
