/** Why a leader that keeps retrying brings a follower up to date. */
module RaftProgress {
  import opened RaftTypes
  import opened RaftLog
  import opened NodeSpec
  import opened ClusterSpec
  import opened History
  import opened HistorySteps
  import opened Relation
  import opened RelationAppend
  import opened RunHistory
  import opened RaftSafety

  /** The consistency check of AppendEntries. */
  predicate Accepts(f: Node, q: AppendRequest)
    requires Wf(f.log)
  {
    f.term <= q.term && q.prevIndex <= Last(f.log) &&
    (q.prevIndex < First(f.log) || TermAt(f.log, q.prevIndex) == Some(q.prevTerm))
  }

  lemma SuccessIsAcceptance(f: Node, q: AppendRequest)
    requires Wf(f.log)
    ensures HandleAppend(f, q).resp.success <==> Accepts(f, q)
  {
    hide FirstNew, ConflictHint;
  }

  /** What a follower learns of the leader's commit index: as much of it as the request vouches
      for, and nothing from a request it refuses. */
  lemma CommitLearned(f: Node, q: AppendRequest)
    requires Wf(f.log)
    ensures HandleAppend(f, q).node.commit ==
      if Accepts(f, q) then Max(f.commit, Min(q.leaderCommit, q.prevIndex + |q.entries|)) else f.commit
  {
    hide FirstNew, ConflictHint;
  }

  // ---------------------------------------------------------------------------
  // A rejection always moves the leader back
  // ---------------------------------------------------------------------------

  /** What the follower reports when it rejects a request of a current leader. */
  lemma Rejection(f: Node, q: AppendRequest)
    requires Wf(f.log) && f.term <= q.term && !Accepts(f, q)
    ensures var a := HandleAppend(f, q).resp;
      a.term == q.term && !a.success && a.conflictIndex >= 1 &&
      if q.prevIndex > Last(f.log) then a.conflictTerm == 0 && a.conflictIndex == Last(f.log) + 1
      else
        First(f.log) <= q.prevIndex && TermAt(f.log, q.prevIndex) == Some(a.conflictTerm) &&
        a.conflictTerm != q.prevTerm && a.conflictIndex == ConflictHint(f.log, a.conflictTerm)
  {
    hide FirstNew, FirstOfTerm;
  }

  /** The entry the follower objects to is a real one, and the index it reports is no higher. */
  lemma RejectedPlace(r: Replica, h: Hist, p: Id, from: Id, q: AppendRequest)
    requires Basic(h) && Inv(h) && NodeRel(r, h, p) && AppendRpcRel(from, q, h) && Wf(r.node.log)
    requires r.node.term <= q.term && !Accepts(r.node, q) && q.prevIndex <= Last(r.node.log)
    ensures var t := HandleAppend(r.node, q).resp.conflictTerm;
      0 < q.prevIndex <= |h.virt[p]| && h.virt[p][q.prevIndex - 1].term == t && t != q.prevTerm
    ensures HandleAppend(r.node, q).resp.conflictIndex <= q.prevIndex
  {
    hide Inv, NodeRel, LogRel, DurRel, VoteRel, CursorRel, Shape, Valid, Committed, CommittedUpTo, HandleAppend,
      ConflictHint;
    NodeParts(r, h, p);
    Rejection(r.node, q);
    LogRelWf(r.node.log, h.virt[p], h.cp[p]);
    SetUpFor(h, p, q.term) by { InvParts(h); }
    HintBound(r.node.log, h.virt[p], h.cp[p], h.llog[q.term], q.prevIndex);
    TermAtVirtual(r.node.log, h.virt[p], h.cp[p], q.prevIndex);
  }

  lemma SetUpFor(h: Hist, p: Id, T: nat)
    requires Basic(h) && LogsOk(h) && CommitsOk(h) && Complete(h) && Known(h) && p in h.servers
    requires T in h.llog && h.term[p] <= T
    ensures Shape(h.virt[p]) && Shape(h.llog[T]) && Valid(h, h.virt[p]) && Agree(h.cp[p], h.llog[T], |h.cp[p]|)
  {
    LeaderHasCommitted(h, h.cp[p], h.term[p], T);
  }

  /** If the leader log has an entry of term `t` at or above a place where another log has
      that term, the leader log has it at that place too. */
  lemma TermReachesDown(h: Hist, L: seq<Entry>, P: seq<Entry>, at: nat, l: nat)
    requires Valid(h, L) && Valid(h, P) && 0 < at <= |L| && at <= l <= |P| && P[l - 1].term == L[at - 1].term
    ensures P[at - 1].term == L[at - 1].term
  {
    var t := P[l - 1].term;
    assert Agree(L, h.llog[t], at);
    assert Agree(P, h.llog[t], l);
  }

  lemma {:induction false} ScanLastIs(es: seq<Entry>, t: nat)
    ensures var x := ScanLast(es, t);
      x == 0 || exists i :: 0 <= i < |es| && es[i].index == x && es[i].term == t
  {
    if es != [] && es[|es| - 1].term != t { ScanLastIs(es[..|es| - 1], t); }
  }

  /** The last index of term `t` the leader retains, read off its virtual log. */
  lemma LastOfTermVirtual(log: seq<Entry>, L: seq<Entry>, K: seq<Entry>, t: nat)
    requires LogRel(log, L, K) && Shape(L)
    ensures var l := LastOfTerm(log, t); l == 0 || (1 <= l <= |L| && L[l - 1].term == t)
  {
    RealsSorted(log, L, K);
    SearchesAreScans(log, t);
    ScanLastIs(log[1..], t);
    if LastOfTerm(log, t) != 0 {
      var i :| 0 <= i < |log[1..]| && log[1..][i].index == LastOfTerm(log, t) && log[1..][i].term == t;
      assert log[i + 1] == L[First(log) + i];
    }
  }

  ghost predicate IsAppend(x: Rpc, v: Id, p: Id) { x.from == v && x.to == p && x.req.AskAppend? }

  /** Fast backup: in every run, when the leader of the request's term processes a rejection,
      however late, the index it resumes at is at most the rejected `prevIndex`, one below
      where the request started. So the cursor strictly falls unless something raised it. */
  lemma BackupDescends(run: seq<Cluster>, j: nat, k: nat, x: Rpc, v: Id, p: Id)
    requires IsRun(run) && j <= k && At(run, j, p) && At(run, k, v) && IsAppend(x, v, p) && x in run[j].sent
    requires Wf(NodeAt(run, j, p).log) && NodeAt(run, j, p).term <= x.req.append.term
    requires !Accepts(NodeAt(run, j, p), x.req.append)
    requires NodeAt(run, k, v).role == Leader && NodeAt(run, k, v).term == x.req.append.term
    ensures var q := x.req.append;
      1 <= Backed(NodeAt(run, k, v), p, HandleAppend(NodeAt(run, j, p), q).resp) <= q.prevIndex
  {
    hide Inv, Rel, Grows, IsRun, NodeRel, LogRel, CursorRel, Valid, Shape, Committed, LeaderRel, RpcRel, HandleAppend,
      Accepts, LastOfTerm;
    var h, g, top := TwoHistories(run, j, k);
    Explained(run[j], h, p);
    var q := x.req.append;
    AppendIn(run[j], h, x);
    Rejection(NodeAt(run, j, p), q);
    var a := HandleAppend(NodeAt(run, j, p), q).resp;
    if q.prevIndex <= Last(NodeAt(run, j, p).log) {
      RejectedPlace(run[j].nodes[p], h, p, v, q);
      LeaderLogNow(run[k], h, g, v, q);
      GrowsLogs(h, g);
      ValidGrows(h, g, h.virt[p]);
      LeaderTermAt(g, NodeAt(run, k, v).log, g.virt[v], g.cp[v], h.virt[p], q.prevIndex);
    }
  }

  lemma AppendIn(c: Cluster, h: Hist, x: Rpc)
    requires Explains(c, h) && x in c.sent && x.req.AskAppend?
    ensures AppendRpcRel(x.from, x.req.append, h) && x.from in h.servers && x.to in h.servers
  {
    hide Inv, Rel, AppendRpcRel;
    RelRpc(c, h, x);
  }

  lemma GrowsLogs(h: Hist, g: Hist)
    requires Grows(h, g)
    ensures forall T :: T in h.llog ==> T in g.llog && h.llog[T] <= g.llog[T]
  {
  }

  /** The leader resumes after its own last entry of the conflicting term, below the conflict. */
  lemma LeaderTermAt(g: Hist, log: seq<Entry>, P: seq<Entry>, K: seq<Entry>, L: seq<Entry>, at: nat)
    requires LogRel(log, P, K) && Shape(P) && Valid(g, P) && Valid(g, L)
    requires 0 < at <= |L| && at <= |P| && L[at - 1].term != P[at - 1].term
    ensures |log| > 0 && LastOfTerm(log, L[at - 1].term) < at
  {
    hide LogRel, Valid, Shape, LastOfTerm;
    var t := L[at - 1].term;
    LogRelWf(log, P, K);
    LastOfTermVirtual(log, P, K, t);
    var l := LastOfTerm(log, t);
    if l >= at {
      TermReachesDown(g, L, P, at, l);
    }
  }

  /** The leader's log in terms of the history of the request. */
  lemma LeaderLogNow(c: Cluster, h: Hist, g: Hist, v: Id, q: AppendRequest)
    requires Explains(c, g) && Grows(h, g) && AppendRpcRel(v, q, h)
    requires v in c.nodes && c.nodes[v].node.role == Leader && c.nodes[v].node.term == q.term
    ensures v in g.servers && LogRel(c.nodes[v].node.log, g.virt[v], g.cp[v])
    ensures Shape(g.virt[v]) && Valid(g, g.virt[v]) && q.prevIndex <= |g.virt[v]|
    ensures q.prevIndex > 0 ==> g.virt[v][q.prevIndex - 1].term == q.prevTerm
  {
    hide Inv, Rel, Grows, NodeRel, LogRel, CursorRel, Valid, Shape, Committed, MatchRel;
    Explained(c, g, v);
    LeaderIs(c, g, v);
    LeaderLogGrows(h, g, q.term);
  }

  // ---------------------------------------------------------------------------
  // What is committed is never rejected
  // ---------------------------------------------------------------------------

  /** A follower accepts every request of a current leader that starts inside what the
      follower knows to be committed: the request after an InstallSnapshot, for one. */
  lemma AcceptedWhenCommitted(run: seq<Cluster>, j: nat, x: Rpc, p: Id)
    requires IsRun(run) && At(run, j, p) && x in run[j].sent && x.to == p && x.req.AskAppend?
    requires NodeAt(run, j, p).term <= x.req.append.term && x.req.append.prevIndex <= NodeAt(run, j, p).commit
    ensures Wf(NodeAt(run, j, p).log) && Accepts(NodeAt(run, j, p), x.req.append)
  {
    hide Inv, Rel, Grows, IsRun, NodeRel, LogRel, CursorRel, Valid, Shape, Committed, RpcRel, Accepts;
    var h, g, top := TwoHistories(run, j, j);
    Explained(run[j], h, p);
    AppendIn(run[j], h, x);
    CommittedAccepted(run[j].nodes[p], h, p, x.from, x.req.append);
  }

  lemma CommittedAccepted(r: Replica, h: Hist, p: Id, from: Id, q: AppendRequest)
    requires Basic(h) && Inv(h) && NodeRel(r, h, p) && AppendRpcRel(from, q, h) && Wf(r.node.log)
    requires r.node.term <= q.term && q.prevIndex <= r.node.commit
    ensures Accepts(r.node, q)
  {
    hide Inv, NodeRel, DurRel, VoteRel, CursorRel, Shape, Valid, Committed, CommittedUpTo;
    NodeParts(r, h, p);
    CursorParts(r, h.cp[p]);
    SetUpFor(h, p, q.term) by { InvParts(h); }
    var i := q.prevIndex;
    if First(r.node.log) < i {
      TermAtVirtual(r.node.log, h.virt[p], h.cp[p], i);
      assert h.virt[p][i - 1] == h.cp[p][i - 1];
    }
  }

  // ---------------------------------------------------------------------------
  // The binary searches
  // ---------------------------------------------------------------------------

  /** In every reachable state, on every server, leftovers of old leaders included, the two
      binary searches over the log return what a linear scan would. */
  lemma SearchesExact(run: seq<Cluster>, i: nat, v: Id, t: nat)
    requires IsRun(run) && At(run, i, v)
    ensures var log := NodeAt(run, i, v).log;
      FirstOfTerm(log, t) == ScanFirst(log[1..], t) && LastOfTerm(log, t) == ScanLast(log[1..], t)
  {
    hide Inv, Rel, Grows, IsRun, NodeRel, LogRel, CursorRel, Valid, Shape, Committed;
    var h, k, top := TwoHistories(run, i, i);
    Explained(run[i], h, v);
    RealsSorted(NodeAt(run, i, v).log, h.virt[v], h.cp[v]);
    SearchesAreScans(NodeAt(run, i, v).log, t);
  }
}
