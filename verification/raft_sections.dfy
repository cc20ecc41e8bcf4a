/** What single critical sections achieve in every reachable state. */
module RaftSections {
  import opened RaftTypes
  import opened RaftLog
  import opened Persist
  import opened NodeSpec
  import opened ClusterSpec
  import opened History
  import opened Relation
  import opened RelationSnapshot
  import opened RunHistory
  import opened RaftSafety
  import opened RaftCatchUp
  import RaftReads

  // ---------------------------------------------------------------------------
  // Requests
  // ---------------------------------------------------------------------------

  /** What a leader sends a peer: from the peer's cursor on, the next 64 entries it holds, or all
      of them if there are fewer, or none in a heartbeat, with the term just before them. */
  lemma RequestExact(run: seq<Cluster>, v: Id, p: Id, heartbeat: bool)
    requires |run| > 0 && IsRun(run) && Ready2(run[|run| - 1], v, p) && CanAppendTo(run[|run| - 1].nodes[v].node, p)
    ensures var n := run[|run| - 1].nodes[v].node; var q := BuildAppend(n, p, heartbeat);
      q.term == n.term && q.leaderCommit == n.commit && q.prevIndex + 1 == Get(n.next, p) &&
      First(n.log) <= q.prevIndex <= Last(n.log) &&
      q.prevTerm == (if Holds(n, q.prevIndex) then EntryAt(n, q.prevIndex).term else n.log[0].term) &&
      |q.entries| == (if heartbeat then 0 else Min(64, Last(n.log) - q.prevIndex)) &&
      forall k :: 0 <= k < |q.entries| ==> Carries(n, q, k)
  {
    hide IsRun;
    CanAsk(run, v, p);
  }

  ghost predicate Carries(n: Node, q: AppendRequest, k: nat)
    requires k < |q.entries|
  {
    Holds(n, q.prevIndex + 1 + k) && q.entries[k] == EntryAt(n, q.prevIndex + 1 + k)
  }

  // ---------------------------------------------------------------------------
  // Proposals
  // ---------------------------------------------------------------------------

  /** A server says yes to a batch exactly if it leads, and then holds the batch, in order and in
      its own term, behind what it held before; a no changes nothing. */
  lemma ProposalAnswered(run: seq<Cluster>, i: nat, v: Id, data: seq<seq<Byte>>)
    requires IsRun(run) && At(run, i, v)
    ensures var n := NodeAt(run, i, v); var o := Propose(n, data);
      (o.resp <==> n.role == Leader) && (!o.resp ==> o.node == n && o.trail == [])
    ensures var n := NodeAt(run, i, v); var o := Propose(n, data);
      o.resp ==>
        |o.node.log| > 0 && First(o.node.log) == First(n.log) && Last(o.node.log) == Last(n.log) + |data| &&
        (forall x: nat :: Holds(n, x) ==> Holds(o.node, x) && EntryAt(o.node, x) == EntryAt(n, x)) &&
        forall k :: 0 <= k < |data| ==> Takes(n, o.node, data, k)
  {
    hide IsRun, Done, Points;
    RunsAreWellFormed(run, i);
    var n := NodeAt(run, i, v);
    var es := Numbered(data, n.term, Last(n.log));
    if data == [] {
      assert n.log + es == n.log;
    } else {
      assert (n.log + es)[|n.log| + |es| - 1] == es[|es| - 1];
      assert forall k :: 0 <= k < |data| ==> (n.log + es)[|n.log| + k] == es[k];
    }
  }

  ghost predicate Takes(n: Node, m: Node, data: seq<seq<Byte>>, k: nat)
    requires |n.log| > 0 && k < |data|
  {
    var x := Last(n.log) + 1 + k;
    Holds(m, x) && EntryAt(m, x) == Entry(x, n.term, data[k])
  }

  // ---------------------------------------------------------------------------
  // Compaction
  // ---------------------------------------------------------------------------

  /** `m` holds what `n` held above `cut`, and nothing else. */
  ghost predicate Retains(n: Node, m: Node, cut: nat)
  {
    |n.log| > 0 && |m.log| > 0 && First(m.log) == Max(First(n.log), cut) && Last(m.log) == Last(n.log) &&
    forall x: nat :: (Holds(m, x) <==> Holds(n, x) && x > cut) && (Holds(m, x) ==> EntryAt(m, x) == EntryAt(n, x))
  }

  lemma TrimRetains(n: Node, index: nat)
    requires Wf(n.log) && index <= Last(n.log)
    ensures Retains(n, n.(log := Trimmed(n, index)), if index > n.retain then index - n.retain else 0)
  {
  }

  /** A compaction replaces everything the machine contains by the snapshot, on disk and in
      memory, and leaves the configured number of covered entries in the log; it does nothing
      if the log begins no earlier than that anyway. */
  lemma CompactsExactly(run: seq<Cluster>, i: nat, v: Id, raw: seq<Byte>)
    requires IsRun(run) && At(run, i, v)
    ensures var n, app := NodeAt(run, i, v), run[i].nodes[v].app;
      Wf(n.log) && var o := TakeSnapshot(n, |app|, app, raw); var m := o.node;
      if |app| <= First(n.log) then m == n && o.trail == []
      else
        m.disk.snap == m.cache == Snap(|app|, app[|app| - 1].term, app, raw) &&
        Retains(n, m, if |app| > n.retain then |app| - n.retain else 0) &&
        m == n.(log := m.log, disk := m.disk, cache := m.cache)
  {
    hide IsRun, Inv, Rel, Grows, NodeRel, Trimmed, Retains, TakeSnapshot, LogRel, Committed, Shape, Valid, CursorRel;
    var n, app := NodeAt(run, i, v), run[i].nodes[v].app;
    RunsAreWellFormed(run, i);
    if |app| <= First(n.log) {
      NotTaken(n, app, raw);
    } else {
      Delivered(run, i, v);
      CursorChain(run, i, v);
      var h, k, top := TwoHistories(run, i, i);
      Explained(run[i], h, v);
      TakeFacts(run[i].nodes[v], h, v);
      TakenIs(n, app, raw);
      TrimRetains(n, |app|);
      SameLog(n, n.(log := Trimmed(n, |app|)), TakeSnapshot(n, |app|, app, raw).node,
              if |app| > n.retain then |app| - n.retain else 0);
    }
  }

  lemma NotTaken(n: Node, app: seq<Entry>, raw: seq<Byte>)
    requires Wf(n.log) && |app| <= First(n.log)
    ensures TakeSnapshot(n, |app|, app, raw) == Out(n, (), [])
  {
  }

  lemma Delivered(run: seq<Cluster>, i: nat, v: Id)
    requires IsRun(run) && At(run, i, v)
    ensures |run[i].nodes[v].app| <= NodeAt(run, i, v).applied
  {
    hide IsRun;
    RaftReads.DeliveredExactly(run, i, v);
  }

  lemma SameLog(n: Node, a: Node, b: Node, cut: nat)
    requires Retains(n, a, cut) && b.log == a.log
    ensures Retains(n, b, cut)
  {
    forall x: nat
      ensures (Holds(b, x) <==> Holds(n, x) && x > cut) && (Holds(b, x) ==> EntryAt(b, x) == EntryAt(n, x))
    {
      assert Holds(a, x) <==> Holds(b, x);
    }
  }

  /** A snapshot from a current leader settles who leads. One that brings nothing new leaves log,
      disk and cursors alone; a newer one is what the machine gets next, and disk and memory
      keep it for others. */
  lemma InstallExact(run: seq<Cluster>, i: nat, v: Id, q: SnapRequest)
    requires IsRun(run) && At(run, i, v) && q.term == NodeAt(run, i, v).term
    ensures Wf(NodeAt(run, i, v).log)
    ensures var n := NodeAt(run, i, v); var o := HandleSnapshot(n, q); var m := o.node;
      m.role == Follower && m.leaderId == q.leader && m.term == n.term && m.vote == n.vote && o.resp.term == n.term &&
      if q.snap.index <= n.commit then m == n.(role := Follower, leaderId := q.leader) && o.trail == []
      else
        m.pending == Some(q.snap) && m.cache == m.disk.snap == q.snap && m.commit == m.applied == q.snap.index &&
        First(m.log) == q.snap.index && Last(m.log) == Max(q.snap.index, Last(n.log)) &&
        forall x: nat :: x > q.snap.index && Holds(n, x) ==> Holds(m, x) && EntryAt(m, x) == EntryAt(n, x)
  {
    hide IsRun, CompactedTo, Holds;
    CursorChain(run, i, v);
    var n := NodeAt(run, i, v);
    if q.snap.index > n.commit {
      Spliced(n, q.snap);
      SameHeld(HandleSnapshot(n, q).node, n.(log := CompactedTo(n.log, q.snap.index, q.snap.term)));
    }
  }

  lemma SameHeld(m: Node, n: Node)
    requires m.log == n.log
    ensures forall x: nat :: Holds(m, x) <==> Holds(n, x)
    ensures forall x: nat :: Holds(m, x) ==> EntryAt(m, x) == EntryAt(n, x)
  {
  }

  lemma Spliced(n: Node, s: Snap)
    requires Wf(n.log) && s.index > First(n.log)
    ensures var log := CompactedTo(n.log, s.index, s.term);
      First(log) == s.index && Last(log) == Max(s.index, Last(n.log)) &&
      forall x: nat :: x > s.index && Holds(n, x) ==>
        Holds(n.(log := log), x) && EntryAt(n.(log := log), x) == EntryAt(n, x)
  {
  }

  // ---------------------------------------------------------------------------
  // Terms
  // ---------------------------------------------------------------------------

  /** Every reply that reports a higher term makes its receiver a follower of that term, with its
      vote free; none lowers a term. */
  lemma TermsLearned(r: Replica, y: Reply)
    requires Wf(r.node.log) && Fits(y.rpc.req, y.resp)
    ensures var t := match y.resp case Voted(a) => a.term case Appended(a) => a.term case Installed(a) => a.term;
      var m := ReceiveEffect(r, y).replica.node;
      m.term == Max(r.node.term, t) && (t > r.node.term ==> m.role == Follower && m.vote == NO_VOTE)
  {
    hide Done, Points, Backed, CommitScan, Cursors;
  }

  // ---------------------------------------------------------------------------
  // Who leads
  // ---------------------------------------------------------------------------

  predicate LeaderIdOk(n: Node)
  {
    (n.role == Leader ==> n.leaderId == n.id) && (n.role == Candidate ==> n.leaderId == 0)
  }

  lemma LeaderIdServes(n: Node, rpc: Rpc, recent: bool)
    requires Wf(n.log) && LeaderIdOk(n)
    ensures rpc.req.AskVote? ==> LeaderIdOk(HandleVote(n, rpc.req.vote, recent).node)
    ensures rpc.req.AskAppend? ==> LeaderIdOk(HandleAppend(n, rpc.req.append).node)
    ensures rpc.req.AskInstall? ==> LeaderIdOk(HandleSnapshot(n, rpc.req.install).node)
  {
    hide FirstNew, ConflictHint, CompactedTo, AtLeastAsUpToDate, TermAt, Done, Points;
  }

  lemma LeaderIdReceives(n: Node, y: Reply)
    requires Wf(n.log) && LeaderIdOk(n) && Fits(y.rpc.req, y.resp)
    ensures y.rpc.req.AskVote? ==> LeaderIdOk(OnVote(n, y.rpc.req.vote.term, y.resp.vote).node)
    ensures y.rpc.req.AskAppend? ==> LeaderIdOk(OnAppend(n, y.rpc.to, y.rpc.req.append, y.resp.append).node)
    ensures y.rpc.req.AskInstall? ==> LeaderIdOk(OnSnapshot(n, y.rpc.to, y.rpc.req.install, y.resp.install).node)
  {
    hide Done, Points, LastOfTerm, CommitScan, Cursors;
  }

  lemma LeaderIdActs(c: Cluster, a: Action)
    requires WfCluster(c) && Enabled(c, a) && LeaderIdOk(c.nodes[Actor(a)].node)
    ensures LeaderIdOk(EffectOf(c, a).replica.node)
  {
    hide HandleVote, HandleAppend, HandleSnapshot, OnVote, OnAppend, OnSnapshot, BuildAppend, Batch, TermAt,
      CompactedTo, Numbered, Cursors, Done, Points;
    match a
    case Serve(rpc, recent) => LeaderIdServes(c.nodes[rpc.to].node, rpc, recent);
    case Receive(y) => LeaderIdReceives(c.nodes[y.rpc.from].node, y);
    case _ =>
  }

  /** In every reachable state a leader names itself as the leader, and a candidate nobody. */
  lemma {:induction false} LeaderIdRight(run: seq<Cluster>, v: Id)
    requires IsRun(run) && v in run[|run| - 1].nodes
    ensures LeaderIdOk(run[|run| - 1].nodes[v].node)
    decreases |run|
  {
    hide LeaderIdOk, EffectOf, Boot, Init, Enabled;
    var n := |run| - 1;
    if n == 0 {
      BootNamesNobody(run[0], v);
    } else {
      assert Step(run[n - 1], run[n]);
      var e :| Moves(run[n - 1], e, run[n]);
      assert v in run[n - 1].nodes by { KeysKept(run[n - 1], e); }
      LeaderIdRight(run[..n], v);
      match e
      case Do(a) => if Actor(a) == v { LeaderIdActs(run[n - 1], a); }
      case CrashIn(a, k) => RebootNamesNobody(run[n - 1].nodes[v], EffectOf(run[n - 1], a).trail[k]);
      case Crash(w) => RebootNamesNobody(run[n - 1].nodes[v], run[n - 1].nodes[v].node.disk);
    }
  }

  lemma BootNamesNobody(c: Cluster, v: Id)
    requires Init(c) && v in c.nodes
    ensures LeaderIdOk(c.nodes[v].node)
  {
    hide Recover;
  }

  lemma RebootNamesNobody(r: Replica, d: Disk)
    ensures LeaderIdOk(Rebooted(r, d).node)
  {
    hide Recover;
  }
}
