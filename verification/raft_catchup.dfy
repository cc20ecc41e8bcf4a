/** The replicator's retry loop, and why it ends with the follower up to date. */
module RaftCatchUp {
  import opened RaftTypes
  import opened RaftLog
  import opened Persist
  import opened NodeSpec
  import opened ClusterSpec
  import opened History
  import opened Relation
  import opened RelationAppend
  import opened RelationLeader
  import opened RaftSafety
  import opened RaftProgress

  // ---------------------------------------------------------------------------
  // The image in memory is the image on disk
  // ---------------------------------------------------------------------------

  predicate CacheOk(n: Node) { n.cache.index == 0 || n.cache == n.disk.snap }

  lemma KeepSnap(n: Node, term: nat, es: seq<Entry>)
    ensures BecomeFollower(n, term).disk.snap == n.disk.snap
    ensures Wf(n.log) ==> Merged(n, es).disk.snap == n.disk.snap && Merged(n, es).cache == n.cache
  {
    hide FirstNew, Done, Points;
    DoneKeepsSnap(n.disk, SaveHardState(term, NO_VOTE));
    if Wf(n.log) {
      var i := FirstNew(n.log, es);
      if i < |es| {
        var d := Done(n.disk, TruncateFrom(es[i].index));
        DoneKeepsSnap(n.disk, TruncateFrom(es[i].index));
        DoneKeepsSnap(d, AppendEntries(es[i..]));
        DoneKeepsSnap(n.disk, AppendEntries(es[i..]));
      }
    }
  }

  lemma CacheServes(n: Node, rpc: Rpc, recent: bool)
    requires Wf(n.log) && CacheOk(n)
    ensures rpc.req.AskVote? ==> CacheOk(HandleVote(n, rpc.req.vote, recent).node)
    ensures rpc.req.AskAppend? ==> CacheOk(HandleAppend(n, rpc.req.append).node)
    ensures rpc.req.AskInstall? ==> CacheOk(HandleSnapshot(n, rpc.req.install).node)
  {
    hide FirstNew, FirstOfTerm, Merged, CompactedTo, AtLeastAsUpToDate, TermAt;
    match rpc.req
    case AskVote(q) => KeepSnap(n, q.term, []);
    case AskAppend(q) =>
      KeepSnap(n, q.term, []);
      KeepSnap(Adopted(n, q.term).(role := Follower, leaderId := q.leader), q.term, q.entries);
    case AskInstall(q) => KeepSnap(n, q.term, []);
  }

  lemma CacheReceives(n: Node, reply: Reply)
    requires Wf(n.log) && CacheOk(n) && Fits(reply.rpc.req, reply.resp)
    ensures reply.rpc.req.AskVote? ==> CacheOk(OnVote(n, reply.rpc.req.vote.term, reply.resp.vote).node)
    ensures reply.rpc.req.AskAppend? ==>
      CacheOk(OnAppend(n, reply.rpc.to, reply.rpc.req.append, reply.resp.append).node)
    ensures reply.rpc.req.AskInstall? ==>
      CacheOk(OnSnapshot(n, reply.rpc.to, reply.rpc.req.install, reply.resp.install).node)
  {
    hide Done, Points, LastOfTerm, CommitScan;
    var t := match reply.resp case Voted(a) => a.term case Appended(a) => a.term case Installed(a) => a.term;
    KeepSnap(n, t, []);
  }

  lemma CacheActs(c: Cluster, a: Action)
    requires WfCluster(c) && Enabled(c, a) && CacheOk(c.nodes[Actor(a)].node)
    ensures CacheOk(EffectOf(c, a).replica.node)
  {
    hide HandleVote, HandleAppend, HandleSnapshot, OnVote, OnAppend, OnSnapshot, BuildAppend, Batch, TermAt,
      CompactedTo, Numbered;
    var n := c.nodes[Actor(a)].node;
    match a
    case Serve(rpc, recent) => CacheServes(n, rpc, recent);
    case Receive(reply) => CacheReceives(n, reply);
    case Offer(_, data) => DoneKeepsSnap(n.disk, AppendEntries(Numbered(data, n.term, Last(n.log))));
    case Hear(_, t) => KeepSnap(n, t, []);
    case _ =>
  }

  /** What a leader would ship is no older than its sentinel. */
  lemma {:induction false} CacheFresh(run: seq<Cluster>, v: Id)
    requires IsRun(run) && v in run[|run| - 1].nodes
    ensures CacheOk(run[|run| - 1].nodes[v].node)
    decreases |run|
  {
    hide CacheOk, EffectOf, Boot, Init;
    var n := |run| - 1;
    if n == 0 {
      BootCache(run[0], v);
    } else {
      var init := run[..n];
      assert Step(run[n - 1], run[n]);
      var e :| Moves(run[n - 1], e, run[n]);
      assert v in run[n - 1].nodes;
      CacheFresh(init, v);
      match e
      case Do(a) => if Actor(a) == v { CacheActs(run[n - 1], a); }
      case CrashIn(a, k) => RebootCache(run[n - 1].nodes[v], EffectOf(run[n - 1], a).trail[k]);
      case Crash(w) => RebootCache(run[n - 1].nodes[v], run[n - 1].nodes[v].node.disk);
    }
  }

  lemma BootCache(c: Cluster, v: Id)
    requires Init(c) && v in c.nodes
    ensures CacheOk(c.nodes[v].node)
  {
    hide Recover;
  }

  lemma RebootCache(r: Replica, d: Disk)
    ensures CacheOk(Rebooted(r, d).node)
  {
    hide Recover;
  }

  // ---------------------------------------------------------------------------
  // One exchange with a follower
  // ---------------------------------------------------------------------------

  /** What the replicator does next for peer `p`: entries, or a snapshot if they are gone. */
  function Ask(n: Node, v: Id, p: Id): Action
    requires |n.log| > 0
  {
    if Get(n.next, p) > First(n.log) then SendAppend(v, p, false) else SendSnapshot(v, p)
  }

  function Asked(n: Node, v: Id, p: Id): Rpc
    requires Wf(n.log) && n.role == Leader
  {
    Rpc(v, p, if Get(n.next, p) > First(n.log) then AskAppend(BuildAppend(n, p, false))
              else AskInstall(SnapRequest(n.term, n.id, Shipped(n))))
  }

  function Answer(f: Node, x: Rpc): Reply
    requires Wf(f.log)
  {
    Reply(x, match x.req
             case AskVote(q) => Voted(HandleVote(f, q, false).resp)
             case AskAppend(q) => Appended(HandleAppend(f, q).resp)
             case AskInstall(q) => Installed(HandleSnapshot(f, q).resp))
  }

  ghost predicate Ready2(c: Cluster, v: Id, p: Id)
  {
    v in c.nodes && p in c.nodes && v != p && Wf(c.nodes[v].node.log) && Wf(c.nodes[p].node.log) &&
    c.nodes[v].node.role == Leader && p in c.nodes[v].node.peers
  }

  /** One turn of the retry loop: ask, serve, receive, with nothing in between. */
  ghost predicate ExchangeBy(c: Cluster, v: Id, p: Id, c1: Cluster, c2: Cluster, d: Cluster)
  {
    Ready2(c, v, p) &&
    var x := Asked(c.nodes[v].node, v, p);
    Moves(c, Do(Ask(c.nodes[v].node, v, p)), c1) && Moves(c1, Do(Serve(x, false)), c2) &&
    Moves(c2, Do(Receive(Answer(c.nodes[p].node, x))), d)
  }

  ghost predicate Exchange(c: Cluster, v: Id, p: Id, d: Cluster)
  {
    exists c1, c2 :: ExchangeBy(c, v, p, c1, c2, d)
  }

  lemma RunExtends(run: seq<Cluster>, e: Event, d: Cluster)
    requires IsRun(run) && Moves(run[|run| - 1], e, d)
    ensures IsRun(run + [d]) && WfCluster(d)
  {
    hide Next, Init;
    RunGoesOn(run, e);
    RunsAreWellFormed(run + [d], |run|);
  }

  /** The leader's part of an exchange over entries, once the answer is there. */
  function AfterAnswer(n: Node, p: Id, x: Rpc, y: Response): Node
    requires Wf(n.log) && Fits(x.req, y)
  {
    match x.req
    case AskVote(q) => OnVote(n, q.term, y.vote).node
    case AskAppend(q) => OnAppend(n, p, q, y.append).node
    case AskInstall(q) => OnSnapshot(Ship(n), p, q, y.install).node
  }

  function AfterServe(f: Node, x: Rpc): Node
    requires Wf(f.log)
  {
    match x.req
    case AskVote(q) => HandleVote(f, q, false).node
    case AskAppend(q) => HandleAppend(f, q).node
    case AskInstall(q) => HandleSnapshot(f, q).node
  }

  /** Between `c` and `d` only `v` and `p` have acted. */
  ghost predicate Between(c: Cluster, d: Cluster, v: Id, p: Id)
  {
    d.servers == c.servers && d.nodes.Keys == c.nodes.Keys &&
    forall w :: w in c.nodes && w != v && w != p ==> d.nodes[w] == c.nodes[w]
  }

  lemma OnlyThese(c: Cluster, c1: Cluster, c2: Cluster, d: Cluster, v: Id, p: Id)
    requires v in c.nodes && p in c.nodes && v in c1.nodes && p in c2.nodes && v in d.nodes
    requires c1.nodes == c.nodes[v := c1.nodes[v]] && c1.servers == c.servers
    requires c2.nodes == c1.nodes[p := c2.nodes[p]] && c2.servers == c1.servers
    requires d.nodes == c2.nodes[v := d.nodes[v]] && d.servers == c2.servers
    ensures Between(c, d, v, p) && (v != p ==> d.nodes[p] == c2.nodes[p])
  {
  }

  lemma AskStep(c: Cluster, v: Id, p: Id)
    requires WfCluster(c) && Ready2(c, v, p) && Enabled(c, Ask(c.nodes[v].node, v, p))
    ensures var d, n := Next(c, Do(Ask(c.nodes[v].node, v, p))), c.nodes[v].node;
      d.nodes == c.nodes[v := d.nodes[v]] && d.servers == c.servers && Asked(n, v, p) in d.sent &&
      d.nodes[v].node == if Get(n.next, p) > First(n.log) then n else Ship(n)
  {
    hide BuildAppend;
  }

  lemma ServeStep(c: Cluster, x: Rpc, p: Id)
    requires WfCluster(c) && x in c.sent && x.to == p && p in c.nodes
    ensures var d := Next(c, Do(Serve(x, false)));
      d.nodes == c.nodes[p := d.nodes[p]] && d.nodes[p].node == AfterServe(c.nodes[p].node, x) &&
      d.servers == c.servers && Answer(c.nodes[p].node, x) in d.replies
  {
    hide HandleAppend, HandleSnapshot, HandleVote;
  }

  lemma ReceiveStep(c: Cluster, y: Reply, v: Id)
    requires WfCluster(c) && y in c.replies && Fits(y.rpc.req, y.resp) && !y.rpc.req.AskVote? && y.rpc.from == v &&
      v in c.nodes
    ensures var d, n, x := Next(c, Do(Receive(y))), c.nodes[v].node, y.rpc;
      d.nodes == c.nodes[v := d.nodes[v]] && d.servers == c.servers &&
      d.nodes[v].node == if x.req.AskAppend? then OnAppend(n, x.to, x.req.append, y.resp.append).node
                         else OnSnapshot(n, x.to, x.req.install, y.resp.install).node
  {
    hide OnAppend, OnSnapshot, OnVote;
  }

  /** The request is sent and served. */
  lemma AskedAndServed(run: seq<Cluster>, v: Id, p: Id) returns (c1: Cluster, c2: Cluster)
    requires |run| > 0 && IsRun(run) && Ready2(run[|run| - 1], v, p)
    ensures var c := run[|run| - 1]; var n, x := c.nodes[v].node, Asked(c.nodes[v].node, v, p);
      Moves(c, Do(Ask(n, v, p)), c1) && Moves(c1, Do(Serve(x, false)), c2) && x in c1.sent &&
      v in c1.nodes && c1.nodes == c.nodes[v := c1.nodes[v]] && c1.servers == c.servers &&
      c1.nodes[v].node == (if x.req.AskAppend? then n else Ship(n)) &&
      p in c2.nodes && c2.nodes == c1.nodes[p := c2.nodes[p]] && c2.servers == c.servers &&
      c2.nodes[p].node == AfterServe(c.nodes[p].node, x) && Answer(c.nodes[p].node, x) in c2.replies
    ensures IsRun(run + [c1]) && IsRun(run + [c1] + [c2]) && WfCluster(c2)
  {
    hide IsRun, HandleAppend, HandleSnapshot, HandleVote, BuildAppend, Next;
    var c := run[|run| - 1];
    RunsAreWellFormed(run, |run| - 1);
    CanAsk(run, v, p);
    var x := Asked(c.nodes[v].node, v, p);
    var e := Do(Ask(c.nodes[v].node, v, p));
    c1 := Next(c, e);
    AskStep(c, v, p);
    RunExtends(run, e, c1);
    c2 := Next(c1, Do(Serve(x, false)));
    ServeStep(c1, x, p);
    RunExtends(run + [c1], Do(Serve(x, false)), c2);
  }

  lemma ExchangeRuns(run: seq<Cluster>, v: Id, p: Id) returns (c1: Cluster, c2: Cluster, d: Cluster)
    requires |run| > 0 && IsRun(run) && Ready2(run[|run| - 1], v, p)
    ensures ExchangeBy(run[|run| - 1], v, p, c1, c2, d) && IsRun(run + [c1]) && IsRun(run + [c1] + [c2] + [d]) &&
      WfCluster(d)
    ensures var c := run[|run| - 1]; var x := Asked(c.nodes[v].node, v, p);
      x in c1.sent && c1.nodes == c.nodes[v := c1.nodes[v]] &&
      (x.req.AskAppend? ==> c1.nodes[v].node == c.nodes[v].node) &&
      Between(c, d, v, p) &&
      d.nodes[p].node == AfterServe(c.nodes[p].node, x) &&
      d.nodes[v].node == AfterAnswer(c.nodes[v].node, p, x, Answer(c.nodes[p].node, x).resp)
  {
    hide IsRun, HandleAppend, HandleSnapshot, HandleVote, OnAppend, OnSnapshot, OnVote, BuildAppend, Next, Between,
      AfterServe;
    var c := run[|run| - 1];
    c1, c2 := AskedAndServed(run, v, p);
    var x := Asked(c.nodes[v].node, v, p);
    var y := Answer(c.nodes[p].node, x);
    d := Next(c2, Do(Receive(y)));
    ReceiveStep(c2, y, v);
    OnlyThese(c, c1, c2, d, v, p);
    RunExtends(run + [c1] + [c2], Do(Receive(y)), d);
  }

  lemma CanAsk(run: seq<Cluster>, v: Id, p: Id)
    requires |run| > 0 && IsRun(run) && Ready2(run[|run| - 1], v, p)
    ensures var n := run[|run| - 1].nodes[v].node;
      (Get(n.next, p) > First(n.log) ==> CanAppendTo(n, p)) &&
      (Get(n.next, p) <= First(n.log) ==> CanShipTo(n, p) && Shipped(n).index >= First(n.log) >= 1) &&
      1 <= Get(n.next, p) <= Last(n.log) + 1 && Shipped(n).index <= n.commit <= Last(n.log)
  {
    hide IsRun, Inv, Rel, Grows, NodeRel, LogRel, CursorRel, Valid, Shape, Committed, MatchRel;
    var c := run[|run| - 1];
    var n := c.nodes[v].node;
    var h, k, top := TwoHistories(run, |run| - 1, |run| - 1);
    Explained(c, h, v);
    LeaderIs(c, h, v);
    LogRelWf(n.log, h.virt[v], h.cp[v]);
    CursorParts(c.nodes[v], h.cp[v]);
    CacheFresh(run, v);
  }

  // ---------------------------------------------------------------------------
  // The loop converges
  // ---------------------------------------------------------------------------

  /** The follower would accept what the leader sends it next. */
  ghost predicate Aligned(c: Cluster, v: Id, p: Id)
    requires Ready2(c, v, p)
  {
    var n := c.nodes[v].node;
    Get(n.next, p) > First(n.log) && Accepts(c.nodes[p].node, BuildAppend(n, p, false))
  }

  /** A run whose last state has leader `v` with peer `p`, and `p` not ahead in term. */
  ghost predicate Pair(run: seq<Cluster>, v: Id, p: Id)
  {
    |run| > 0 && IsRun(run) && Ready2(run[|run| - 1], v, p) &&
    run[|run| - 1].nodes[p].node.term <= run[|run| - 1].nodes[v].node.term
  }

  /** How many exchanges may still be needed. */
  ghost function Rounds(c: Cluster, v: Id, p: Id): nat
    requires Ready2(c, v, p)
  {
    var n := c.nodes[v].node;
    var next := Get(n.next, p);
    if !Aligned(c, v, p) then next + Last(n.log) + 1 else if next <= Last(n.log) then Last(n.log) + 1 - next else 0
  }

  lemma AlignedByCommit(run: seq<Cluster>, v: Id, p: Id)
    requires Pair(run, v, p)
    requires var n := run[|run| - 1].nodes[v].node;
      First(n.log) < Get(n.next, p) <= run[|run| - 1].nodes[p].node.commit + 1
    ensures Aligned(run[|run| - 1], v, p)
  {
    hide IsRun, Inv, Rel, Grows, NodeRel, LogRel, CursorRel, Valid, Shape, Committed, RpcRel, Accepts, AppendRpcRel;
    var c := run[|run| - 1];
    var h, k, top := TwoHistories(run, |run| - 1, |run| - 1);
    Explained(c, h, v);
    Explained(c, h, p);
    BuildRel(c.nodes[v], h, v, p, false);
    BuiltIsAppend(c.nodes[v].node, h, v, p);
    CommittedAccepted(c.nodes[p], h, p, v, BuildAppend(c.nodes[v].node, p, false));
  }

  lemma BuiltIsAppend(n: Node, h: Hist, v: Id, p: Id)
    requires Wf(n.log) && CanAppendTo(n, p) && RpcRel(Rpc(v, p, AskAppend(BuildAppend(n, p, false))), h)
    ensures AppendRpcRel(v, BuildAppend(n, p, false), h)
  {
  }

  /** What a request built from a well-formed log carries. */
  lemma Built(n: Node, p: Id)
    requires Wf(n.log) && CanAppendTo(n, p) && Get(n.next, p) <= Last(n.log) + 1
    ensures var q := BuildAppend(n, p, false); var M := q.prevIndex + |q.entries|;
      q.term == n.term && q.prevIndex == Get(n.next, p) - 1 && M <= Last(n.log) && q.leaderCommit == n.commit &&
      TermAt(n.log, q.prevIndex) == Some(q.prevTerm) &&
      (Get(n.next, p) <= Last(n.log) ==> q.entries != []) &&
      (q.entries != [] ==>
        q.entries[|q.entries| - 1].index == M && TermAt(n.log, M) == Some(q.entries[|q.entries| - 1].term))
  {
    var q := BuildAppend(n, p, false);
    if q.entries != [] {
      assert q.entries[|q.entries| - 1] == n.log[q.prevIndex + |q.entries| - First(n.log)];
    }
  }

  /** After the entries are taken over the log answers for the last of them. */
  lemma MergedTail(n: Node, es: seq<Entry>)
    requires Wf(n.log) && es != [] && Wf(Merged(n, es).log)
    ensures var g := Merged(n, es); var e := es[|es| - 1];
      e.index > First(g.log) ==> TermAt(g.log, e.index) == Some(e.term)
  {
    hide FirstNew, Done;
    var i := FirstNew(n.log, es);
    FirstNewSpec(n.log, es);
    if i < |es| {
      var log := Merged(n, es).log;
      assert log[|log| - 1] == es[|es| - 1];
    }
  }

  lemma AcceptedIs(f: Node, q: AppendRequest)
    requires Wf(f.log) && Accepts(f, q)
    ensures var g := HandleAppend(f, q).node; var m := Adopted(f, q.term).(role := Follower, leaderId := q.leader);
      g.term == q.term && m.log == f.log && g.log == Merged(m, q.entries).log
  {
    hide Merged, ConflictHint;
    MergedRole(Adopted(f, q.term).(role := Follower, leaderId := q.leader), q.entries);
  }

  /** After an accepted request the follower's log answers for its last entry. */
  lemma AcceptedTail(f: Node, q: AppendRequest)
    requires Wf(f.log) && Accepts(f, q) && Wf(HandleAppend(f, q).node.log)
    requires q.entries != [] && q.entries[|q.entries| - 1].index == q.prevIndex + |q.entries|
    ensures var g := HandleAppend(f, q).node; var M := q.prevIndex + |q.entries|;
      g.term == q.term && (M > First(g.log) ==> TermAt(g.log, M) == Some(q.entries[|q.entries| - 1].term))
  {
    hide HandleAppend, Accepts, Merged;
    AcceptedIs(f, q);
    MergedTail(Adopted(f, q.term).(role := Follower, leaderId := q.leader), q.entries);
  }

  lemma NothingMerged(f: Node, q: AppendRequest)
    requires Wf(f.log) && q.entries == []
    ensures Merged(Adopted(f, q.term).(role := Follower, leaderId := q.leader), q.entries).log == f.log
  {
  }

  lemma AlignedAfterAccept(c: Cluster, run: seq<Cluster>, v: Id, p: Id)
    requires Ready2(c, v, p) && Pair(run, v, p)
    requires var n := c.nodes[v].node; var m := run[|run| - 1].nodes[v].node;
      m.log == n.log && m.term == n.term && First(n.log) < Get(n.next, p) <= Last(n.log) + 1 && Aligned(c, v, p) &&
      var q := BuildAppend(n, p, false);
      Get(m.next, p) == q.prevIndex + |q.entries| + 1 &&
      run[|run| - 1].nodes[p].node == HandleAppend(c.nodes[p].node, q).node
    ensures Aligned(run[|run| - 1], v, p)
  {
    hide IsRun, HandleAppend, BuildAppend;
    var d := run[|run| - 1];
    var n, m, f, g := c.nodes[v].node, d.nodes[v].node, c.nodes[p].node, d.nodes[p].node;
    var q := BuildAppend(n, p, false);
    Built(n, p);
    Built(m, p);
    var M := q.prevIndex + |q.entries|;
    if M <= g.commit {
      AlignedByCommit(run, v, p);
    } else {
      SentinelBelowCommit(run, p);
      AcceptedIs(f, q);
      if q.entries == [] { NothingMerged(f, q); } else { AcceptedTail(f, q); }
    }
  }

  lemma SentinelBelowCommit(run: seq<Cluster>, p: Id)
    requires |run| > 0 && IsRun(run) && p in run[|run| - 1].nodes
    ensures var f := run[|run| - 1].nodes[p].node; Wf(f.log) && First(f.log) <= f.commit
  {
    hide IsRun, Inv, Rel, Grows, NodeRel, LogRel, CursorRel, Valid, Shape, Committed, RpcRel;
    var h, k, top := TwoHistories(run, |run| - 1, |run| - 1);
    Explained(run[|run| - 1], h, p);
    CursorParts(run[|run| - 1].nodes[p], h.cp[p]);
  }

  /** Leader `m` is leader `n` some exchanges with `p` later: only what it knows of `p` has
      changed, and its commit index may have risen. */
  ghost predicate Advanced(n: Node, m: Node, p: Id)
  {
    m.role == n.role && m.term == n.term && m.log == n.log && m.peers == n.peers && m.id == n.id &&
    n.commit <= m.commit &&
    forall w :: w != p ==> Get(m.next, w) == Get(n.next, w) && Get(m.matched, w) == Get(n.matched, w)
  }

  /** The last entry is the leader's own, and enough servers are known to hold it. */
  ghost predicate Committable(n: Node)
    requires |n.log| > 0
  {
    LastLogTerm(n.log) == n.term && 1 + |Acked(n, Last(n.log))| >= Majority(n)
  }

  /** How an exchange over entries ends. */
  lemma AppendOutcome(n: Node, f: Node, p: Id)
    requires Wf(n.log) && Wf(f.log) && CanAppendTo(n, p) && f.term <= n.term && Get(n.next, p) <= Last(n.log) + 1
    ensures var q := BuildAppend(n, p, false); var a := HandleAppend(f, q); var m := OnAppend(n, p, q, a.resp).node;
      a.node.term == n.term && Advanced(n, m, p) &&
      if Accepts(f, q) then
        Get(m.next, p) == q.prevIndex + |q.entries| + 1 && Get(m.matched, p) >= q.prevIndex + |q.entries| &&
        a.node.commit >= Min(n.commit, q.prevIndex + |q.entries|) && (Committable(m) ==> m.commit >= Last(n.log))
      else Get(m.next, p) == Backed(n, p, a.resp) && a.node.commit == f.commit
  {
    hide BuildAppend, HandleAppend, Accepts, CommitScan, Backed;
    var q := BuildAppend(n, p, false);
    Built(n, p);
    if Accepts(f, q) { AcceptedIs(f, q); }
    AnswerTerm(f, q);
    SuccessIsAcceptance(f, q);
    CommitLearned(f, q);
    if Accepts(f, q) {
      var M := q.prevIndex + |q.entries|;
      var m := n.(matched := Raised(n.matched, p, M), next := Raised(n.next, p, M + 1));
      ScanAbove(m, Last(n.log));
      ScanTop(m);
    }
  }

  lemma ScanTop(n: Node)
    requires Wf(n.log)
    ensures Committable(n) ==> CommitScan(n, Last(n.log)) >= Last(n.log)
  {
  }

  lemma AnswerTerm(f: Node, q: AppendRequest)
    requires Wf(f.log) && f.term <= q.term
    ensures HandleAppend(f, q).resp.term == q.term && HandleAppend(f, q).node.term == q.term
  {
    hide ConflictHint, Merged;
    MergedRole(Adopted(f, q.term).(role := Follower, leaderId := q.leader), q.entries);
  }

  lemma InstallOutcome(n: Node, f: Node, p: Id)
    requires Wf(n.log) && Wf(f.log) && n.role == Leader && f.term <= n.term && Get(n.next, p) <= Shipped(n).index
    ensures var q := SnapRequest(n.term, n.id, Shipped(n)); var a := HandleSnapshot(f, q);
      var m := OnSnapshot(Ship(n), p, q, a.resp).node;
      a.node.term == n.term && Advanced(n, m, p) && Get(m.next, p) == Shipped(n).index + 1 &&
      Get(m.matched, p) >= Shipped(n).index && a.node.commit >= Shipped(n).index
  {
    hide CompactedTo, Done, Points;
  }

  /** By `d` the follower knows of the commits the leader knew of in `c`, the leader knows that
      the follower holds its whole log, and commits the log if that makes a majority. */
  ghost predicate Settled(c: Cluster, d: Cluster, v: Id, p: Id)
    requires Ready2(c, v, p) && Ready2(d, v, p)
  {
    var n, m := c.nodes[v].node, d.nodes[v].node;
    n.commit <= d.nodes[p].node.commit && Last(n.log) <= Get(m.matched, p) &&
    (Committable(m) ==> Last(n.log) <= m.commit)
  }

  /** Every exchange brings the end nearer, and the one that reaches it settles things. */
  lemma ExchangeShrinks(run: seq<Cluster>, v: Id, p: Id) returns (c1: Cluster, c2: Cluster, d: Cluster)
    requires Pair(run, v, p)
    ensures ExchangeBy(run[|run| - 1], v, p, c1, c2, d) && Pair(run + [c1] + [c2] + [d], v, p)
    ensures Rounds(d, v, p) < Rounds(run[|run| - 1], v, p) || Rounds(d, v, p) == Rounds(run[|run| - 1], v, p) == 0
    ensures Between(run[|run| - 1], d, v, p) && Advanced(run[|run| - 1].nodes[v].node, d.nodes[v].node, p)
    ensures Rounds(d, v, p) == 0 ==> Settled(run[|run| - 1], d, v, p)
  {
    hide IsRun, BuildAppend, HandleAppend, HandleSnapshot, OnAppend, OnSnapshot, Accepts, Shipped, Moves, Committable;
    var c := run[|run| - 1];
    c1, c2, d := ExchangeRuns(run, v, p);
    CanAsk(run, v, p);
    var n, f := c.nodes[v].node, c.nodes[p].node;
    var more := run + [c1] + [c2] + [d];
    assert more[|more| - 1] == d;
    SentinelBelowCommit(more, v);
    SentinelBelowCommit(more, p);
    if Get(n.next, p) > First(n.log) {
      AppendOutcome(n, f, p);
      Built(n, p);
      if Aligned(c, v, p) {
        AlignedAfterAccept(c, more, v, p);
      } else {
        BackupStep(run + [c1], v, p, Asked(n, v, p));
      }
    } else {
      InstallOutcome(n, f, p);
      AlignedByCommit(more, v, p);
    }
  }

  lemma BackupStep(run: seq<Cluster>, v: Id, p: Id, x: Rpc)
    requires |run| > 0 && IsRun(run) && Ready2(run[|run| - 1], v, p) && IsAppend(x, v, p) && x in run[|run| - 1].sent
    requires var c := run[|run| - 1]; var q := x.req.append;
      c.nodes[p].node.term <= q.term == c.nodes[v].node.term && !Accepts(c.nodes[p].node, q)
    ensures var c := run[|run| - 1]; var q := x.req.append;
      1 <= Backed(c.nodes[v].node, p, HandleAppend(c.nodes[p].node, q).resp) <= q.prevIndex
  {
    hide IsRun, HandleAppend, Accepts, Backed;
    BackupDescends(run, |run| - 1, |run| - 1, x, v, p);
  }

  /** `d` is reached from `c` by `k` exchanges between `v` and `p`. */
  ghost predicate Exchanges(c: Cluster, v: Id, p: Id, d: Cluster, k: nat)
    decreases k
  {
    if k == 0 then d == c else exists m :: Exchange(c, v, p, m) && Exchanges(m, v, p, d, k - 1)
  }

  /** The leader has sent everything, and the follower's log answers for the last entry. */
  ghost predicate CaughtUp(c: Cluster, v: Id, p: Id)
  {
    Ready2(c, v, p) &&
    var n, f := c.nodes[v].node, c.nodes[p].node;
    Get(n.next, p) == Last(n.log) + 1 && f.term <= n.term && Last(n.log) <= Last(f.log) &&
    (Last(n.log) < First(f.log) || TermAt(f.log, Last(n.log)) == Some(LastLogTerm(n.log)))
  }

  /** In every reachable state, a leader that keeps to one follower and retries at once brings it
      up to date within `Rounds` exchanges, or one if nothing was missing, provided nothing else
      happens meanwhile: rejections only move the cursor down, one snapshot ends them, and
      acceptances move it up. The follower then also knows what the leader had committed. */
  lemma {:induction false} CatchesUp(run: seq<Cluster>, v: Id, p: Id) returns (more: seq<Cluster>, k: nat)
    requires Pair(run, v, p)
    ensures Pair(more, v, p) && run <= more && k <= Max(1, Rounds(run[|run| - 1], v, p))
    ensures var c, d := run[|run| - 1], more[|more| - 1];
      Exchanges(c, v, p, d, k) && CaughtUp(d, v, p) && Settled(c, d, v, p) &&
      Between(c, d, v, p) && Advanced(c.nodes[v].node, d.nodes[v].node, p)
    decreases Rounds(run[|run| - 1], v, p)
  {
    hide IsRun, BuildAppend, Accepts, ExchangeBy, Committable;
    var c := run[|run| - 1];
    var c1, c2, d := ExchangeShrinks(run, v, p);
    more, k := run + [c1] + [c2] + [d], 1;
    assert more[|more| - 1] == d;
    assert Exchange(c, v, p, d);
    if Rounds(d, v, p) == 0 {
      NothingLeft(more, v, p);
      assert Exchanges(d, v, p, d, 0);
    } else {
      more, k := CatchesUp(more, v, p);
      k := k + 1;
    }
  }

  lemma NothingLeft(run: seq<Cluster>, v: Id, p: Id)
    requires Pair(run, v, p) && Rounds(run[|run| - 1], v, p) == 0
    ensures CaughtUp(run[|run| - 1], v, p)
  {
    hide IsRun, BuildAppend;
    CanAsk(run, v, p);
    Built(run[|run| - 1].nodes[v].node, p);
  }
}
