/** How the state of a cluster and the history of its run belong together. */
module Relation {
  import opened RaftTypes
  import opened RaftLog
  import opened Persist
  import opened NodeSpec
  import opened ClusterSpec
  import opened History
  import opened HistorySteps

  // ---------------------------------------------------------------------------
  // One server
  // ---------------------------------------------------------------------------

  /** The retained log is the end of the virtual log `L`; the sentinel answers for the
      committed prefix `K`. Once the commit index is above the sentinel, `K` and `L` agree. */
  ghost predicate LogRel(log: seq<Entry>, L: seq<Entry>, K: seq<Entry>)
  {
    Wf(log) && |L| == Last(log) && First(log) <= |K| <= |L| &&
    (forall i :: 1 <= i < |log| ==> log[i] == L[First(log) + i - 1]) &&
    log[0].term == (if First(log) == 0 then 0 else K[First(log) - 1].term) &&
    (|log| == 1 ==> L == K) &&
    (|K| > First(log) ==> K <= L)
  }

  ghost predicate SnapShape(s: Snap)
  {
    |s.image| == s.index && s.term == (if s.index == 0 then 0 else s.image[s.index - 1].term)
  }

  /** A snapshot stands for a prefix of `K`. */
  ghost predicate SnapRel(s: Snap, K: seq<Entry>)
  {
    SnapShape(s) && s.image <= K
  }

  ghost predicate VoteRel(vote: nat, h: Hist, v: Id)
  {
    if (v, TermOf(h, v)) in h.votes then vote == h.votes[(v, TermOf(h, v))] && vote != NO_VOTE else vote == NO_VOTE
  }

  /** What the disk holds is what the history says the server may not lose. */
  ghost predicate DurRel(d: Disk, h: Hist, v: Id)
    requires Basic(h)
  {
    var p := Recover(d);
    v in h.servers && p.term == h.term[v] && VoteRel(p.vote, h, v) &&
    SnapShape(p.snap) && Committed(h, p.snap.image, h.term[v]) && p.snap.index <= |h.virt[v]| &&
    p.entries == h.virt[v][p.snap.index..] &&
    (p.snap.index == |h.virt[v]| ==> h.virt[v] == p.snap.image)
  }

  ghost predicate CommittedUpTo(h: Hist, T: nat, k: nat)
  {
    T in h.llog && k <= |h.llog[T]| && Committed(h, h.llog[T][..k], T)
  }

  ghost predicate CandidateRel(n: Node, h: Hist, v: Id)
    requires Basic(h)
  {
    v in h.servers && (v, n.term) in h.cands && h.cands[(v, n.term)] == h.virt[v] &&
    (n.term in h.llog ==> h.leader[n.term] != v)
  }

  /** A match index is backed by an acknowledgement, or lies in what is committed anyway. */
  ghost predicate MatchRel(n: Node, h: Hist, p: Id)
  {
    Get(n.matched, p) <= AckOf(h, p, n.term) || CommittedUpTo(h, n.term, Get(n.matched, p))
  }

  ghost predicate LeaderRel(n: Node, h: Hist, v: Id)
    requires Basic(h)
  {
    v in h.servers && n.term in h.llog && h.leader[n.term] == v && h.llog[n.term] == h.virt[v] &&
    h.cp[v] <= h.virt[v] && AckOf(h, v, n.term) >= |h.virt[v]| &&
    (n.term in h.commits ==> h.commits[n.term] <= n.commit) &&
    forall p :: p in n.peers ==> 1 <= Get(n.next, p) <= |h.virt[v]| + 1 && MatchRel(n, h, p)
  }

  /** Where the state machine stands once every message in the queue has reached it. */
  ghost function FedAll(app: seq<Entry>, queue: seq<ApplyMsg>): seq<Entry>
    decreases |queue|
  {
    if queue == [] then app else FedAll(Fed(app, queue[0]), queue[1..])
  }

  /** Each message fits where it will arrive: the next command, or a snapshot that is newer. */
  ghost predicate Fitting(app: seq<Entry>, m: ApplyMsg, K: seq<Entry>)
  {
    match m
    case Command(e) => |app| < |K| && e == K[|app|]
    case Restore(s) => SnapRel(s, K) && |app| < s.index
  }

  ghost predicate FeedRel(app: seq<Entry>, queue: seq<ApplyMsg>, K: seq<Entry>)
    decreases |queue|
  {
    app <= K && (queue == [] || (Fitting(app, queue[0], K) && FeedRel(Fed(app, queue[0]), queue[1..], K)))
  }

  ghost predicate CursorRel(r: Replica, K: seq<Entry>)
  {
    var n := r.node;
    |n.log| > 0 && n.commit == |K| && First(n.log) <= n.applied <= n.commit &&
    SnapRel(n.cache, K) && SnapRel(n.disk.snap, K) && First(n.log) <= n.disk.snap.index <= n.applied &&
    (n.pending.Some? ==>
      SnapRel(n.pending.value, K) && n.pending.value.index == n.applied > |FedAll(r.app, r.queue)|) &&
    FeedRel(r.app, r.queue, K) && |FedAll(r.app, r.queue)| <= n.applied &&
    (n.pending.None? ==> |FedAll(r.app, r.queue)| == n.applied) &&
    (n.disk.snap.index == First(n.log) || n.disk.snap.index <= |r.app|)
  }

  lemma CursorParts(r: Replica, K: seq<Entry>)
    requires CursorRel(r, K)
    ensures |r.node.log| > 0 && r.node.commit == |K| && First(r.node.log) <= r.node.applied <= |K|
    ensures First(r.node.log) <= r.node.disk.snap.index <= r.node.applied && SnapRel(r.node.disk.snap, K)
  {
    hide FeedRel, FedAll;
  }

  ghost predicate NodeRel(r: Replica, h: Hist, v: Id)
    requires Basic(h)
  {
    var n := r.node;
    v in h.servers && n.id == v && v != 0 && PeersOf(n.peers, v, h.servers) &&
    n.term == h.term[v] && VoteRel(n.vote, h, v) && DurRel(n.disk, h, v) &&
    LogRel(n.log, h.virt[v], h.cp[v]) && CursorRel(r, h.cp[v]) &&
    (n.role == Candidate ==> CandidateRel(n, h, v)) && (n.role == Leader ==> LeaderRel(n, h, v))
  }

  lemma NodeParts(r: Replica, h: Hist, v: Id)
    requires Basic(h) && NodeRel(r, h, v)
    ensures v in h.servers && r.node.id == v && v != 0 && PeersOf(r.node.peers, v, h.servers)
    ensures r.node.term == h.term[v] && VoteRel(r.node.vote, h, v) && DurRel(r.node.disk, h, v)
    ensures LogRel(r.node.log, h.virt[v], h.cp[v]) && CursorRel(r, h.cp[v])
    ensures (r.node.role == Candidate ==> CandidateRel(r.node, h, v)) &&
      (r.node.role == Leader ==> LeaderRel(r.node, h, v))
  {
  }

  lemma NodeIntro(r: Replica, h: Hist, v: Id)
    requires Basic(h) && v in h.servers && r.node.id == v && v != 0 && PeersOf(r.node.peers, v, h.servers)
    requires r.node.term == h.term[v] && VoteRel(r.node.vote, h, v) && DurRel(r.node.disk, h, v)
    requires LogRel(r.node.log, h.virt[v], h.cp[v]) && CursorRel(r, h.cp[v])
    requires (r.node.role == Candidate ==> CandidateRel(r.node, h, v)) &&
      (r.node.role == Leader ==> LeaderRel(r.node, h, v))
    ensures NodeRel(r, h, v)
  {
  }

  // ---------------------------------------------------------------------------
  // Messages
  // ---------------------------------------------------------------------------

  ghost predicate VoteRpcRel(from: Id, q: VoteRequest, h: Hist)
  {
    q.candidate == from && !q.preVote && (from, q.term) in h.cands &&
    q.lastIndex == |h.cands[(from, q.term)]| && q.lastTerm == LastTerm(h.cands[(from, q.term)])
  }

  ghost predicate AppendRpcRel(from: Id, q: AppendRequest, h: Hist)
  {
    q.leader == from && q.term in h.llog && q.term in h.leader && h.leader[q.term] == from &&
    q.prevIndex + |q.entries| <= |h.llog[q.term]| &&
    (forall i :: 0 <= i < |q.entries| ==> q.entries[i] == h.llog[q.term][q.prevIndex + i]) &&
    q.prevTerm == (if q.prevIndex == 0 then 0 else h.llog[q.term][q.prevIndex - 1].term) &&
    CommittedUpTo(h, q.term, q.leaderCommit)
  }

  ghost predicate InstallRpcRel(from: Id, q: SnapRequest, h: Hist)
  {
    q.leader == from && q.term in h.llog && q.term in h.leader && h.leader[q.term] == from &&
    SnapShape(q.snap) && q.snap.index > 0 && Committed(h, q.snap.image, q.term)
  }

  ghost predicate RpcRel(x: Rpc, h: Hist)
  {
    x.from != x.to && x.from in h.servers && x.to in h.servers &&
    match x.req
    case AskVote(q) => VoteRpcRel(x.from, q, h)
    case AskAppend(q) => AppendRpcRel(x.from, q, h)
    case AskInstall(q) => InstallRpcRel(x.from, q, h)
  }

  ghost predicate ReplyRel(y: Reply, h: Hist)
  {
    Fits(y.rpc.req, y.resp) &&
    match y.resp
    case Voted(a) =>
      a.granted ==> (y.rpc.to, y.rpc.req.vote.term) in h.votes && h.votes[(y.rpc.to, y.rpc.req.vote.term)] == y.rpc.from
    case Appended(a) =>
      var q := y.rpc.req.append;
      if a.success then
        q.prevIndex + |q.entries| <= AckOf(h, y.rpc.to, q.term) || CommittedUpTo(h, q.term, q.prevIndex + |q.entries|)
      else a.conflictIndex <= q.prevIndex
    case Installed(_) => true
  }

  /** The votes counted so far come from different servers, each of which voted. */
  ghost predicate Tally(open: set<Rpc>, n: Node, h: Hist, v: Id, t: set<Id>)
  {
    v in t && |t| == n.votes && t <= Voters(h, n.term, v) &&
    forall x :: x in open && x.from == v && x.req.AskVote? && x.req.vote.term == n.term ==> x.to !in t
  }

  ghost predicate TallyRel(open: set<Rpc>, n: Node, h: Hist, v: Id)
  {
    n.role == Candidate ==> exists t :: Tally(open, n, h, v, t)
  }

  ghost predicate Rel(c: Cluster, h: Hist)
    requires Basic(h)
  {
    c.servers == h.servers && c.nodes.Keys == h.servers && c.open <= c.sent &&
    (forall v :: v in h.servers ==> NodeRel(c.nodes[v], h, v)) &&
    (forall v :: v in h.servers ==> TallyRel(c.open, c.nodes[v].node, h, v)) &&
    (forall x :: x in c.sent ==> RpcRel(x, h)) &&
    (forall y :: y in c.replies ==> y.rpc in c.sent && ReplyRel(y, h))
  }

  // ---------------------------------------------------------------------------
  // What others do leaves all this intact
  // ---------------------------------------------------------------------------

  lemma CommittedUpToGrows(h: Hist, k: Hist, T: nat, n: nat)
    requires Grows(h, k) && CommittedUpTo(h, T, n)
    ensures CommittedUpTo(k, T, n)
  {
    assert h.llog[T][..n] == k.llog[T][..n];
    CommittedGrows(h, k, h.llog[T][..n], T, T);
  }

  lemma RpcGrows(x: Rpc, h: Hist, k: Hist)
    requires Grows(h, k) && RpcRel(x, h)
    ensures RpcRel(x, k)
  {
    match x.req
    case AskVote(_) =>
    case AskAppend(q) => CommittedUpToGrows(h, k, q.term, q.leaderCommit);
    case AskInstall(q) => CommittedGrows(h, k, q.snap.image, q.term, q.term);
  }

  lemma ReplyGrows(y: Reply, h: Hist, k: Hist)
    requires Grows(h, k) && ReplyRel(y, h)
    ensures ReplyRel(y, k)
  {
    match y.resp
    case Voted(_) =>
    case Appended(a) =>
      var q := y.rpc.req.append;
      assert AckOf(h, y.rpc.to, q.term) <= AckOf(k, y.rpc.to, q.term);
      if a.success && CommittedUpTo(h, q.term, q.prevIndex + |q.entries|) {
        CommittedUpToGrows(h, k, q.term, q.prevIndex + |q.entries|);
      }
    case Installed(_) =>
  }

  lemma DurFrame(d: Disk, h: Hist, k: Hist, v: Id, w: Id)
    requires Basic(h) && Basic(k) && Local(h, k, v) && w != v && DurRel(d, h, w)
    ensures DurRel(d, k, w)
  {
    CommittedGrows(h, k, Recover(d).snap.image, h.term[w], k.term[w]);
  }

  lemma LeaderFrame(n: Node, h: Hist, k: Hist, v: Id, w: Id)
    requires Basic(h) && Basic(k) && Local(h, k, v) && w != v && LeaderRel(n, h, w)
    ensures LeaderRel(n, k, w)
  {
    assert AckOf(h, w, n.term) <= AckOf(k, w, n.term);
    forall p | p in n.peers
      ensures MatchRel(n, k, p)
    {
      assert AckOf(h, p, n.term) <= AckOf(k, p, n.term);
      if CommittedUpTo(h, n.term, Get(n.matched, p)) {
        CommittedUpToGrows(h, k, n.term, Get(n.matched, p));
      }
    }
  }

  lemma NodeFrame(r: Replica, h: Hist, k: Hist, v: Id, w: Id)
    requires Basic(h) && Basic(k) && Local(h, k, v) && w != v && NodeRel(r, h, w)
    ensures NodeRel(r, k, w)
  {
    DurFrame(r.node.disk, h, k, v, w);
    if r.node.role == Leader { LeaderFrame(r.node, h, k, v, w); }
    hide LeaderRel, DurRel, LogRel, CursorRel;
  }

  lemma TallyFrame(open: set<Rpc>, open': set<Rpc>, n: Node, h: Hist, k: Hist, v: Id, w: Id)
    requires Grows(h, k) && w != v && TallyRel(open, n, h, w)
    requires forall x :: x in open' && x.from == w ==> x in open
    ensures TallyRel(open', n, k, w)
  {
    if n.role == Candidate {
      var t :| Tally(open, n, h, w, t);
      assert Tally(open', n, k, w, t);
    }
  }

  // ---------------------------------------------------------------------------
  // Starting from disk
  // ---------------------------------------------------------------------------

  /** A log that starts at a snapshot and keeps everything above it. */
  lemma FreshLog(s: Snap, L: seq<Entry>)
    requires Shape(L) && SnapShape(s) && s.index <= |L| && (s.index == |L| ==> L == s.image)
    ensures LogRel([Entry(s.index, s.term, [])] + L[s.index..], L, s.image)
  {
    var log := [Entry(s.index, s.term, [])] + L[s.index..];
    forall i | 1 <= i < |log|
      ensures log[i] == L[s.index + i - 1]
    {
    }
  }

  lemma BootCursors(d: Disk, v: Id, peers: seq<Id>, retain: nat)
    requires SnapShape(d.snap)
    ensures CursorRel(Replica(Boot(v, peers, retain, d), [], []), d.snap.image)
  {
  }

  /** A server restarted from a durable state fits the history that durable state belongs to. */
  lemma BootRel(d: Disk, h: Hist, v: Id, peers: seq<Id>, retain: nat)
    requires Basic(h) && Inv(h) && DurRel(d, h, v) && v != 0 && PeersOf(peers, v, h.servers)
    ensures Inv(Learn(h, v, d.snap.image)) && Local(h, Learn(h, v, d.snap.image), v)
    ensures NodeRel(Replica(Boot(v, peers, retain, d), [], []), Learn(h, v, d.snap.image), v)
  {
    hide Inv, Local, LogRel, CursorRel, Shape, VoteRel, Committed, PeersOf, Grows, OthersRest, OthersLead;
    LearnOk(h, v, d.snap.image);
    BootDur(d, h, v) by { assert Grows(h, Learn(h, v, d.snap.image)) by { LearnGrows(h, v, d.snap.image); } }
    VirtShape(h, v) by { InvParts(h); }
    FreshLog(d.snap, h.virt[v]);
    BootCursors(d, v, peers, retain);
  }

  lemma LearnGrows(h: Hist, v: Id, L: seq<Entry>)
    requires Local(h, Learn(h, v, L), v)
    ensures Grows(h, Learn(h, v, L))
  {
    hide Grows;
  }

  lemma BootDur(d: Disk, h: Hist, v: Id)
    requires Basic(h) && DurRel(d, h, v) && Grows(h, Learn(h, v, d.snap.image))
    ensures DurRel(d, Learn(h, v, d.snap.image), v)
  {
    CommittedGrows(h, Learn(h, v, d.snap.image), d.snap.image, h.term[v], h.term[v]);
  }
}
