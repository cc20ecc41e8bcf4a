/**
  Elections: what the two vote handlers answer, that a poll foretells the vote, that a majority's
  votes make a leader, and the one situation from which no election ever starts again.
*/
module RaftElections {
  import opened RaftTypes
  import opened RaftLog
  import opened Persist
  import opened NodeSpec
  import opened ClusterSpec
  import opened History
  import opened Relation
  import opened RelationVotes
  import opened RunHistory
  import opened RaftSafety
  import opened RaftCatchUp
  import opened RaftService
  import Quorums

  // ---------------------------------------------------------------------------
  // What is answered
  // ---------------------------------------------------------------------------

  /** The server believes in a live leader. */
  predicate Sticky(n: Node, recent: bool) { n.leaderId != 0 && recent }

  /** Log `a` is behind log `b` by last term, or in length at the same last term. */
  predicate Behind(aTerm: nat, aIndex: nat, bTerm: nat, bIndex: nat)
  {
    aTerm < bTerm || (aTerm == bTerm && aIndex < bIndex)
  }

  /** When a vote is granted: nobody else has it in this term, the candidate's log is not behind,
      and no live leader speaks against raising the term. A grant is what makes the vote. */
  lemma VoteExact(n: Node, q: VoteRequest, recent: bool)
    requires |n.log| > 0 && !q.preVote && q.candidate != NO_VOTE
    ensures var o := HandleVote(n, q, recent);
      o.resp.granted <==>
        !Behind(q.lastTerm, q.lastIndex, LastLogTerm(n.log), Last(n.log)) &&
        if q.term > n.term then !Sticky(n, recent) else q.term == n.term && n.vote in {NO_VOTE, q.candidate}
    ensures var o := HandleVote(n, q, recent);
      (o.resp.granted ==> o.node.term == q.term && o.node.vote == q.candidate) &&
      (!o.resp.granted && o.node.term == n.term ==> o.node == n) && o.resp.term == o.node.term &&
      o.node.term == (if q.term > n.term && !Sticky(n, recent) then q.term else n.term) && o.node.log == n.log
  {
    hide Done, Points;
  }

  /** A request that comes again gets the same answer, once granted whatever the clock says; and
      nobody else gets the vote in that term. */
  lemma VoteRepeats(n: Node, q: VoteRequest, recent: bool, again: bool, other: VoteRequest)
    requires |n.log| > 0 && !q.preVote && q.candidate != NO_VOTE
    requires !other.preVote && other.candidate !in {NO_VOTE, q.candidate} && other.term == q.term
    ensures var o := HandleVote(n, q, recent);
      |o.node.log| > 0 && (again == recent || o.resp.granted ==> HandleVote(o.node, q, again).resp == o.resp) &&
      (o.resp.granted ==> !HandleVote(o.node, other, again).resp.granted)
  {
    hide HandleVote;
    VoteExact(n, q, recent);
    var m := HandleVote(n, q, recent).node;
    VoteExact(m, q, again);
    VoteExact(m, other, again);
    LeaderIdKept(n, q, recent);
  }

  lemma LeaderIdKept(n: Node, q: VoteRequest, recent: bool)
    requires |n.log| > 0
    ensures HandleVote(n, q, recent).node.leaderId == n.leaderId
  {
    hide Done, Points;
  }

  /** A poll changes nothing, and is answered as the vote in a new term would be. */
  lemma PollExact(n: Node, q: VoteRequest, recent: bool)
    requires |n.log| > 0 && q.preVote
    ensures var o := HandleVote(n, q, recent);
      o.node == n && o.trail == [] && o.resp.term == n.term &&
      (o.resp.granted <==> q.term > n.term && HandleVote(n, q.(preVote := false), recent).resp.granted)
  {
    hide Done, Points;
  }

  /** Contact with a leader settles who leads, and while it is recent neither a poll nor a vote
      request can unsettle the server. */
  lemma ContactSticks(n: Node, x: AppendRequest, q: VoteRequest)
    requires Wf(n.log) && x.term >= n.term && x.leader != 0
    ensures var m := HandleAppend(n, x).node;
      m.role == Follower && m.leaderId == x.leader && m.term == x.term && |m.log| > 0 &&
      (q.term > m.term ==>
        HandleVote(m, q, true).node == m && !HandleVote(m, q, true).resp.granted && HandleVote(m, q, true).trail == [])
  {
    hide Done, Points, ConflictHint;
    AcceptedOrNot(n, x);
  }

  lemma AcceptedOrNot(n: Node, x: AppendRequest)
    requires Wf(n.log) && x.term >= n.term
    ensures var m := HandleAppend(n, x).node;
      m.role == Follower && m.leaderId == x.leader && m.term == x.term && |m.log| > 0
  {
    hide Done, Points, ConflictHint, FirstNew;
  }

  /** A leader that has resigned believes in nobody: it helps whoever polls it with a good log. */
  lemma ResignUnsticks(n: Node, q: VoteRequest, recent: bool)
    requires |n.log| > 0 && q.preVote && q.term > n.term
    requires !Behind(q.lastTerm, q.lastIndex, LastLogTerm(n.log), Last(n.log))
    ensures var m := StepDown(n);
      m.role == Follower && m.term == n.term && m.vote == n.vote && m.disk == n.disk && m.log == n.log &&
      HandleVote(m, q, recent).resp.granted
  {
  }

  // ---------------------------------------------------------------------------
  // A majority's votes make a leader
  // ---------------------------------------------------------------------------

  /** What a server polls with: the term it would start. */
  function PollOf(n: Node): VoteRequest
    requires |n.log| > 0
  {
    VoteRequest(n.term + 1, n.id, Last(n.log), LastLogTerm(n.log), true)
  }

  function Ballot(n: Node, v: Id, p: Id): Rpc
    requires |n.log| > 0
  {
    Rpc(v, p, AskVote(PollOf(n).(preVote := false)))
  }

  /** The first `k` of `q` have voted for `v`, who stood in state `n`; the others are as they were. */
  ghost predicate Voting(run: seq<Cluster>, c: Cluster, v: Id, q: seq<Id>, k: nat)
  {
    |run| > 0 && IsRun(run) && k <= |q| && v in c.nodes && Wf(c.nodes[v].node.log) &&
    (forall i, j :: 0 <= i < j < |q| ==> q[i] != q[j]) &&
    var d := Now(run);
    d.servers == c.servers && d.nodes.Keys == c.nodes.Keys &&
    Standing(c.nodes[v].node, d.nodes[v].node, k) &&
    (forall i :: 0 <= i < |q| ==> q[i] in c.nodes && q[i] != v && Polled(c, d, v, q[i], i < k))
  }

  /** Candidate with the votes so far, too few, or leader. */
  ghost predicate Standing(n: Node, m: Node, k: nat)
  {
    m.term == n.term + 1 && m.log == n.log && m.peers == n.peers && m.id == n.id && m.role != Follower &&
    (m.role == Candidate ==> m.votes == 1 + k < Majority(n))
  }

  ghost predicate Polled(c: Cluster, d: Cluster, v: Id, p: Id, voted: bool)
    requires v in c.nodes && Wf(c.nodes[v].node.log)
  {
    p in c.nodes && p in d.nodes && Wf(c.nodes[p].node.log) &&
    if voted then d.nodes[p].node.term == c.nodes[v].node.term + 1
    else
      d.nodes[p] == c.nodes[p] && Ballot(c.nodes[v].node, v, p) in d.sent && Ballot(c.nodes[v].node, v, p) in d.open
  }

  lemma StandStep(c: Cluster, v: Id)
    requires WfCluster(c) && v in c.nodes && c.nodes[v].node.role == Follower && c.nodes[v].node.id == v
    ensures Enabled(c, Campaign(v))
    ensures var d, n := Next(c, Do(Campaign(v))), c.nodes[v].node;
      d.servers == c.servers && d.nodes == c.nodes[v := d.nodes[v]] && Standing(n, d.nodes[v].node, 0) &&
      (n.peers != [] ==> d.nodes[v].node.role == Candidate) &&
      (d.nodes[v].node.role == Candidate ==>
        forall p :: p in n.peers ==> Ballot(n, v, p) in d.sent && Ballot(n, v, p) in d.open)
  {
    hide Done, Points;
  }

  lemma BallotStep(c: Cluster, n: Node, v: Id, p: Id, recent: bool)
    requires WfCluster(c) && Wf(n.log) && p in c.nodes && Ballot(n, v, p) in c.sent
    requires HandleVote(c.nodes[p].node, PollOf(n), recent).resp.granted && n.id != NO_VOTE
    ensures var x := Ballot(n, v, p); Enabled(c, Serve(x, recent))
    ensures var x := Ballot(n, v, p); var d := Next(c, Do(Serve(x, recent)));
      d.servers == c.servers && d.nodes == c.nodes[p := d.nodes[p]] && d.sent == c.sent && d.open == c.open &&
      d.nodes[p].node.term == n.term + 1 && Wf(d.nodes[p].node.log) &&
      Reply(x, Voted(VoteResponse(n.term + 1, true))) in d.replies
  {
    hide HandleVote;
    PollExact(c.nodes[p].node, PollOf(n), recent);
    VoteExact(c.nodes[p].node, PollOf(n).(preVote := false), recent);
  }

  lemma CountStep(c: Cluster, n: Node, v: Id, p: Id, k: nat)
    requires WfCluster(c) && Wf(n.log) && v in c.nodes && Standing(n, c.nodes[v].node, k)
    requires var x := Ballot(n, v, p); x in c.open && Reply(x, Voted(VoteResponse(n.term + 1, true))) in c.replies
    ensures var y := Reply(Ballot(n, v, p), Voted(VoteResponse(n.term + 1, true))); Enabled(c, Receive(y))
    ensures var y := Reply(Ballot(n, v, p), Voted(VoteResponse(n.term + 1, true))); var d := Next(c, Do(Receive(y)));
      d.servers == c.servers && d.nodes == c.nodes[v := d.nodes[v]] && d.sent == c.sent &&
      d.open == c.open - {Ballot(n, v, p)} && Standing(n, d.nodes[v].node, k + 1)
  {
    hide Done, Points;
  }

  /** One more of them votes, and the vote is counted. */
  lemma OneVotes(run: seq<Cluster>, c: Cluster, v: Id, q: seq<Id>, k: nat, recent: bool) returns (more: seq<Cluster>)
    requires Voting(run, c, v, q, k) && k < |q| && c.nodes[v].node.id == v != NO_VOTE
    requires HandleVote(c.nodes[q[k]].node, PollOf(c.nodes[v].node), recent).resp.granted
    ensures Voting(more, c, v, q, k + 1) && run <= more
  {
    hide IsRun, Next, Enabled, Standing, PollOf, HandleVote;
    var n, p := c.nodes[v].node, q[k];
    RunsAreWellFormed(run, |run| - 1);
    assert Polled(c, Now(run), v, p, false);
    BallotStep(Now(run), n, v, p, recent);
    var served := RunDoes(run, Serve(Ballot(n, v, p), recent));
    RunsAreWellFormed(served, |served| - 1);
    CountStep(Now(served), n, v, p, k);
    more := RunDoes(served, Receive(Reply(Ballot(n, v, p), Voted(VoteResponse(n.term + 1, true)))));
    VotedNow(run, served, more, c, v, q, k);
  }

  lemma VotedNow(run: seq<Cluster>, served: seq<Cluster>, more: seq<Cluster>, c: Cluster, v: Id, q: seq<Id>, k: nat)
    requires Voting(run, c, v, q, k) && k < |q| && |served| > 0 && |more| > 0 && IsRun(more)
    requires var d, e, f, p := Now(run), Now(served), Now(more), q[k];
      e.servers == d.servers && p in e.nodes && e.nodes == d.nodes[p := e.nodes[p]] && e.sent == d.sent &&
      e.open == d.open && e.nodes[p].node.term == c.nodes[v].node.term + 1 &&
      f.servers == e.servers && v in f.nodes && f.nodes == e.nodes[v := f.nodes[v]] && f.sent == e.sent &&
      f.open == e.open - {Ballot(c.nodes[v].node, v, p)} && Standing(c.nodes[v].node, f.nodes[v].node, k + 1)
    ensures Voting(more, c, v, q, k + 1)
  {
    hide IsRun, Standing, PollOf;
    forall i | 0 <= i < |q|
      ensures q[i] in c.nodes && q[i] != v && Polled(c, Now(more), v, q[i], i < k + 1)
    {
      assert Polled(c, Now(run), v, q[i], i < k);
    }
  }

  /** A poll foretells the vote: if a follower's poll is granted by enough servers to make a
      majority, and it stands and they answer with the same clocks, it leads the next term, and
      they have joined it. */
  lemma Elects(run: seq<Cluster>, v: Id, q: seq<Id>, recent: Id -> bool) returns (more: seq<Cluster>)
    requires |run| > 0 && IsRun(run) && At(run, |run| - 1, v) && Now(run).nodes[v].node.role == Follower
    requires forall i, j :: 0 <= i < j < |q| ==> q[i] != q[j]
    requires forall i :: 0 <= i < |q| ==> Supports(Now(run), v, q[i], recent)
    requires Quorums.Majority(Now(run).servers, {v} + Elems(q))
    ensures Team(more, v, q) && run <= more && Now(more).servers == Now(run).servers
    ensures var n, m := Now(run).nodes[v].node, Now(more).nodes[v].node; m.term == n.term + 1 && m.log == n.log
  {
    hide IsRun, Next, Enabled, Standing, Polled, Quorums.Majority, PeersOf, Supports;
    var c := Now(run);
    RunsAreWellFormed(run, |run| - 1);
    Who(run, v);
    RealId(run, v);
    StandStep(c, v);
    more := RunDoes(run, Campaign(v));
    Opened(run, more, v, q, recent);
    var k := 0;
    while k < |q|
      invariant k <= |q| && Voting(more, c, v, q, k) && run <= more
    {
      SupportsGrants(c, v, q[k], recent);
      more := OneVotes(more, c, v, q, k, recent(q[k]));
      k := k + 1;
    }
    Won(more, c, v, q) by { SupportsPeers(c, v, q, recent); }
  }

  /** So enough granted polls lead all the way to service: the poller is elected, takes any batch
      of proposals, and the machines of all who granted the poll come to contain it. */
  lemma ElectsAndServes(run: seq<Cluster>, v: Id, q: seq<Id>, recent: Id -> bool, data: seq<seq<Byte>>)
    returns (elected: seq<Cluster>, more: seq<Cluster>)
    requires |run| > 0 && IsRun(run) && At(run, |run| - 1, v) && Now(run).nodes[v].node.role == Follower
    requires q != [] && data != [] && forall i, j :: 0 <= i < j < |q| ==> q[i] != q[j]
    requires forall i :: 0 <= i < |q| ==> Supports(Now(run), v, q[i], recent)
    requires Quorums.Majority(Now(run).servers, {v} + Elems(q))
    ensures IsRun(more) && run <= elected < more && At(elected, |elected| - 1, v)
    ensures Moves(Now(elected), Do(Offer(v, data)), more[|elected|])
    ensures forall w :: w == v || w in q ==> Contains(Now(more), w, Now(elected).nodes[v].node, data)
  {
    hide IsRun, Quorums.Majority, Supports, Contains, Moves, Pair;
    elected := Elects(run, v, q, recent);
    more := Serves(elected, v, q, data);
  }

  /** Server `p` would grant the poll of `v`. */
  ghost predicate Supports(c: Cluster, v: Id, p: Id, recent: Id -> bool)
  {
    v in c.nodes && p in c.nodes && p != v && |c.nodes[v].node.log| > 0 && |c.nodes[p].node.log| > 0 &&
    HandleVote(c.nodes[p].node, PollOf(c.nodes[v].node), recent(p)).resp.granted
  }

  lemma SupportsGrants(c: Cluster, v: Id, p: Id, recent: Id -> bool)
    requires Supports(c, v, p, recent)
    ensures v in c.nodes && p in c.nodes && |c.nodes[v].node.log| > 0 && |c.nodes[p].node.log| > 0
    ensures HandleVote(c.nodes[p].node, PollOf(c.nodes[v].node), recent(p)).resp.granted
  {
  }

  lemma SupportsPeers(c: Cluster, v: Id, q: seq<Id>, recent: Id -> bool)
    requires forall i :: 0 <= i < |q| ==> Supports(c, v, q[i], recent)
    ensures v !in q && forall p :: p in q ==> p in c.nodes
  {
  }

  lemma RealId(run: seq<Cluster>, v: Id)
    requires |run| > 0 && IsRun(run) && v in Now(run).nodes
    ensures v != NO_VOTE
  {
    hide IsRun, Inv, Rel, Grows, NodeRel;
    var h, k, top := TwoHistories(run, |run| - 1, |run| - 1);
    Explained(Now(run), h, v);
    NodeParts(Now(run).nodes[v], h, v);
  }

  /** The ballots are out. */
  lemma Opened(run: seq<Cluster>, more: seq<Cluster>, v: Id, q: seq<Id>, recent: Id -> bool)
    requires |run| > 0 && |more| > 0 && IsRun(more) && v in Now(run).nodes && WfCluster(Now(run))
    requires PeersOf(Now(run).nodes[v].node.peers, v, Now(run).servers)
    requires forall i, j :: 0 <= i < j < |q| ==> q[i] != q[j]
    requires forall i :: 0 <= i < |q| ==> Supports(Now(run), v, q[i], recent)
    requires var c, d, n := Now(run), Now(more), Now(run).nodes[v].node;
      d.servers == c.servers && v in d.nodes && d.nodes == c.nodes[v := d.nodes[v]] &&
      Standing(n, d.nodes[v].node, 0) &&
      (d.nodes[v].node.role == Candidate ==>
        forall p :: p in n.peers ==> Ballot(n, v, p) in d.sent && Ballot(n, v, p) in d.open)
    requires Now(run).nodes[v].node.peers != [] ==> Now(more).nodes[v].node.role == Candidate
    ensures Voting(more, Now(run), v, q, 0)
  {
    hide IsRun, HandleVote, PollOf, Standing;
    forall i | 0 <= i < |q|
      ensures q[i] in Now(run).nodes && q[i] != v && Polled(Now(run), Now(more), v, q[i], false)
    {
      assert Supports(Now(run), v, q[i], recent);
      assert q[i] in Elems(Now(run).nodes[v].node.peers) && q[i] in Now(run).nodes[v].node.peers;
    }
  }

  lemma Won(run: seq<Cluster>, c: Cluster, v: Id, q: seq<Id>)
    requires Voting(run, c, v, q, |q|) && v !in q && c.nodes.Keys == c.servers
    requires PeersOf(c.nodes[v].node.peers, v, c.servers) && v in c.servers
    requires Quorums.Majority(c.servers, {v} + Elems(q))
    ensures Team(run, v, q) && Now(run).servers == c.servers
    ensures var n, m := c.nodes[v].node, Now(run).nodes[v].node; m.term == n.term + 1 && m.log == n.log
  {
    hide IsRun, Majority, Quorums.Majority, PollOf;
    RunsAreWellFormed(run, |run| - 1);
    var n := c.nodes[v].node;
    CountIsMajority(n, v, c.servers, {v} + Elems(q));
    DistinctSize(q);
    assert |{v} + Elems(q)| == 1 + |q|;
    forall i | 0 <= i < |q|
      ensures Pair(run, v, q[i])
    {
      assert Polled(c, Now(run), v, q[i], true);
      assert q[i] in Elems(n.peers);
    }
  }
}
