/** Terms, votes and elections keep the cluster and its history together. */
module RelationVotes {
  import opened RaftTypes
  import opened RaftLog
  import opened Persist
  import opened NodeSpec
  import opened ClusterSpec
  import opened History
  import opened HistorySteps
  import opened Relation
  import Quorums

  /** `k` is a history that server `v` alone can have reached from `h`, with disk `d`. */
  ghost predicate Reaches(h: Hist, k: Hist, v: Id, d: Disk)
  {
    Basic(k) && Inv(k) && Local(h, k, v) && DurRel(d, k, v)
  }

  /** Every durable state on the way has its history. */
  ghost predicate Covers(h: Hist, v: Id, trail: seq<Disk>, hs: seq<Hist>)
  {
    |hs| == |trail| && forall i :: 0 <= i < |hs| ==> Reaches(h, hs[i], v, trail[i])
  }

  /** The critical section ends with server state `r` and history `k`. */
  ghost predicate Arrives(h: Hist, k: Hist, v: Id, r: Replica)
  {
    Basic(k) && Inv(k) && Local(h, k, v) && NodeRel(r, k, v)
  }

  lemma Stays(h: Hist, v: Id)
    requires Basic(h)
    ensures Local(h, h, v)
  {
  }

  /** Sections compose. */
  lemma ArrivesTrans(h: Hist, m: Hist, k: Hist, v: Id, r: Replica)
    requires Local(h, m, v) && Arrives(m, k, v, r)
    ensures Arrives(h, k, v, r)
  {
    LocalTrans(h, m, k, v);
    hide Inv, Local, NodeRel;
  }

  lemma CoversTrans(h: Hist, m: Hist, v: Id, trail: seq<Disk>, hs: seq<Hist>)
    requires Local(h, m, v) && Covers(m, v, trail, hs)
    ensures Covers(h, v, trail, hs)
  {
    forall i | 0 <= i < |hs|
      ensures Reaches(h, hs[i], v, trail[i])
    {
      assert Reaches(m, hs[i], v, trail[i]);
      LocalTrans(h, m, hs[i], v);
      hide Inv, Local, DurRel;
    }
  }

  lemma CoversConcat(h: Hist, v: Id, s: seq<Disk>, hs: seq<Hist>, t: seq<Disk>, ht: seq<Hist>)
    requires Covers(h, v, s, hs) && Covers(h, v, t, ht)
    ensures Covers(h, v, s + t, hs + ht)
  {
    hide Reaches;
  }

  // ---------------------------------------------------------------------------
  // A higher term
  // ---------------------------------------------------------------------------

  lemma DurHard(d: Disk, h: Hist, k: Hist, v: Id, vote: nat)
    requires Basic(h) && Basic(k) && Grows(h, k) && k.virt == h.virt && DurRel(d, h, v)
    requires VoteRel(vote, k, v)
    ensures DurRel(Done(d, SaveHardState(k.term[v], vote)), k, v)
  {
    RecoverHardState(d, k.term[v], vote);
    CommittedGrows(h, k, d.snap.image, h.term[v], k.term[v]);
  }

  ghost function AdoptHist(h: Hist, v: Id, n: Node, t: nat): Hist { if t > n.term then Bump(h, v, t) else h }

  lemma AdoptRel(r: Replica, h: Hist, v: Id, t: nat) returns (hs: seq<Hist>)
    requires Basic(h) && Inv(h) && NodeRel(r, h, v)
    ensures Arrives(h, AdoptHist(h, v, r.node, t), v, r.(node := Adopted(r.node, t)))
    ensures Covers(h, v, AdoptTrail(r.node, t), hs)
  {
    hide Inv, ElectionsOk, Local, NodeRel, LogRel, DurRel, CursorRel, VoteRel, PeersOf;
    NodeParts(r, h, v);
    if t > r.node.term {
      var k := Bump(h, v, t);
      BumpOk(h, v, t);
      InvBasic(k);
      BumpVote(h, v, t) by { InvParts(h); }
      DurHard(r.node.disk, h, k, v, NO_VOTE) by { LocalGrows(h, k, v); }
      hs := [k];
      SameCursors(r, r.(node := Adopted(r.node, t)), h.cp[v]);
      NodeIntro(r.(node := Adopted(r.node, t)), k, v);
    } else {
      Stays(h, v);
      hs := [];
    }
  }

  lemma BumpVote(h: Hist, v: Id, t: nat)
    requires Basic(h) && ElectionsOk(h) && v in h.servers && t > h.term[v]
    ensures VoteRel(NO_VOTE, Bump(h, v, t), v)
  {
  }

  lemma LocalGrows(h: Hist, k: Hist, v: Id)
    requires Local(h, k, v)
    ensures Grows(h, k)
  {
  }

  /** The cursors do not look at terms, votes or roles. */
  lemma SameCursors(r: Replica, s: Replica, K: seq<Entry>)
    requires CursorRel(r, K) && s.app == r.app && s.queue == r.queue
    requires s.node.log == r.node.log && s.node.commit == r.node.commit && s.node.applied == r.node.applied
    requires s.node.pending == r.node.pending && s.node.cache == r.node.cache && s.node.disk.snap == r.node.disk.snap
    ensures CursorRel(s, K)
  {
  }

  /** Losing a role never disturbs anything. */
  lemma FollowerRel(r: Replica, h: Hist, v: Id, leaderId: nat)
    requires Basic(h) && NodeRel(r, h, v)
    ensures NodeRel(r.(node := r.node.(role := Follower, leaderId := leaderId)), h, v)
  {
    hide LogRel, DurRel, VoteRel, FeedRel, SnapRel;
  }

  // ---------------------------------------------------------------------------
  // Votes
  // ---------------------------------------------------------------------------

  /** The last entry of the retained log is the last entry of the virtual log. */
  lemma LastOfVirtual(log: seq<Entry>, L: seq<Entry>, K: seq<Entry>)
    requires LogRel(log, L, K)
    ensures Last(log) == |L| && LastLogTerm(log) == LastTerm(L)
  {
  }

  /** Whoever holds a role in the current term has voted for itself in it. */
  lemma RoleVoted(r: Replica, h: Hist, v: Id)
    requires Basic(h) && ElectionsOk(h) && NodeRel(r, h, v) && r.node.role != Follower
    ensures r.node.vote == v
  {
    hide LogRel, CursorRel;
  }

  lemma GrantRel(r: Replica, h: Hist, v: Id, w: Id) returns (k: Hist)
    requires Basic(h) && Inv(h) && NodeRel(r, h, v) && w != v && w != NO_VOTE && (w, h.term[v]) in h.cands
    requires r.node.vote == NO_VOTE || r.node.vote == w
    requires UpToDate(LastTerm(h.cands[(w, h.term[v])]), |h.cands[(w, h.term[v])]|, h.virt[v])
    ensures Arrives(h, k, v, r.(node := r.node.(vote := w, disk := Done(r.node.disk, SaveHardState(r.node.term, w)))))
    ensures (v, h.term[v]) in k.votes && k.votes[(v, h.term[v])] == w && k.virt == h.virt
  {
    hide Inv, ElectionsOk, Local, NodeRel, LogRel, DurRel, CursorRel, CandidateRel, LeaderRel, PeersOf, UpToDate;
    NodeParts(r, h, v);
    if r.node.role != Follower { RoleVoted(r, h, v) by { InvParts(h); } }
    if r.node.vote == NO_VOTE {
      k := Vote(h, v, w);
      VoteOk(h, v, w);
    } else {
      k := h;
      Stays(h, v);
    }
    InvBasic(k);
    DurHard(r.node.disk, h, k, v, w) by { LocalGrows(h, k, v); }
    var s := r.(node := r.node.(vote := w, disk := Done(r.node.disk, SaveHardState(r.node.term, w))));
    SameCursors(r, s, h.cp[v]);
    NodeIntro(s, k, v);
  }

  /** The vote is granted and durable. */
  lemma ServeGrant(s: Replica, m: Hist, v: Id, from: Id, q: VoteRequest) returns (k: Hist)
    requires Basic(m) && Inv(m) && NodeRel(s, m, v) && from != v && from != NO_VOTE && VoteRpcRel(from, q, m)
    requires Wf(s.node.log) && q.term == s.node.term && (s.node.vote == NO_VOTE || s.node.vote == from)
    requires AtLeastAsUpToDate(q, s.node.log)
    ensures var c := SaveHardState(s.node.term, from);
      Arrives(m, k, v, s.(node := s.node.(vote := from, disk := Done(s.node.disk, c)))) &&
      Covers(m, v, Points(s.node.disk, c), [k]) && (v, q.term) in k.votes && k.votes[(v, q.term)] == from
  {
    hide Inv, Local, NodeRel, LogRel, DurRel, CursorRel, VoteRel, PeersOf, CandidateRel, LeaderRel;
    NodeParts(s, m, v);
    LastOfVirtual(s.node.log, m.virt[v], m.cp[v]);
    k := GrantRel(s, m, v, from);
    var d := Done(s.node.disk, SaveHardState(s.node.term, from));
    assert Reaches(m, k, v, d) by { NodeParts(s.(node := s.node.(vote := from, disk := d)), k, v); }
  }

  /** Serving a vote request. */
  lemma ServeVoteRel(r: Replica, h: Hist, v: Id, from: Id, q: VoteRequest, recent: bool)
    returns (k: Hist, hs: seq<Hist>)
    requires Basic(h) && Inv(h) && NodeRel(r, h, v) && from != v && from != NO_VOTE && VoteRpcRel(from, q, h)
    requires Wf(r.node.log)
    ensures var o := HandleVote(r.node, q, recent);
      Arrives(h, k, v, r.(node := o.node)) && Covers(h, v, o.trail, hs) &&
      (o.resp.granted ==> (v, q.term) in k.votes && k.votes[(v, q.term)] == from)
  {
    hide Inv, Local, NodeRel, Reaches, Done, Points, AtLeastAsUpToDate;
    var n := r.node;
    if q.term > n.term && n.leaderId != 0 && recent {
      k, hs := h, [];
      Stays(h, v);
    } else {
      hs := AdoptRel(r, h, v, q.term);
      var m := AdoptHist(h, v, n, q.term);
      var s := r.(node := Adopted(n, q.term));
      k := m;
      var taken := s.node.vote != NO_VOTE && s.node.vote != from;
      if q.term >= s.node.term && !taken && AtLeastAsUpToDate(q, s.node.log) {
        var c := SaveHardState(s.node.term, from);
        k := ServeGrant(s, m, v, from, q);
        CoversTrans(h, m, v, Points(s.node.disk, c), [k]);
        CoversConcat(h, v, AdoptTrail(n, q.term), hs, Points(s.node.disk, c), [k]);
        hs := hs + [k];
        ArrivesTrans(h, m, k, v, s.(node := s.node.(vote := from, disk := Done(s.node.disk, c))));
      }
    }
  }

  // ---------------------------------------------------------------------------
  // Elections
  // ---------------------------------------------------------------------------

  /** Standing for election in the next term. */
  lemma StandRel(r: Replica, h: Hist, v: Id) returns (k: Hist)
    requires Basic(h) && Inv(h) && NodeRel(r, h, v) && Wf(r.node.log)
    ensures Arrives(h, k, v, r.(node := Standing(r.node)))
    ensures (v, r.node.term + 1) in k.votes && k.votes[(v, r.node.term + 1)] == v
  {
    hide Inv, Local, NodeRel, LogRel, DurRel, CursorRel, PeersOf, LeaderRel, CandidateRel, VoteRel, Done;
    var n := r.node;
    NodeParts(r, h, v);
    k := StandHist(h, v);
    StandParts(n, h, k, v);
    DurHard(n.disk, h, k, v, v) by { LocalGrows(h, k, v); }
    StandSnap(n);
    SameCursors(r, r.(node := Standing(n)), h.cp[v]);
    NodeIntro(r.(node := Standing(n)), k, v);
  }

  /** A server as it becomes a candidate. */
  ghost function Standing(n: Node): Node
  {
    n.(role := Candidate, term := n.term + 1, vote := n.id, leaderId := 0, votes := 1,
       disk := Done(n.disk, SaveHardState(n.term + 1, n.id)))
  }

  lemma StandSnap(n: Node)
    ensures Standing(n).disk.snap == n.disk.snap
  {
  }

  lemma StandHist(h: Hist, v: Id) returns (k: Hist)
    requires Basic(h) && Inv(h) && v in h.servers
    ensures Basic(k) && Inv(k) && Local(h, k, v) && v in k.servers && k.term[v] == h.term[v] + 1
    ensures k == Stand(Bump(h, v, h.term[v] + 1), v) && (h.term[v] + 1 in k.llog ==> k.leader[h.term[v] + 1] != v)
  {
    hide Inv, Local;
    var b := Bump(h, v, h.term[v] + 1);
    BumpOk(h, v, h.term[v] + 1);
    InvBasic(b);
    FreshTerm(h, v) by { InvParts(h); }
    StandOk(b, v);
    k := Stand(b, v);
    InvBasic(k);
    LocalTrans(h, b, k, v);
  }

  lemma StandParts(n: Node, h: Hist, k: Hist, v: Id)
    requires Basic(h) && v in h.servers && n.id == v && v != 0 && n.term == h.term[v]
    requires k == Stand(Bump(h, v, n.term + 1), v) && Basic(k) && (n.term + 1 in k.llog ==> k.leader[n.term + 1] != v)
    ensures VoteRel(v, k, v) && CandidateRel(Standing(n), k, v)
  {
    hide Done;
  }

  lemma FreshTerm(h: Hist, v: Id)
    requires Basic(h) && LogsOk(h) && ElectionsOk(h) && v in h.servers
    ensures (v, h.term[v] + 1) !in h.votes && (h.term[v] + 1 in h.llog ==> h.leader[h.term[v] + 1] != v)
    ensures forall i :: 0 <= i < |h.virt[v]| ==> h.virt[v][i].term < h.term[v] + 1
  {
    assert TermsUpTo(h.virt[v], h.term[v]);
  }

  /** No term has two leaders: a second one would need a majority that voted already. */
  lemma NotYetWon(n: Node, h: Hist, v: Id)
    requires Basic(h) && ElectionsOk(h) && CandidateRel(n, h, v) && Quorums.Majority(h.servers, Voters(h, n.term, v))
    ensures n.term !in h.llog
  {
    if n.term in h.llog {
      var x := Quorums.Overlap(h.servers, Voters(h, n.term, v), Voters(h, n.term, h.leader[n.term]));
    }
  }

  lemma WinRel(r: Replica, h: Hist, v: Id)
    requires Basic(h) && Inv(h) && NodeRel(r, h, v) && Wf(r.node.log) && r.node.role == Candidate
    requires Quorums.Majority(h.servers, Voters(h, r.node.term, v))
    ensures Arrives(h, Win(h, v), v, r.(node := BecomeLeader(r.node)))
  {
    hide Inv, Local, NodeRel, LogRel, DurRel, CursorRel, PeersOf, VoteRel;
    NodeParts(r, h, v);
    var k := Win(h, v);
    NotYetWon(r.node, h, v) by { InvParts(h); }
    WinOk(h, v);
    InvBasic(k);
    DurVotes(r.node.disk, h, k, v) by { LocalGrows(h, k, v); }
    LastOfVirtual(r.node.log, h.virt[v], h.cp[v]);
    var s := r.(node := BecomeLeader(r.node));
    SameCursors(r, s, h.cp[v]);
    assert VoteRel(s.node.vote, k, v) by { SameVote(r.node.vote, h, k, v); }
    NewLeader(r.node, h, v) by { InvParts(h); }
    NodeIntro(s, k, v);
  }

  lemma SameVote(vote: nat, h: Hist, k: Hist, v: Id)
    requires VoteRel(vote, h, v) && k.votes == h.votes && k.term == h.term
    ensures VoteRel(vote, k, v)
  {
  }

  lemma DurVotes(d: Disk, h: Hist, k: Hist, v: Id)
    requires Basic(h) && Basic(k) && Grows(h, k) && DurRel(d, h, v)
    requires k.virt == h.virt && k.term == h.term && k.votes == h.votes
    ensures DurRel(d, k, v)
  {
    CommittedGrows(h, k, d.snap.image, h.term[v], k.term[v]);
  }

  lemma NewLeader(n: Node, h: Hist, v: Id)
    requires Basic(h) && CommitsOk(h) && CanWin(h, v) && n.term == h.term[v] && |n.log| > 0 &&
      Last(n.log) == |h.virt[v]|
    requires h.cp[v] <= h.virt[v] && Basic(Win(h, v))
    ensures LeaderRel(BecomeLeader(n), Win(h, v), v)
  {
  }

  lemma {:induction false} DistinctSize(peers: seq<Id>)
    requires forall i, j :: 0 <= i < j < |peers| ==> peers[i] != peers[j]
    ensures |Elems(peers)| == |peers|
  {
    if peers != [] {
      var init := peers[..|peers| - 1];
      var last := peers[|peers| - 1];
      DistinctSize(init);
      assert peers == init + [last];
      assert Elems(peers) == Elems(init) + {last};
      assert last !in Elems(init);
    }
  }

  /** The count the code compares against is reached exactly by the majorities of the servers. */
  lemma CountIsMajority(n: Node, v: Id, servers: set<Id>, t: set<Id>)
    requires PeersOf(n.peers, v, servers) && v in servers && t <= servers
    ensures |t| >= Majority(n) <==> Quorums.Majority(servers, t)
  {
    DistinctSize(n.peers);
    assert servers == Elems(n.peers) + {v};
  }

  lemma CampaignRel(r: Replica, h: Hist, v: Id, open: set<Rpc>) returns (k: Hist, hs: seq<Hist>)
    requires Basic(h) && Inv(h) && NodeRel(r, h, v) && Wf(r.node.log)
    requires forall x :: x in open ==> RpcRel(x, h)
    ensures var f := CampaignEffect(r);
      Arrives(h, k, v, f.replica) && Covers(h, v, f.trail, hs) && (forall x :: x in f.rpcs ==> RpcRel(x, k)) &&
      TallyRel(open + VoteRpcs(f.rpcs), f.replica.node, k, v)
  {
    hide Inv, Local, NodeRel, LogRel, DurRel, CursorRel, VoteRel, LeaderRel;
    var n := r.node;
    NodeParts(r, h, v);
    k := StandRel(r, h, v);
    var m := n.(role := Candidate, term := n.term + 1, vote := n.id, leaderId := 0, votes := 1,
                disk := Done(n.disk, SaveHardState(n.term + 1, n.id)));
    var s := r.(node := m);
    NodeParts(s, k, v);
    hs := [k];
    assert Covers(h, v, Points(n.disk, SaveHardState(n.term + 1, n.id)), hs);
    if 1 >= Majority(n) {
      CountIsMajority(m, v, k.servers, {v});
      Quorums.Widen(k.servers, {v}, Voters(k, m.term, v));
      WinRel(s, k, v);
      ArrivesTrans(h, k, Win(k, v), v, s.(node := BecomeLeader(m)));
      k := Win(k, v);
    } else {
      CampaignRpcs(m, k, v);
      OldElections(h, v, open) by { InvParts(h); }
      assert Tally(open + VoteRpcs(CampaignEffect(r).rpcs), m, k, v, {v});
    }
  }

  lemma CampaignRpcs(m: Node, k: Hist, v: Id)
    requires Basic(k) && v in k.servers && m.id == v && PeersOf(m.peers, v, k.servers) && CandidateRel(m, k, v)
    requires LogRel(m.log, k.virt[v], k.cp[v])
    ensures forall p :: p in m.peers ==> RpcRel(Rpc(v, p, AskVote(VoteRequestOf(m))), k)
  {
    LastOfVirtual(m.log, k.virt[v], k.cp[v]);
    forall p | p in m.peers
      ensures RpcRel(Rpc(v, p, AskVote(VoteRequestOf(m))), k)
    {
      assert p in Elems(m.peers);
    }
  }

  /** Requests still open belong to earlier elections. */
  lemma OldElections(h: Hist, v: Id, open: set<Rpc>)
    requires Basic(h) && ElectionsOk(h) && v in h.servers && forall x :: x in open ==> RpcRel(x, h)
    ensures forall x :: x in open && x.from == v && x.req.AskVote? ==> x.req.vote.term <= h.term[v]
  {
  }

  /** A vote comes back to the candidate. */
  lemma ReceiveVoteRel(r: Replica, h: Hist, v: Id, open: set<Rpc>, y: Reply) returns (k: Hist, hs: seq<Hist>)
    requires Basic(h) && Inv(h) && NodeRel(r, h, v) && Wf(r.node.log) && TallyRel(open, r.node, h, v)
    requires y.rpc.req.AskVote? && y.rpc.from == v && RpcRel(y.rpc, h) && ReplyRel(y, h) && y.rpc in open
    requires forall x :: x in open ==> RpcRel(x, h)
    ensures var o := OnVote(r.node, y.rpc.req.vote.term, y.resp.vote);
      Arrives(h, k, v, r.(node := o.node)) && Covers(h, v, o.trail, hs) && TallyRel(open - {y.rpc}, o.node, k, v)
  {
    hide Inv, Local, NodeRel, LogRel, DurRel, CursorRel, VoteRel, LeaderRel, PeersOf;
    var n := r.node;
    var q := y.rpc.req.vote;
    var a := y.resp.vote;
    k, hs := h, [];
    Stays(h, v);
    if a.term > n.term {
      hs := AdoptRel(r, h, v, a.term);
      k := AdoptHist(h, v, n, a.term);
    } else if n.role != Candidate || n.term != q.term || !a.granted {
      if n.role == Candidate {
        var t :| Tally(open, n, h, v, t);
        assert Tally(open - {y.rpc}, n, h, v, t);
      }
    } else {
      var t :| Tally(open, n, h, v, t);
      var m := n.(votes := n.votes + 1);
      var t' := t + {y.rpc.to};
      CountVote(open, y.rpc, n, h, v, t);
      assert Tally(open - {y.rpc}, m, h, v, t');
      NodeParts(r, h, v);
      SameCursors(r, r.(node := m), h.cp[v]);
      NodeIntro(r.(node := m), h, v);
      if m.votes == Majority(n) {
        CountIsMajority(m, v, h.servers, t');
        Quorums.Widen(h.servers, t', Voters(h, m.term, v));
        WinRel(r.(node := m), h, v);
        k := Win(h, v);
      }
    }
  }

  lemma CountVote(open: set<Rpc>, rpc: Rpc, n: Node, h: Hist, v: Id, t: set<Id>)
    requires Tally(open, n, h, v, t) && rpc in open && rpc.from == v && rpc.req.AskVote? && rpc.req.vote.term == n.term
    requires rpc.to in Voters(h, n.term, v) && forall x :: x in open ==> RpcRel(x, h)
    ensures Tally(open - {rpc}, n.(votes := n.votes + 1), h, v, t + {rpc.to})
  {
    forall x | x in open - {rpc} && x.from == v && x.req.AskVote? && x.req.vote.term == n.term
      ensures x.to !in t + {rpc.to}
    {
      assert RpcRel(x, h) && RpcRel(rpc, h);
      assert x.to == rpc.to ==> x == rpc;
    }
  }
}
