/** What a leader does keeps the cluster and its history together. */
module RelationLeader {
  import opened RaftTypes
  import opened RaftLog
  import opened Persist
  import opened NodeSpec
  import opened ClusterSpec
  import opened History
  import opened HistorySteps
  import opened Relation
  import opened RelationVotes
  import opened RelationAppend
  import opened RelationSnapshot
  import Quorums

  // ---------------------------------------------------------------------------
  // Proposals
  // ---------------------------------------------------------------------------

  lemma ExtendDur(d: Disk, h: Hist, v: Id, es: seq<Entry>)
    requires Basic(h) && DurRel(d, h, v) && Shape(h.virt[v]) && CanExtend(h, v, es)
    requires Basic(Extend(h, v, es)) && Grows(h, Extend(h, v, es))
    ensures DurRel(AddEntries(d, es), Extend(h, v, es), v)
  {
    hide Grows, Replay, Shape, SnapShape, Committed;
    var k := Extend(h, v, es);
    var L, i := h.virt[v], d.snap.index;
    CommittedGrows(h, k, d.snap.image, h.term[v], k.term[v]);
    ExtendRecovers(d, L, es) by { SameVote(Recover(d).vote, h, k, v); }
    SameVote(Recover(d).vote, h, k, v);
    assert (L + es)[i..] == L[i..] + es;
    hide VoteRel;
  }

  lemma ExtendRecovers(d: Disk, L: seq<Entry>, es: seq<Entry>)
    requires Shape(L) && d.snap.index <= |L| && Recover(d).entries == L[d.snap.index..] && Consecutive(es, |L|)
    ensures Recover(AddEntries(d, es)) == Recover(d).(entries := L[d.snap.index..] + es)
  {
    assert Sound(Recover(d));
    RecoverAppend(d, es);
  }

  lemma ReachExtended(d: Disk, h: Hist, v: Id, es: seq<Entry>)
    requires Basic(h) && Inv(h) && DurRel(d, h, v) && CanExtend(h, v, es)
    ensures Reaches(h, Extend(h, v, es), v, AddEntries(d, es))
  {
    hide Inv, Local, DurRel, Shape, CanExtend, Grows;
    DurServer(d, h, v);
    VirtShape(h, v) by { InvParts(h); }
    ExtendOk(h, v, es);
    LocalGrows(h, Extend(h, v, es), v);
    InvBasic(Extend(h, v, es));
    ExtendDur(d, h, v, es);
  }

  lemma CanPropose(r: Replica, h: Hist, v: Id, es: seq<Entry>)
    requires Basic(h) && ElectionsOk(h) && NodeRel(r, h, v) && r.node.role == Leader
    requires forall i :: 0 <= i < |es| ==> es[i].term == r.node.term && es[i].index == Last(r.node.log) + 1 + i
    ensures v in h.servers && CanExtend(h, v, es)
  {
    hide CursorRel, DurRel, VoteRel;
  }

  lemma ProposedLog(log: seq<Entry>, L: seq<Entry>, K: seq<Entry>, es: seq<Entry>)
    requires LogRel(log, L, K) && K <= L && Consecutive(es, |L|)
    ensures LogRel(log + es, L + es, K)
  {
    var f := First(log);
    forall i | 1 <= i < |log + es|
      ensures (log + es)[i] == (L + es)[f + i - 1]
    {
      if i < |log| { assert log[i] == L[f + i - 1]; }
    }
  }

  lemma ProposedLeader(n: Node, h: Hist, v: Id, es: seq<Entry>, log: seq<Entry>, d: Disk)
    requires Basic(h) && LeaderRel(n, h, v) && n.term == h.term[v] && CanExtend(h, v, es)
    requires Basic(Extend(h, v, es)) && Grows(h, Extend(h, v, es))
    ensures LeaderRel(n.(log := log, disk := d), Extend(h, v, es), v)
  {
    var k := Extend(h, v, es);
    var m := n.(log := log, disk := d);
    hide Grows, CanExtend;
    forall p | p in m.peers
      ensures 1 <= Get(m.next, p) <= |k.virt[v]| + 1 && MatchRel(m, k, p)
    {
      assert MatchRel(n, h, p);
      MatchGrows(n, m, h, k, p);
    }
  }

  lemma MatchGrows(n: Node, m: Node, h: Hist, k: Hist, p: Id)
    requires MatchRel(n, h, p) && Grows(h, k) && m.term == n.term && m.matched == n.matched
    ensures MatchRel(m, k, p)
  {
    assert AckOf(h, p, n.term) <= AckOf(k, p, n.term);
    if CommittedUpTo(h, n.term, Get(n.matched, p)) {
      CommittedUpToGrows(h, k, n.term, Get(n.matched, p));
    }
  }

  lemma CoverPropose(d: Disk, h: Hist, v: Id, es: seq<Entry>) returns (hs: seq<Hist>)
    requires Basic(h) && Inv(h) && DurRel(d, h, v) && CanExtend(h, v, es)
    ensures Covers(h, v, Points(d, AppendEntries(es)), hs)
    ensures Reaches(h, Extend(h, v, es), v, Done(d, AppendEntries(es)))
  {
    hide Inv, Local, DurRel, Reaches, Grows;
    hs := seq(|es|, i requires 0 <= i < |es| => Extend(h, v, es[..i + 1]));
    forall i | 0 <= i < |es|
      ensures Reaches(h, hs[i], v, Points(d, AppendEntries(es))[i])
    {
      ReachExtended(d, h, v, es[..i + 1]);
    }
    ReachExtended(d, h, v, es);
    if es == [] {
      assert AddEntries(d, es) == d;
    } else {
      assert es[..|es|] == es;
    }
  }

  /** A batch of proposals. */
  lemma OfferRel(r: Replica, h: Hist, v: Id, data: seq<seq<Byte>>) returns (k: Hist, hs: seq<Hist>)
    requires Basic(h) && Inv(h) && NodeRel(r, h, v) && Wf(r.node.log)
    ensures var o := Propose(r.node, data);
      Arrives(h, k, v, r.(node := o.node)) && Covers(h, v, o.trail, hs)
  {
    hide Inv, Local, NodeRel, Done, Points, Numbered, Reaches;
    if r.node.role != Leader {
      k, hs := h, [];
      Stays(h, v);
    } else {
      NumberedEntries(data, r.node.term, Last(r.node.log));
      k, hs := OfferLeads(r, h, v, Numbered(data, r.node.term, Last(r.node.log)));
    }
  }

  lemma NumberedEntries(data: seq<seq<Byte>>, term: nat, last: nat)
    ensures var es := Numbered(data, term, last);
      forall i :: 0 <= i < |es| ==> es[i].term == term && es[i].index == last + 1 + i
  {
  }

  lemma OfferLeads(r: Replica, h: Hist, v: Id, es: seq<Entry>) returns (k: Hist, hs: seq<Hist>)
    requires Basic(h) && Inv(h) && NodeRel(r, h, v) && Wf(r.node.log) && r.node.role == Leader
    requires forall i :: 0 <= i < |es| ==> es[i].term == r.node.term && es[i].index == Last(r.node.log) + 1 + i
    ensures Arrives(h, k, v, r.(node := r.node.(log := r.node.log + es, disk := Done(r.node.disk, AppendEntries(es)))))
    ensures Covers(h, v, Points(r.node.disk, AppendEntries(es)), hs)
  {
    hide Inv, Local, NodeRel, LogRel, DurRel, CursorRel, VoteRel, LeaderRel, Grows, PeersOf, Done, Points, Reaches,
      CanExtend;
    var n := r.node;
    CanPropose(r, h, v, es) by { InvParts(h); }
    NodeParts(r, h, v);
    hs := CoverPropose(n.disk, h, v, es);
    k := Extend(h, v, es);
    DoneKeepsSnap(n.disk, AppendEntries(es));
    ProposeArrives(r, h, v, es, Done(n.disk, AppendEntries(es)));
  }

  lemma ProposeArrives(r: Replica, h: Hist, v: Id, es: seq<Entry>, d: Disk)
    requires Basic(h) && NodeRel(r, h, v) && CanExtend(h, v, es) && r.node.role == Leader && d.snap == r.node.disk.snap
    requires Reaches(h, Extend(h, v, es), v, d)
    ensures Arrives(h, Extend(h, v, es), v, r.(node := r.node.(log := r.node.log + es, disk := d)))
  {
    hide Inv, Local, NodeRel, LogRel, DurRel, CursorRel, VoteRel, Grows, PeersOf;
    NodeParts(r, h, v);
    var k := Extend(h, v, es);
    LocalGrows(h, k, v);
    LogRelWf(r.node.log, h.virt[v], h.cp[v]);
    ProposedLog(r.node.log, h.virt[v], h.cp[v], es);
    ProposedLeader(r.node, h, v, es, r.node.log + es, d);
    SameVote(r.node.vote, h, k, v);
    var s := r.(node := r.node.(log := r.node.log + es, disk := d));
    MergedCursors(r, s, h.cp[v]);
    NodeIntro(s, k, v);
  }

  // ---------------------------------------------------------------------------
  // Requests
  // ---------------------------------------------------------------------------

  lemma SuffixOf(log: seq<Entry>, L: seq<Entry>, K: seq<Entry>, from: nat)
    requires LogRel(log, L, K) && First(log) < from <= |L| + 1
    ensures Suffix(log, from) == L[from - 1..]
  {
    if from <= |L| {
      var s := log[from - First(log)..];
      forall i | 0 <= i < |s|
        ensures s[i] == L[from - 1..][i]
      {
        assert s[i] == log[from - First(log) + i];
      }
    }
  }

  /** On a log that agrees with its snapshot the sentinel answers like any entry. */
  lemma CleanTermAt(log: seq<Entry>, L: seq<Entry>, K: seq<Entry>, i: nat)
    requires LogRel(log, L, K) && K <= L && First(log) <= i <= |L|
    ensures TermAt(log, i) == Some(if i == 0 then 0 else L[i - 1].term)
  {
    if i > First(log) { assert log[i - First(log)] == L[i - 1]; }
  }

  /** The request built from a clean log, in terms of the virtual log. */
  lemma BuiltIs(n: Node, L: seq<Entry>, K: seq<Entry>, p: Id, heartbeat: bool)
    requires LogRel(n.log, L, K) && K <= L && CanAppendTo(n, p) && Get(n.next, p) <= |L| + 1
    ensures var q := BuildAppend(n, p, heartbeat);
      q.term == n.term && q.leader == n.id && q.leaderCommit == n.commit && q.prevIndex == Get(n.next, p) - 1 &&
      q.prevTerm == (if q.prevIndex == 0 then 0 else L[q.prevIndex - 1].term) && q.entries <= L[q.prevIndex..]
  {
    hide LogRel, Suffix, TermAt;
    LogRelWf(n.log, L, K);
    SuffixOf(n.log, L, K, Get(n.next, p));
    CleanTermAt(n.log, L, K, Get(n.next, p) - 1);
  }

  lemma BuiltRpc(h: Hist, v: Id, q: AppendRequest)
    requires v in h.servers && q.term in h.llog && q.term in h.leader && h.leader[q.term] == v && q.leader == v
    requires q.prevIndex <= |h.llog[q.term]| && q.entries <= h.llog[q.term][q.prevIndex..]
    requires q.prevTerm == (if q.prevIndex == 0 then 0 else h.llog[q.term][q.prevIndex - 1].term)
    requires CommittedUpTo(h, q.term, q.leaderCommit)
    ensures AppendRpcRel(v, q, h)
  {
    forall i | 0 <= i < |q.entries|
      ensures q.entries[i] == h.llog[q.term][q.prevIndex + i]
    {
      assert q.entries[i] == h.llog[q.term][q.prevIndex..][i];
    }
  }

  lemma BuildRel(r: Replica, h: Hist, v: Id, p: Id, heartbeat: bool)
    requires Basic(h) && Inv(h) && NodeRel(r, h, v) && Wf(r.node.log) && p in r.node.peers && CanAppendTo(r.node, p)
    ensures RpcRel(Rpc(v, p, AskAppend(BuildAppend(r.node, p, heartbeat))), h)
  {
    hide Inv, NodeRel, LogRel, DurRel, VoteRel, CursorRel, Committed, CommittedUpTo, BuildAppend, AppendRpcRel;
    NodeParts(r, h, v);
    var n := r.node;
    assert p in Elems(n.peers);
    NextBound(n, h, v, p);
    BuiltIs(n, h.virt[v], h.cp[v], p, heartbeat);
    CursorParts(r, h.cp[v]);
    UnderSnapshot(h, v, n.commit) by { InvParts(h); }
    BuiltRpc(h, v, BuildAppend(n, p, heartbeat));
  }

  lemma ShipRel(r: Replica, h: Hist, v: Id, p: Id)
    requires Basic(h) && Inv(h) && NodeRel(r, h, v) && Wf(r.node.log) && p in r.node.peers && CanShipTo(r.node, p)
    ensures Arrives(h, h, v, r.(node := Ship(r.node)))
    ensures RpcRel(Rpc(v, p, AskInstall(SnapRequest(r.node.term, r.node.id, Shipped(r.node)))), h)
  {
    hide Inv, Local, NodeRel, LogRel, DurRel, VoteRel, FeedRel, Committed, CandidateRel, FedAll;
    NodeParts(r, h, v);
    Stays(h, v);
    var n := r.node;
    assert p in Elems(n.peers);
    var s := Shipped(n);
    KnownAt(h, v) by { InvParts(h); }
    CommittedPrefix(h, h.cp[v], h.term[v], s.index);
    assert s.image == h.cp[v][..s.index];
    SameRoles(n, Ship(n), h, v);
    NodeIntro(r.(node := Ship(n)), h, v);
  }

  // ---------------------------------------------------------------------------
  // Replies
  // ---------------------------------------------------------------------------

  /** A reply raises the cursors of its peer. */
  lemma RaiseRel(n: Node, h: Hist, v: Id, p: Id, m: nat)
    requires Basic(h) && LeaderRel(n, h, v) && m <= |h.llog[n.term]|
    requires m <= AckOf(h, p, n.term) || CommittedUpTo(h, n.term, m)
    ensures LeaderRel(n.(matched := Raised(n.matched, p, m), next := Raised(n.next, p, m + 1)), h, v)
  {
    var n' := n.(matched := Raised(n.matched, p, m), next := Raised(n.next, p, m + 1));
    hide CommittedUpTo;
    forall x | x in n'.peers
      ensures 1 <= Get(n'.next, x) <= |h.virt[v]| + 1 && MatchRel(n', h, x)
    {
      assert MatchRel(n, h, x);
    }
  }

  lemma {:induction false} ScanSpec(n: Node, idx: nat)
    requires Wf(n.log)
    ensures var c := CommitScan(n, idx);
      c == n.commit || (n.commit < c <= idx && TermAt(n.log, c) == Some(n.term) && 1 + |Acked(n, c)| >= Majority(n))
    decreases idx
  {
    if idx > n.commit && TermAt(n.log, idx) == Some(n.term) && 1 + |Acked(n, idx)| < Majority(n) {
      ScanSpec(n, idx - 1);
    }
  }

  /** A match index at or above an uncommitted entry of the leader's own term is a real acknowledgement. */
  lemma MatchIsAck(n: Node, h: Hist, v: Id, p: Id, c: nat)
    requires Basic(h) && LogsOk(h) && LeaderRel(n, h, v) && p in n.peers && Get(n.matched, p) >= c
    requires Slot(h, n.term, c) && c > n.commit
    ensures AckOf(h, p, n.term) >= c
  {
    assert MatchRel(n, h, p);
    var m := Get(n.matched, p);
    if AckOf(h, p, n.term) < m {
      var L := h.llog[n.term][..m];
      assert Committed(h, L, n.term);
      var T: nat :| CommittedBy(h, L, n.term, T);
    }
  }

  lemma AckersHold(n: Node, h: Hist, v: Id, c: nat)
    requires Basic(h) && LogsOk(h) && LeaderRel(n, h, v) && PeersOf(n.peers, v, h.servers)
    requires Slot(h, n.term, c) && c > n.commit
    ensures Acked(n, c) + {v} <= Holders(h, n.term, c) && v !in Acked(n, c)
  {
    hide LogsOk, MatchRel;
    assert v !in Acked(n, c) by { assert v !in Elems(n.peers); }
    forall p | p in Acked(n, c)
      ensures p in Holders(h, n.term, c)
    {
      assert p in Elems(n.peers);
      MatchIsAck(n, h, v, p, c);
    }
  }

  lemma AckedMajority(n: Node, h: Hist, v: Id, c: nat)
    requires Basic(h) && LogsOk(h) && LeaderRel(n, h, v) && PeersOf(n.peers, v, h.servers)
    requires Slot(h, n.term, c) && c > n.commit && 1 + |Acked(n, c)| >= Majority(n)
    ensures Quorums.Majority(h.servers, Holders(h, n.term, c))
  {
    hide LogsOk, MatchRel, PeersOf, Acked;
    AckersHold(n, h, v, c);
    var t := Acked(n, c) + {v};
    CountIsMajority(n, v, h.servers, t);
    Quorums.Widen(h.servers, t, Holders(h, n.term, c));
  }

  /** The commit rule of section 5.4.2 of the Raft paper. */
  lemma AdvanceRel(r: Replica, h: Hist, v: Id) returns (k: Hist)
    requires Basic(h) && Inv(h) && NodeRel(r, h, v) && Wf(r.node.log) && r.node.role == Leader
    ensures Arrives(h, k, v, r.(node := AdvanceCommit(r.node)))
  {
    hide Inv, Local, NodeRel, LogRel, DurRel, CursorRel, VoteRel, CommitScan, PeersOf, Grows;
    var n := r.node;
    NodeParts(r, h, v);
    ScanSpec(n, Last(n.log));
    var c := CommitScan(n, Last(n.log));
    if c == n.commit {
      k := h;
      Stays(h, v);
    } else {
      LogRelWf(n.log, h.virt[v], h.cp[v]);
      CursorParts(r, h.cp[v]);
      TermAtVirtual(n.log, h.virt[v], h.cp[v], c);
      AckedMajority(n, h, v, c) by { InvParts(h); }
      k := AdvanceArrives(r, h, v, c);
    }
  }

  lemma AdvanceArrives(r: Replica, h: Hist, v: Id, c: nat) returns (k: Hist)
    requires Basic(h) && Inv(h) && NodeRel(r, h, v) && r.node.role == Leader && LeaderRel(r.node, h, v)
    requires r.node.commit == |h.cp[v]| < c && Slot(h, r.node.term, c) && r.node.term == h.term[v]
    requires Quorums.Majority(h.servers, Holders(h, r.node.term, c))
    ensures Arrives(h, k, v, r.(node := r.node.(commit := c)))
  {
    hide Inv, Local, NodeRel, LogRel, DurRel, CursorRel, VoteRel, PeersOf, Grows, Committed, MatchRel;
    var n := r.node;
    var K := h.llog[n.term][..c];
    CommitOk(h, v, n.term, c);
    var a := Commit(h, n.term, c);
    InvBasic(a);
    CommittedNow(h, n.term, c);
    LearnOk(a, v, K);
    k := Learn(a, v, K);
    InvBasic(k);
    LocalTrans(h, a, k, v);
    NodeParts(r, h, v);
    LocalGrows(h, k, v);
    DurVotes(n.disk, h, k, v);
    SameVote(n.vote, h, k, v);
    LeaderNow(n, h, k, v, c);
    CursorsGrow(r, h.cp[v], K);
    LogGrows(n.log, h.virt[v], h.cp[v], K);
    NodeIntro(r.(node := n.(commit := c)), k, v);
  }

  lemma CommittedNow(h: Hist, T: nat, c: nat)
    requires Slot(h, T, c)
    ensures Committed(Commit(h, T, c), h.llog[T][..c], T)
  {
    assert CommittedBy(Commit(h, T, c), h.llog[T][..c], T, T);
  }

  lemma LeaderNow(n: Node, h: Hist, k: Hist, v: Id, c: nat)
    requires Basic(h) && Basic(k) && LeaderRel(n, h, v) && Grows(h, k) && c <= |h.virt[v]|
    requires k.llog == h.llog && k.leader == h.leader && k.virt == h.virt && k.acks == h.acks && k.servers == h.servers
    requires k.cp[v] == h.llog[n.term][..c] && n.term in k.commits && k.commits[n.term] == c
    ensures LeaderRel(n.(commit := c), k, v)
  {
    var m := n.(commit := c);
    hide Grows;
    forall p | p in m.peers
      ensures 1 <= Get(m.next, p) <= |k.virt[v]| + 1 && MatchRel(m, k, p)
    {
      assert MatchRel(n, h, p);
      MatchGrows(n, m, h, k, p);
    }
    assert AckOf(k, v, n.term) == AckOf(h, v, n.term);
  }

  /** After a rejection the cursor stays within the log. */
  lemma BackedBound(n: Node, L: seq<Entry>, K: seq<Entry>, p: Id, a: AppendResponse)
    requires LogRel(n.log, L, K) && a.conflictIndex <= |L| + 1 && Get(n.next, p) <= |L| + 1
    ensures 1 <= Backed(n, p, a) <= |L| + 1
  {
    LastOfTermBound(n.log, a.conflictTerm);
  }

  lemma LastOfTermBound(log: seq<Entry>, t: nat)
    requires Wf(log)
    ensures LastOfTerm(log, t) <= Last(log)
  {
  }

  lemma BackRel(n: Node, h: Hist, v: Id, p: Id, to: nat)
    requires Basic(h) && LeaderRel(n, h, v) && 1 <= to <= |h.virt[v]| + 1
    ensures LeaderRel(n.(next := n.next[p := to]), h, v)
  {
    var m := n.(next := n.next[p := to]);
    forall x | x in m.peers
      ensures 1 <= Get(m.next, x) <= |h.virt[v]| + 1 && MatchRel(m, h, x)
    {
      assert MatchRel(n, h, x);
    }
  }

  /** Only the leader's cursors change. */
  lemma LeaderOnly(r: Replica, h: Hist, v: Id, m: Node)
    requires Basic(h) && NodeRel(r, h, v) && r.node.role == Leader && m == r.node.(next := m.next, matched := m.matched)
    requires LeaderRel(m, h, v)
    ensures NodeRel(r.(node := m), h, v)
  {
    hide NodeRel, LogRel, DurRel, CursorRel, VoteRel, PeersOf, LeaderRel;
    NodeParts(r, h, v);
    SameCursors(r, r.(node := m), h.cp[v]);
    NodeIntro(r.(node := m), h, v);
  }

  /** A reply to AppendEntries comes back. */
  lemma ReceiveAppendRel(r: Replica, h: Hist, v: Id, p: Id, q: AppendRequest, a: AppendResponse)
    returns (k: Hist, hs: seq<Hist>)
    requires Basic(h) && Inv(h) && NodeRel(r, h, v) && Wf(r.node.log) && AppendRpcRel(v, q, h) &&
      AppendReplyRel(q, a, p, h)
    requires p in r.node.peers
    ensures var o := OnAppend(r.node, p, q, a);
      Arrives(h, k, v, r.(node := o.node)) && Covers(h, v, o.trail, hs)
  {
    hide Inv, Local, NodeRel, LogRel, DurRel, CursorRel, VoteRel, PeersOf, CommittedUpTo, Backed, AdvanceCommit, Raised;
    var n := r.node;
    k, hs := h, [];
    Stays(h, v);
    if a.term > n.term {
      hs := AdoptRel(r, h, v, a.term);
      k := AdoptHist(h, v, n, a.term);
    } else if n.role == Leader && n.term == q.term {
      NodeParts(r, h, v);
      if a.success {
        var m := q.prevIndex + |q.entries|;
        var n' := n.(matched := Raised(n.matched, p, m), next := Raised(n.next, p, m + 1));
        RaiseRel(n, h, v, p, m);
        LeaderOnly(r, h, v, n');
        k := AdvanceRel(r.(node := n'), h, v);
      } else {
        NextBound(n, h, v, p);
        BackedBound(n, h.virt[v], h.cp[v], p, a);
        BackRel(n, h, v, p, Backed(n, p, a));
        LeaderOnly(r, h, v, n.(next := n.next[p := Backed(n, p, a)]));
      }
    }
  }

  lemma NextBound(n: Node, h: Hist, v: Id, p: Id)
    requires Basic(h) && LeaderRel(n, h, v)
    ensures p in n.peers ==> Get(n.next, p) <= |h.virt[v]| + 1
  {
  }

  /** A reply to InstallSnapshot comes back. */
  lemma ReceiveInstallRel(r: Replica, h: Hist, v: Id, p: Id, q: SnapRequest, a: SnapResponse)
    returns (k: Hist, hs: seq<Hist>)
    requires Basic(h) && Inv(h) && NodeRel(r, h, v) && InstallRpcRel(v, q, h)
    ensures var o := OnSnapshot(r.node, p, q, a);
      Arrives(h, k, v, r.(node := o.node)) && Covers(h, v, o.trail, hs)
  {
    hide Inv, Local, NodeRel, LogRel, DurRel, CursorRel, VoteRel, PeersOf, CommittedUpTo, Raised, Committed;
    var n := r.node;
    k, hs := h, [];
    Stays(h, v);
    if a.term > n.term {
      hs := AdoptRel(r, h, v, a.term);
      k := AdoptHist(h, v, n, a.term);
    } else if n.role == Leader && n.term == q.term {
      NodeParts(r, h, v);
      var s := q.snap.index;
      ShippedLen(h, q.term, q.snap) by { InvParts(h); }
      RaiseRel(n, h, v, p, s);
      LeaderOnly(r, h, v, n.(matched := Raised(n.matched, p, s), next := Raised(n.next, p, s + 1)));
    }
  }

  lemma ShippedLen(h: Hist, T: nat, s: Snap)
    requires CommitsOk(h) && Complete(h) && T in h.llog && SnapShape(s) && Committed(h, s.image, T)
    ensures s.index <= |h.llog[T]| && CommittedUpTo(h, T, s.index)
  {
    LeaderHasCommitted(h, s.image, T, T);
    assert s.image == h.llog[T][..s.index];
  }
}
