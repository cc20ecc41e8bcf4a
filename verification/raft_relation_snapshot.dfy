/** Installing and taking snapshots keeps the cluster and its history together. */
module RelationSnapshot {
  import opened RaftTypes
  import opened RaftLog
  import opened Persist
  import opened NodeSpec
  import opened ClusterSpec
  import opened History
  import opened HistorySteps
  import opened Relation
  import opened RelationVotes
  import opened RelationAppend

  // ---------------------------------------------------------------------------
  // A snapshot from the leader
  // ---------------------------------------------------------------------------

  /** The history after a snapshot with image `I` is durable: the virtual log stays if it is
      longer, whatever it says about the entries under the snapshot. */
  ghost function InstallHist(h: Hist, v: Id, I: seq<Entry>): Hist
    requires v in h.virt
  {
    if |h.virt[v]| > |I| then h else Collapse(h, v, I)
  }

  lemma InstallHistOk(h: Hist, v: Id, I: seq<Entry>)
    requires Basic(h) && Inv(h) && v in h.servers && Committed(h, I, h.term[v])
    ensures var m := InstallHist(h, v, I);
      Basic(m) && Inv(m) && Local(h, m, v) && Committed(m, I, m.term[v]) && m.term == h.term && m.votes == h.votes &&
      m.cp == h.cp && m.servers == h.servers
    ensures var L := InstallHist(h, v, I).virt[v];
      |I| <= |L| && (|I| == |L| ==> L == I) && L[|I|..] == if |I| <= |h.virt[v]| then h.virt[v][|I|..] else []
  {
    hide Inv, Local, Committed, Grows;
    var m := InstallHist(h, v, I);
    if |h.virt[v]| > |I| {
      Stays(h, v);
    } else {
      CollapseOk(h, v, I);
      InvBasic(m);
    }
    LocalGrows(h, m, v);
    CommittedGrows(h, m, I, h.term[v], h.term[v]);
  }

  lemma CompactedIs(log: seq<Entry>, L: seq<Entry>, K: seq<Entry>, s: Snap)
    requires LogRel(log, L, K) && s.index > |K|
    ensures CompactedTo(log, s.index, s.term)
         == [Entry(s.index, s.term, [])] + if s.index <= |L| then L[s.index..] else []
  {
    var f := First(log);
    if s.index < |L| {
      var keep := log[s.index - f + 1..];
      assert |keep| == |L| - s.index;
      forall i | 0 <= i < |keep|
        ensures keep[i] == L[s.index..][i]
      {
        assert keep[i] == log[s.index - f + 1 + i];
      }
      assert keep == L[s.index..];
    }
  }

  /** Both durable steps of saving the snapshot recover to the same state. */
  lemma SaveDisk(d: Disk, h: Hist, m: Hist, v: Id, s: Snap, t: nat, vote: nat, keep: seq<Entry>)
    requires Basic(h) && Basic(m) && Grows(h, m) && DurRel(d, h, v) && Shape(h.virt[v])
    requires m.term == h.term && m.votes == h.votes && t == h.term[v] && vote == Recover(d).vote
    requires SnapShape(s) && s.index > 0 && s.index >= d.snap.index && Committed(m, s.image, m.term[v])
    requires s.index <= |m.virt[v]| && (s.index == |m.virt[v]| ==> m.virt[v] == s.image)
    requires m.virt[v][s.index..] == if s.index <= |h.virt[v]| then h.virt[v][s.index..] else []
    requires DropHead(keep, s.index) == m.virt[v][s.index..]
    ensures DurRel(d.(snap := s), m, v) && DurRel(Disk([HardState(t, vote)] + Puts(keep), s), m, v)
  {
    hide Shape, Committed, Grows, SnapShape, Replay;
    SaveRecovers(d, h, v, s);
    RecoverRewrite(s, t, vote, keep);
    SameVote(vote, h, m, v);
    hide VoteRel, Recover;
  }

  lemma SaveRecovers(d: Disk, h: Hist, v: Id, s: Snap)
    requires Basic(h) && DurRel(d, h, v) && Shape(h.virt[v]) && s.index > 0 && s.index >= d.snap.index
    ensures Recover(d.(snap := s)) ==
      Recover(d).(snap := s, entries := if s.index <= |h.virt[v]| then h.virt[v][s.index..] else [])
  {
    hide Committed, VoteRel, Replay, SnapShape;
    assert Sound(Recover(d));
    RecoverSnap(d, s);
  }

  lemma InstallCursors(r: Replica, K: seq<Entry>, s: Snap, log: seq<Entry>, d: Disk)
    requires CursorRel(r, K) && SnapShape(s) && K <= s.image && s.index > |K|
    requires |log| > 0 && First(log) == s.index && d.snap == s
    ensures CursorRel(r.(node := r.node.(log := log, disk := d, cache := s, commit := s.index, applied := s.index,
                                         pending := Some(s))), s.image)
  {
    FeedGrows(r.app, r.queue, K, s.image);
    hide FeedRel, FedAll;
  }

  /** A newer snapshot replaces what it covers. */
  lemma InstallRel(r: Replica, h: Hist, v: Id, s: Snap) returns (k: Hist, hs: seq<Hist>)
    requires Basic(h) && Inv(h) && NodeRel(r, h, v) && r.node.role == Follower && Wf(r.node.log)
    requires SnapShape(s) && Committed(h, s.image, h.term[v]) && s.index > r.node.commit
    ensures var n := r.node;
      var log := CompactedTo(n.log, s.index, s.term);
      var c := SaveSnapshot(s, n.term, n.vote, log[1..]);
      Arrives(h, k, v, r.(node := n.(log := log, disk := Done(n.disk, c), cache := s, commit := s.index,
                                     applied := s.index, pending := Some(s)))) &&
      Covers(h, v, Points(n.disk, c), hs)
  {
    hide Inv, Local, NodeRel, Grows, LogRel, DurRel, VoteRel, CursorRel, Committed, CompactedTo, PeersOf, SnapShape,
      Shape, Done, Points, DropHead, CandidateRel, LeaderRel;
    var n := r.node;
    NodeParts(r, h, v);
    InstallFacts(r, h, v, s);
    var m := InstallHist(h, v, s.image);
    InstallHistOk(h, v, s.image) by { SnapSize(s); }
    SnapSize(s);
    var log := CompactedTo(n.log, s.index, s.term);
    CompactedIs(n.log, h.virt[v], h.cp[v], s);
    var keep := log[1..];
    assert keep == m.virt[v][s.index..];
    assert DropHead(keep, s.index) == keep by { KeepAbove(m, v, s.index) by { InvParts(m); } }
    var d1, d2 := n.disk.(snap := s), Disk([HardState(n.term, n.vote)] + Puts(keep), s);
    SavedAs(n.disk, s, n.term, n.vote, keep);
    SaveDisk(n.disk, h, m, v, s, n.term, n.vote, keep) by { LocalGrows(h, m, v); }
    hs := [m, m];
    assert Covers(h, v, [d1, d2], hs);
    k := Learn(m, v, s.image);
    InstallLearn(r, h, m, v, s, log, d2);
    LocalTrans(h, m, k, v);
  }

  lemma SavedAs(d: Disk, s: Snap, term: nat, vote: nat, keep: seq<Entry>)
    requires DropHead(keep, s.index) == keep
    ensures var c, e := SaveSnapshot(s, term, vote, keep), Disk([HardState(term, vote)] + Puts(keep), s);
      Done(d, c) == e && Points(d, c) == [d.(snap := s), e]
  {
  }

  lemma SnapSize(s: Snap)
    requires SnapShape(s)
    ensures |s.image| == s.index
  {
  }

  lemma KeepAbove(m: Hist, v: Id, s: nat)
    requires Basic(m) && LogsOk(m) && v in m.servers && s <= |m.virt[v]|
    ensures DropHead(m.virt[v][s..], s) == m.virt[v][s..]
  {
    assert Shape(m.virt[v]);
    DropHeadConsecutive(m.virt[v][s..], s, s);
  }

  lemma InstallFacts(r: Replica, h: Hist, v: Id, s: Snap)
    requires Basic(h) && Inv(h) && NodeRel(r, h, v) && Committed(h, s.image, h.term[v])
    requires SnapShape(s) && s.index > r.node.commit
    ensures r.node.commit == |h.cp[v]| && h.cp[v] <= s.image && Shape(h.virt[v]) && r.node.disk.snap.index <= s.index
    ensures Recover(r.node.disk).vote == r.node.vote
  {
    hide Inv, Local, NodeRel, LogRel, FeedRel, PeersOf, FedAll;
    NodeParts(r, h, v);
    CommittedAgree(h, h.cp[v], h.term[v], s.image, h.term[v]) by { InvParts(h); KnownAt(h, v); }
    VirtShape(h, v) by { InvParts(h); }
  }

  lemma KnownAt(h: Hist, v: Id)
    requires Basic(h) && Known(h) && v in h.servers
    ensures Committed(h, h.cp[v], h.term[v])
  {
  }

  lemma InstallLearn(r: Replica, h: Hist, m: Hist, v: Id, s: Snap, log: seq<Entry>, d: Disk)
    requires Basic(h) && Basic(m) && Inv(m) && NodeRel(r, h, v) && r.node.role == Follower
    requires m.term == h.term && m.votes == h.votes && m.servers == h.servers && Committed(m, s.image, m.term[v]) &&
      v in m.servers
    requires s.index > |h.cp[v]| && h.cp[v] <= s.image && SnapShape(s) && d.snap == s && DurRel(d, m, v)
    requires s.index <= |m.virt[v]| && (s.index == |m.virt[v]| ==> m.virt[v] == s.image)
    requires log == [Entry(s.index, s.term, [])] + m.virt[v][s.index..]
    ensures Arrives(m, Learn(m, v, s.image), v,
      r.(node := r.node.(log := log, disk := d, cache := s, commit := s.index, applied := s.index, pending := Some(s))))
  {
    hide Inv, Local, NodeRel, Grows, LogRel, DurRel, VoteRel, CursorRel, Committed, PeersOf, Shape;
    NodeParts(r, h, v);
    var k := Learn(m, v, s.image);
    LearnOk(m, v, s.image);
    InvBasic(k);
    LocalGrows(m, k, v);
    DurVotes(d, m, k, v);
    SameVote(r.node.vote, h, k, v);
    VirtShape(m, v) by { InvParts(m); }
    FreshLog(s, m.virt[v]);
    InstallCursors(r, h.cp[v], s, log, d);
    var m := r.node.(log := log, disk := d, cache := s, commit := s.index, applied := s.index, pending := Some(s));
    NodeIntro(r.(node := m), k, v);
  }

  /** Serving InstallSnapshot. */
  lemma ServeInstallRel(r: Replica, h: Hist, v: Id, from: Id, q: SnapRequest) returns (k: Hist, hs: seq<Hist>)
    requires Basic(h) && Inv(h) && NodeRel(r, h, v) && InstallRpcRel(from, q, h) && Wf(r.node.log)
    ensures var o := HandleSnapshot(r.node, q);
      Arrives(h, k, v, r.(node := o.node)) && Covers(h, v, o.trail, hs)
  {
    hide Inv, Local, NodeRel, CompactedTo, Grows, Committed, SnapShape;
    var n := r.node;
    hs := AdoptRel(r, h, v, q.term);
    var m := AdoptHist(h, v, n, q.term);
    var s := r.(node := Adopted(n, q.term));
    k := m;
    if q.term >= s.node.term {
      var f := s.(node := s.node.(role := Follower, leaderId := q.leader));
      FollowerRel(s, m, v, q.leader);
      if q.snap.index > f.node.commit {
        CommittedGrows(h, m, q.snap.image, q.term, q.term) by { LocalGrows(h, m, v); }
        TermIs(f, m, v);
        var hs';
        k, hs' := InstallRel(f, m, v, q.snap);
        var c := SaveSnapshot(q.snap, f.node.term, f.node.vote,
          CompactedTo(f.node.log, q.snap.index, q.snap.term)[1..]);
        LocalTrans(h, m, k, v);
        CoversTrans(h, m, v, Points(f.node.disk, c), hs');
        CoversConcat(h, v, AdoptTrail(n, q.term), hs, Points(f.node.disk, c), hs');
        hs := hs + hs';
      }
    }
  }

  lemma TermIs(r: Replica, h: Hist, v: Id)
    requires Basic(h) && NodeRel(r, h, v)
    ensures v in h.servers && r.node.term == h.term[v]
  {
  }

  // ---------------------------------------------------------------------------
  // A snapshot of the server's own
  // ---------------------------------------------------------------------------

  /** The retained entries are the end of the virtual log. */
  lemma LogTail(log: seq<Entry>, L: seq<Entry>, K: seq<Entry>)
    requires LogRel(log, L, K)
    ensures |log| > 0 && First(log) <= |K| <= |L| && log[1..] == L[First(log)..]
  {
    var a, b := log[1..], L[First(log)..];
    forall i | 0 <= i < |a|
      ensures a[i] == b[i]
    {
      assert a[i] == log[i + 1] && b[i] == L[First(log) + i];
    }
  }

  /** A log made of a sentinel and the end of `L`. */
  lemma TailLog(log: seq<Entry>, L: seq<Entry>, K: seq<Entry>, cut: nat)
    requires Shape(L) && 0 < cut <= |K| && K <= L && |log| > 0 && log[0] == Entry(cut, K[cut - 1].term, []) &&
      log[1..] == L[cut..]
    ensures LogRel(log, L, K)
  {
    forall i | 1 <= i < |log|
      ensures log[i] == L[cut + i - 1] && log[i].index == cut + i
    {
      assert log[i] == log[1..][i - 1] == L[cut..][i - 1];
    }
  }

  lemma CompactedTail(log: seq<Entry>, cut: nat, term: nat)
    requires Wf(log) && First(log) < cut <= Last(log)
    ensures var after := CompactedTo(log, cut, term);
      |after| > 0 && after[0] == Entry(cut, term, []) && after[1..] == log[1..][cut - First(log)..]
  {
  }

  /** Compaction below the commit index forgets nothing the sentinel does not answer for. */
  lemma CompactLog(log: seq<Entry>, L: seq<Entry>, K: seq<Entry>, cut: nat)
    requires LogRel(log, L, K) && Shape(L) && First(log) < cut <= |K|
    ensures cut <= |L| && LogRel(CompactedTo(log, cut, L[cut - 1].term), L, K)
    ensures First(CompactedTo(log, cut, L[cut - 1].term)) == cut
  {
    hide LogRel, CompactedTo, Shape, Wf;
    LogRelWf(log, L, K);
    LogTail(log, L, K);
    CommittedHere(log, L, K);
    CompactedTail(log, cut, L[cut - 1].term);
    assert L[First(log)..][cut - First(log)..] == L[cut..];
    TailLog(CompactedTo(log, cut, L[cut - 1].term), L, K, cut);
  }

  lemma CommittedHere(log: seq<Entry>, L: seq<Entry>, K: seq<Entry>)
    requires LogRel(log, L, K) && First(log) < |K|
    ensures K <= L
  {
  }

  lemma KeptLog(n: Node, L: seq<Entry>, K: seq<Entry>, index: nat)
    requires LogRel(n.log, L, K) && Shape(L) && First(n.log) < index <= |K|
    ensures LogRel(Trimmed(n, index), L, K) && First(n.log) <= First(Trimmed(n, index)) <= index
  {
    hide LogRel, CompactedTo, Shape;
    LogRelWf(n.log, L, K);
    var cut := if n.retain > 0 then (if index > n.retain then index - n.retain else 0) else index;
    if cut > First(n.log) {
      TermAtVirtual(n.log, L, K, cut);
      CompactLog(n.log, L, K, cut);
    }
  }

  lemma ConsecutiveTail(L: seq<Entry>, f: nat)
    requires Shape(L) && f <= |L|
    ensures Consecutive(L[f..], f)
  {
  }

  /** What the kept log leaves above the snapshot. */
  lemma KeptAbove(log: seq<Entry>, L: seq<Entry>, K: seq<Entry>, index: nat)
    requires LogRel(log, L, K) && Shape(L) && First(log) <= index <= |K|
    ensures DropHead(log[1..], index) == L[index..]
  {
    hide LogRel, DropHead;
    LogTail(log, L, K);
    ConsecutiveTail(L, First(log));
    DropHeadConsecutive(L[First(log)..], First(log), index);
    assert L[First(log)..][index - First(log)..] == L[index..];
  }

  lemma TakeCursors(r: Replica, K: seq<Entry>, s: Snap, log: seq<Entry>, d: Disk)
    requires CursorRel(r, K) && SnapRel(s, K) && s.index == |r.app| && s.index <= r.node.applied
    requires |log| > 0 && First(log) <= s.index && d.snap == s
    ensures CursorRel(r.(node := r.node.(log := log, disk := d, cache := s)), K)
  {
    hide FeedRel, FedAll;
  }

  lemma TakeFacts(r: Replica, h: Hist, v: Id)
    requires Basic(h) && Inv(h) && NodeRel(r, h, v)
    requires First(r.node.log) < |r.app| <= r.node.applied
    ensures |r.app| <= |h.cp[v]| && r.node.disk.snap.index <= |r.app| && r.app <= h.cp[v] <= h.virt[v]
    ensures TermAt(r.node.log, |r.app|) == Some(h.cp[v][|r.app| - 1].term)
    ensures Shape(h.virt[v]) && Recover(r.node.disk).vote == r.node.vote && Committed(h, r.app, h.term[v])
  {
    hide Inv, NodeRel, PeersOf, FedAll, Shape, Valid, Committed, Replay, CandidateRel, LeaderRel;
    NodeParts(r, h, v);
    TermAtVirtual(r.node.log, h.virt[v], h.cp[v], |r.app|);
    VirtShape(h, v) by { InvParts(h); }
    KnownAt(h, v) by { InvParts(h); }
    CommittedPrefix(h, h.cp[v], h.term[v], |r.app|);
    assert r.app == h.cp[v][..|r.app|];
  }

  lemma TakenIs(n: Node, app: seq<Entry>, raw: seq<Byte>)
    requires Wf(n.log) && First(n.log) < |app| <= n.applied && TermAt(n.log, |app|).Some?
    ensures var s := Snap(|app|, TermAt(n.log, |app|).value, app, raw);
      var d := Disk([HardState(n.term, n.vote)] + Puts(Trimmed(n, |app|)[1..]), s);
      TakeSnapshot(n, |app|, app, raw) ==
        Out(n.(log := Trimmed(n, |app|), disk := d, cache := s), (), [n.disk.(snap := s), d])
  {
  }

  lemma TakeArrives(r: Replica, h: Hist, v: Id, s: Snap, log: seq<Entry>, d: Disk)
    requires Basic(h) && Inv(h) && NodeRel(r, h, v) && DurRel(d, h, v) && LogRel(log, h.virt[v], h.cp[v])
    requires SnapRel(s, h.cp[v]) && s.index == |r.app| <= r.node.applied && First(log) <= s.index && d.snap == s
    ensures Arrives(h, h, v, r.(node := r.node.(log := log, disk := d, cache := s)))
  {
    hide Inv, Local, NodeRel, Grows, LogRel, DurRel, VoteRel, CursorRel, PeersOf, CandidateRel, LeaderRel, SnapRel;
    Stays(h, v);
    NodeParts(r, h, v);
    LogRelWf(log, h.virt[v], h.cp[v]);
    TakeCursors(r, h.cp[v], s, log, d);
    var r' := r.(node := r.node.(log := log, disk := d, cache := s));
    SameRoles(r.node, r'.node, h, v);
    NodeIntro(r', h, v);
  }

  /** The state machine hands over its state. */
  lemma CompactRel(r: Replica, h: Hist, v: Id, raw: seq<Byte>) returns (hs: seq<Hist>)
    requires Basic(h) && Inv(h) && NodeRel(r, h, v) && Wf(r.node.log)
    ensures var o := TakeSnapshot(r.node, |r.app|, r.app, raw);
      Arrives(h, h, v, r.(node := o.node)) && Covers(h, v, o.trail, hs)
  {
    var n := r.node;
    Stays(h, v);
    if First(n.log) < |r.app| <= n.applied && TermAt(n.log, |r.app|).Some? {
      hide Inv, Local, NodeRel, Grows, LogRel, DurRel, VoteRel, CursorRel, Committed, PeersOf, Shape, Trimmed,
        TakeSnapshot, Recover;
      TakenIs(n, r.app, raw);
      hs := TakeRel(r, h, v, raw);
    } else {
      hs := [];
    }
  }

  lemma TakeRel(r: Replica, h: Hist, v: Id, raw: seq<Byte>) returns (hs: seq<Hist>)
    requires Basic(h) && Inv(h) && NodeRel(r, h, v) && Wf(r.node.log)
    requires First(r.node.log) < |r.app| <= r.node.applied && TermAt(r.node.log, |r.app|).Some?
    ensures var n := r.node; var s := Snap(|r.app|, TermAt(n.log, |r.app|).value, r.app, raw);
      var d := Disk([HardState(n.term, n.vote)] + Puts(Trimmed(n, |r.app|)[1..]), s);
      Arrives(h, h, v, r.(node := n.(log := Trimmed(n, |r.app|), disk := d, cache := s))) &&
      Covers(h, v, [n.disk.(snap := s), d], hs)
  {
    hide Inv, Local, NodeRel, Grows, LogRel, DurRel, VoteRel, CursorRel, Committed, PeersOf, Shape, Trimmed,
      CandidateRel, LeaderRel;
    Stays(h, v);
    var n := r.node;
    NodeParts(r, h, v);
    TakeFacts(r, h, v);
    var s := Snap(|r.app|, TermAt(n.log, |r.app|).value, r.app, raw);
    var log := Trimmed(n, |r.app|);
    KeptLog(n, h.virt[v], h.cp[v], |r.app|);
    LogRelWf(log, h.virt[v], h.cp[v]);
    KeptAbove(log, h.virt[v], h.cp[v], |r.app|);
    SaveDisk(n.disk, h, h, v, s, n.term, n.vote, log[1..]) by { LocalGrows(h, h, v); }
    hs := [h, h];
    TakeArrives(r, h, v, s, log, Disk([HardState(n.term, n.vote)] + Puts(log[1..]), s));
  }

  lemma SameRoles(n: Node, m: Node, h: Hist, v: Id)
    requires Basic(h) && m.term == n.term && m.role == n.role && m.next == n.next && m.matched == n.matched
    requires m.commit == n.commit && m.peers == n.peers
    requires (n.role == Candidate ==> CandidateRel(n, h, v)) && (n.role == Leader ==> LeaderRel(n, h, v))
    ensures (m.role == Candidate ==> CandidateRel(m, h, v)) && (m.role == Leader ==> LeaderRel(m, h, v))
  {
    if n.role == Leader {
      forall p | p in n.peers
        ensures MatchRel(m, h, p)
      {
        assert MatchRel(n, h, p);
      }
    }
  }
}
