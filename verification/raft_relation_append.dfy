/** Serving AppendEntries keeps the cluster and its history together. */
module RelationAppend {
  import opened RaftTypes
  import opened RaftLog
  import opened Persist
  import opened NodeSpec
  import opened ClusterSpec
  import opened History
  import opened HistorySteps
  import opened Relation
  import opened RelationVotes

  // ---------------------------------------------------------------------------
  // Logs side by side: the follower's (`log`, standing for `L` and `K`) and the leader's (`P`)
  // ---------------------------------------------------------------------------

  lemma {:induction false} FirstNewSpec(log: seq<Entry>, es: seq<Entry>)
    requires Wf(log)
    ensures var i := FirstNew(log, es);
      (forall j :: 0 <= j < i ==> es[j].index <= First(log) || TermAt(log, es[j].index) == Some(es[j].term)) &&
      (i < |es| ==> es[i].index > First(log) && TermAt(log, es[i].index) != Some(es[i].term))
  {
    if es != [] && (es[0].index <= First(log) || TermAt(log, es[0].index) == Some(es[0].term)) {
      FirstNewSpec(log, es[1..]);
      var i := FirstNew(log, es);
      forall j | 0 <= j < i
        ensures es[j].index <= First(log) || TermAt(log, es[j].index) == Some(es[j].term)
      {
        if j > 0 { assert es[j] == es[1..][j - 1]; }
      }
      if i < |es| { assert es[i] == es[1..][i - 1]; }
    }
  }

  lemma TermAtVirtual(log: seq<Entry>, L: seq<Entry>, K: seq<Entry>, i: nat)
    requires LogRel(log, L, K) && First(log) < i <= |L|
    ensures TermAt(log, i) == Some(L[i - 1].term)
  {
    assert log[i - First(log)] == L[i - 1];
  }

  /** The entries of a request are the leader's, from `prev` on. */
  ghost predicate Incoming(es: seq<Entry>, prev: nat, P: seq<Entry>)
  {
    prev + |es| <= |P| && forall i :: 0 <= i < |es| ==> es[i] == P[prev + i]
  }

  /** The two logs before the request is served, the consistency check having passed. */
  ghost predicate Compared(h: Hist, log: seq<Entry>, L: seq<Entry>, K: seq<Entry>, P: seq<Entry>, prev: nat,
      es: seq<Entry>)
  {
    LogRel(log, L, K) && Shape(L) && Shape(P) && Valid(h, L) && Valid(h, P) && Agree(K, P, |K|) &&
    Incoming(es, prev, P) && prev <= |L| &&
    (prev > First(log) ==> TermAt(log, prev) == Some(P[prev - 1].term))
  }

  lemma HeldEntry(h: Hist, log: seq<Entry>, L: seq<Entry>, K: seq<Entry>, P: seq<Entry>, i: nat)
    requires LogRel(log, L, K) && Valid(h, L) && Valid(h, P) && First(log) < i <= |L| && i <= |P|
    requires TermAt(log, i) == Some(P[i - 1].term)
    ensures Agree(L, P, i)
  {
    TermAtVirtual(log, L, K, i);
    LogMatching(h, L, P, i - 1);
  }

  /** Nothing to write: the request lies under the snapshot, or the log holds all of it. */
  lemma NothingNew(h: Hist, log: seq<Entry>, L: seq<Entry>, K: seq<Entry>, P: seq<Entry>, prev: nat, es: seq<Entry>)
    requires Compared(h, log, L, K, P, prev, es) && FirstNew(log, es) == |es|
    ensures prev + |es| <= First(log) || Agree(L, P, prev + |es|)
  {
    hide LogRel, Shape, Valid, Agree, FirstNew;
    LogRelWf(log, L, K);
    FirstNewSpec(log, es);
    var M := prev + |es|;
    if M > First(log) {
      if es != [] {
        assert es[|es| - 1] == P[M - 1];
        ShapeIndex(P, M - 1);
        assert TermAt(log, M) == Some(P[M - 1].term);
      }
      HeldEntry(h, log, L, K, P, M);
    }
  }

  /** Something to write at index `e`: below it the logs agree, at it they differ. */
  ghost predicate Differ(log: seq<Entry>, L: seq<Entry>, K: seq<Entry>, P: seq<Entry>, e: nat)
  {
    |log| > 0 && First(log) < e <= |L| + 1 && e <= |P| && |K| < e && (e - 1 == First(log) || Agree(L, P, e - 1)) &&
    (e <= |L| ==> L[e - 1].term != P[e - 1].term)
  }

  lemma NewPosition(log: seq<Entry>, L: seq<Entry>, K: seq<Entry>, P: seq<Entry>, prev: nat, es: seq<Entry>)
    requires LogRel(log, L, K) && Shape(P) && Incoming(es, prev, P) && prev <= |L| && FirstNew(log, es) < |es|
    ensures var i := FirstNew(log, es); var e := prev + i + 1;
      es[i].index == e && First(log) < e <= |L| + 1 && TermAt(log, e) != Some(P[e - 1].term) &&
      (i > 0 && e - 1 > First(log) ==> TermAt(log, e - 1) == Some(P[e - 2].term))
  {
    hide LogRel, FirstNew, Shape;
    LogRelWf(log, L, K);
    FirstNewSpec(log, es);
    var i := FirstNew(log, es);
    assert es[i] == P[prev + i];
    ShapeIndex(P, prev + i);
    if i > 0 {
      assert es[i - 1] == P[prev + i - 1];
      ShapeIndex(P, prev + i - 1);
    }
  }

  lemma ShapeIndex(P: seq<Entry>, i: nat)
    requires Shape(P) && i < |P|
    ensures P[i].index == i + 1
  {
  }

  lemma SomethingNew(h: Hist, log: seq<Entry>, L: seq<Entry>, K: seq<Entry>, P: seq<Entry>, prev: nat, es: seq<Entry>)
    requires Compared(h, log, L, K, P, prev, es) && FirstNew(log, es) < |es|
    ensures Differ(log, L, K, P, prev + FirstNew(log, es) + 1) &&
      es[FirstNew(log, es)].index == prev + FirstNew(log, es) + 1
  {
    hide LogRel, Shape, Valid, Agree, FirstNew;
    LogRelWf(log, L, K);
    NewPosition(log, L, K, P, prev, es);
    var e := prev + FirstNew(log, es) + 1;
    if e - 1 > First(log) {
      HeldEntry(h, log, L, K, P, e - 1);
    }
    if e <= |L| { TermAtVirtual(log, L, K, e); }
    CommittedBelow(log, L, K, P, e);
  }

  lemma LogRelWf(log: seq<Entry>, L: seq<Entry>, K: seq<Entry>)
    requires LogRel(log, L, K)
    ensures Wf(log) && Last(log) == |L| && First(log) <= |K| <= |L|
  {
  }

  /** A conflict never reaches into what is committed. */
  lemma CommittedBelow(log: seq<Entry>, L: seq<Entry>, K: seq<Entry>, P: seq<Entry>, e: nat)
    requires LogRel(log, L, K) && Agree(K, P, |K|) && First(log) < e <= |P| &&
      (e <= |L| ==> L[e - 1].term != P[e - 1].term)
    ensures |K| < e
  {
  }

  lemma MergedEntries(log: seq<Entry>, L: seq<Entry>, K: seq<Entry>, P: seq<Entry>, e: nat, m: nat)
    requires LogRel(log, L, K) && Differ(log, L, K, P, e) && e <= m <= |P|
    ensures var f := First(log); var both := TruncatedFrom(log, e) + P[e - 1..m];
      |both| == m - f + 1 && both[0] == log[0] && forall i :: 1 <= i < |both| ==> both[i] == P[f + i - 1]
  {
    var f := First(log);
    var front, back := TruncatedFrom(log, e), P[e - 1..m];
    assert front == log[..e - f];
    hide TruncatedFrom, Wf;
    var both := front + back;
    forall i | 1 <= i < |both|
      ensures both[i] == P[f + i - 1]
    {
      if i < e - f {
        assert both[i] == log[i] == L[f + i - 1];
      } else {
        assert both[i] == back[i - (e - f)];
      }
    }
  }

  /** The log after the entries up to `m` are in place. */
  lemma MergedLog(log: seq<Entry>, L: seq<Entry>, K: seq<Entry>, P: seq<Entry>, e: nat, m: nat)
    requires LogRel(log, L, K) && Shape(P) && Agree(K, P, |K|) && Differ(log, L, K, P, e) && e <= m <= |P|
    ensures LogRel(TruncatedFrom(log, e) + P[e - 1..m], P[..m], K)
  {
    MergedEntries(log, L, K, P, e, m);
    LogFromEntries(TruncatedFrom(log, e) + P[e - 1..m], P, K, First(log), m);
  }

  lemma LogFromEntries(log: seq<Entry>, P: seq<Entry>, K: seq<Entry>, f: nat, m: nat)
    requires Shape(P) && Agree(K, P, |K|) && f <= |K| <= m <= |P| && f < m
    requires |log| == m - f + 1 && log[0].index == f && log[0].term == (if f == 0 then 0 else K[f - 1].term)
    requires forall i :: 1 <= i < |log| ==> log[i] == P[f + i - 1]
    ensures LogRel(log, P[..m], K)
  {
  }

  lemma DifferCanAdopt(h: Hist, v: Id, log: seq<Entry>, e: nat, m: nat)
    requires Basic(h) && v in h.servers && h.term[v] in h.llog
    requires Differ(log, h.virt[v], h.cp[v], h.llog[h.term[v]], e) && e - 1 <= m <= |h.llog[h.term[v]]|
    ensures CanAdopt(h, v, m)
  {
    var L := h.virt[v];
    var P := h.llog[h.term[v]];
    forall c: nat | Agree(L, P, c)
      ensures c <= m
    {
    }
  }

  // ---------------------------------------------------------------------------
  // The disk on the way
  // ---------------------------------------------------------------------------

  lemma DurAdopt(d: Disk, d': Disk, h: Hist, v: Id, m: nat)
    requires Basic(h) && DurRel(d, h, v) && CanAdopt(h, v, m) && Basic(Adopt(h, v, m)) && Grows(h, Adopt(h, v, m))
    requires d.snap.index <= m && Agree(d.snap.image, h.llog[h.term[v]], d.snap.index)
    requires Recover(d') == Recover(d).(entries := h.llog[h.term[v]][d.snap.index..m])
    ensures DurRel(d', Adopt(h, v, m), v)
  {
    var k := Adopt(h, v, m);
    CommittedGrows(h, k, d.snap.image, h.term[v], k.term[v]);
    assert k.virt[v][d.snap.index..] == h.llog[h.term[v]][d.snap.index..m];
  }

  /** After the truncation record, if one is needed, the disk holds the leader's log below `e`. */
  lemma CutDisk(d: Disk, L: seq<Entry>, P: seq<Entry>, K: seq<Entry>, log: seq<Entry>, e: nat)
    requires LogRel(log, L, K) && Shape(L) && Agree(K, P, |K|) && Differ(log, L, K, P, e)
    requires First(log) <= d.snap.index <= |K| && Recover(d).entries == L[d.snap.index..]
    ensures var c := if e <= |L| then Done(d, TruncateFrom(e)) else d;
      Recover(c) == Recover(d).(entries := P[d.snap.index..e - 1])
  {
    var k := d.snap.index;
    SameBelow(L, P, K, log, e, k);
    assert Sound(Recover(d));
    hide LogRel, Shape, Differ, Agree, Replay;
    if e <= |L| {
      RecoverTruncate(d, e);
      assert L[k..][..e - k - 1] == L[k..e - 1];
    } else {
      assert L[k..e - 1] == L[k..];
    }
  }

  lemma SameBelow(L: seq<Entry>, P: seq<Entry>, K: seq<Entry>, log: seq<Entry>, e: nat, k: nat)
    requires LogRel(log, L, K) && Differ(log, L, K, P, e) && First(log) <= k <= |K|
    ensures k < e <= |L| + 1 && e <= |P| && L[k..e - 1] == P[k..e - 1]
  {
  }

  lemma PutDisk(d: Disk, c: Disk, P: seq<Entry>, e: nat, m: nat)
    requires Shape(P) && d.snap.index < e <= m + 1 && m <= |P|
    requires Recover(c) == Recover(d).(entries := P[d.snap.index..e - 1])
    ensures Recover(AddEntries(c, P[e - 1..m])) == Recover(d).(entries := P[d.snap.index..m])
  {
    hide Replay, Shape, AddEntries;
    var k := d.snap.index;
    SliceConsecutive(P, k, e - 1);
    SliceConsecutive(P, e - 1, m);
    RecoverAppend(c, P[e - 1..m]);
    SlicesJoin(P, k, e - 1, m);
  }

  lemma SliceConsecutive(P: seq<Entry>, i: nat, j: nat)
    requires Shape(P) && i <= j <= |P|
    ensures Consecutive(P[i..j], i)
  {
  }

  lemma SlicesJoin(P: seq<Entry>, i: nat, j: nat, k: nat)
    requires i <= j <= k <= |P|
    ensures P[i..j] + P[j..k] == P[i..k]
  {
  }

  /** One durable state on the way: the leader's log up to `m`. */
  lemma ReachMerged(d: Disk, d': Disk, h: Hist, v: Id, log: seq<Entry>, e: nat, m: nat)
    requires Basic(h) && Inv(h) && DurRel(d, h, v) && h.term[v] in h.llog
    requires Differ(log, h.virt[v], h.cp[v], h.llog[h.term[v]], e) && e - 1 <= m <= |h.llog[h.term[v]]|
    requires d.snap.index < e && Agree(d.snap.image, h.llog[h.term[v]], d.snap.index)
    requires Recover(d') == Recover(d).(entries := h.llog[h.term[v]][d.snap.index..m])
    ensures Reaches(h, Adopt(h, v, m), v, d')
  {
    hide Inv, Local, DurRel, Differ, CanAdopt, Recover, Grows;
    DurServer(d, h, v);
    DifferCanAdopt(h, v, log, e, m);
    AdoptOk(h, v, m);
    LocalGrows(h, Adopt(h, v, m), v);
    InvBasic(Adopt(h, v, m));
    DurAdopt(d, d', h, v, m);
  }

  lemma DurServer(d: Disk, h: Hist, v: Id)
    requires Basic(h) && DurRel(d, h, v)
    ensures v in h.servers && Recover(d).snap == d.snap && Recover(d).entries == h.virt[v][d.snap.index..]
  {
  }

  lemma CoverPuts(d: Disk, c: Disk, h: Hist, v: Id, log: seq<Entry>, e: nat, xs: seq<Entry>) returns (hs: seq<Hist>)
    requires Basic(h) && Inv(h) && DurRel(d, h, v) && h.term[v] in h.llog && Shape(h.llog[h.term[v]])
    requires Differ(log, h.virt[v], h.cp[v], h.llog[h.term[v]], e)
    requires d.snap.index < e && Agree(d.snap.image, h.llog[h.term[v]], d.snap.index)
    requires Recover(c) == Recover(d).(entries := h.llog[h.term[v]][d.snap.index..e - 1])
    requires e - 1 + |xs| <= |h.llog[h.term[v]]| && xs == h.llog[h.term[v]][e - 1..e - 1 + |xs|]
    ensures Covers(h, v, Points(c, AppendEntries(xs)), hs)
    ensures xs != [] ==> Reaches(h, Adopt(h, v, e - 1 + |xs|), v, Done(c, AppendEntries(xs)))
  {
    hide Inv, Local, DurRel, Differ, Recover, Grows, Shape, Agree, Reaches;
    DurServer(d, h, v);
    var P := h.llog[h.term[v]];
    hs := seq(|xs|, j requires 0 <= j < |xs| => Adopt(h, v, e + j));
    forall j | 0 <= j < |xs|
      ensures Reaches(h, hs[j], v, Points(c, AppendEntries(xs))[j])
    {
      assert xs[..j + 1] == P[e - 1..e + j];
      PutDisk(d, c, P, e, e + j);
      ReachMerged(d, AddEntries(c, xs[..j + 1]), h, v, log, e, e + j);
    }
    if xs != [] {
      assert Reaches(h, hs[|xs| - 1], v, Points(c, AppendEntries(xs))[|xs| - 1]);
    }
  }

  // ---------------------------------------------------------------------------
  // The server
  // ---------------------------------------------------------------------------

  lemma FollowerKept(r: Replica, h: Hist, k: Hist, v: Id)
    requires Basic(h) && Basic(k) && Grows(h, k) && NodeRel(r, h, v) && r.node.role == Follower
    requires k.virt == h.virt && k.cp == h.cp && k.term == h.term && k.votes == h.votes
    ensures NodeRel(r, k, v)
  {
    hide NodeRel, LogRel, DurRel, CursorRel, VoteRel, Grows;
    NodeParts(r, h, v);
    DurVotes(r.node.disk, h, k, v);
    SameVote(r.node.vote, h, k, v);
    NodeIntro(r, k, v) by { assert k.servers == h.servers by { GrowsServers(h, k); } }
  }

  lemma GrowsServers(h: Hist, k: Hist)
    requires Grows(h, k)
    ensures k.servers == h.servers
  {
  }

  /** Everything known about the two logs when the consistency check has passed. */
  lemma SetUp(r: Replica, h: Hist, v: Id, from: Id, q: AppendRequest)
    requires Basic(h) && Inv(h) && NodeRel(r, h, v) && AppendRpcRel(from, q, h) && q.term == r.node.term
    requires Wf(r.node.log) && q.prevIndex <= Last(r.node.log)
    requires q.prevIndex >= First(r.node.log) ==> TermAt(r.node.log, q.prevIndex) == Some(q.prevTerm)
    ensures Compared(h, r.node.log, h.virt[v], h.cp[v], h.llog[h.term[v]], q.prevIndex, q.entries)
    ensures First(r.node.log) <= r.node.disk.snap.index <= |h.cp[v]|
    ensures Agree(r.node.disk.snap.image, h.llog[h.term[v]], r.node.disk.snap.index)
  {
    hide Inv, NodeRel, DurRel, VoteRel, LogRel, CursorRel, Shape, Valid, PeersOf, CommittedUpTo, Committed;
    NodeParts(r, h, v);
    SetUpLogs(h, v) by { InvParts(h); }
    SnapBelow(r, h.cp[v]);
    LogRelWf(r.node.log, h.virt[v], h.cp[v]);
  }

  lemma SnapBelow(r: Replica, K: seq<Entry>)
    requires CursorRel(r, K)
    ensures |r.node.log| > 0 && First(r.node.log) <= r.node.disk.snap.index <= |K|
    ensures r.node.disk.snap.image <= K && |r.node.disk.snap.image| == r.node.disk.snap.index
  {
    hide FeedRel, FedAll;
  }

  lemma SetUpLogs(h: Hist, v: Id)
    requires Basic(h) && LogsOk(h) && CommitsOk(h) && Complete(h) && Known(h) && v in h.servers && h.term[v] in h.llog
    ensures Shape(h.virt[v]) && Shape(h.llog[h.term[v]]) && Valid(h, h.virt[v]) && Valid(h, h.llog[h.term[v]])
    ensures Agree(h.cp[v], h.llog[h.term[v]], |h.cp[v]|)
  {
    LeaderHasCommitted(h, h.cp[v], h.term[v], h.term[v]);
  }

  /** Taking over the entries of a request that passed the consistency check. */
  lemma MergeRel(r: Replica, h: Hist, v: Id, from: Id, q: AppendRequest) returns (k: Hist, hs: seq<Hist>)
    requires Basic(h) && Inv(h) && NodeRel(r, h, v) && AppendRpcRel(from, q, h) && q.term == r.node.term
    requires Wf(r.node.log) && q.prevIndex <= Last(r.node.log) && r.node.role == Follower
    requires q.prevIndex >= First(r.node.log) ==> TermAt(r.node.log, q.prevIndex) == Some(q.prevTerm)
    ensures Arrives(h, k, v, r.(node := Merged(r.node, q.entries)))
    ensures Covers(h, v, MergeTrail(r.node, q.entries), hs)
    ensures k.llog == h.llog && k.leader == h.leader && k.commits == h.commits && k.term == h.term && k.cp == h.cp
    ensures var M := q.prevIndex + |q.entries|; M <= First(r.node.log) || Agree(k.virt[v], k.llog[q.term], M)
  {
    hide Inv, Local, NodeRel, DurRel, LogRel, CursorRel, Grows, Valid, Shape, FirstNew;
    SetUp(r, h, v, from, q);
    NodeParts(r, h, v);
    var n := r.node;
    var L := h.virt[v];
    var P := h.llog[h.term[v]];
    var i := FirstNew(n.log, q.entries);
    if i == |q.entries| {
      NothingNew(h, n.log, L, h.cp[v], P, q.prevIndex, q.entries);
      k, hs := h, [];
      Stays(h, v);
    } else {
      k, hs := MergeNewRel(r, h, v, q);
    }
  }

  /** The new entries of a request: from `e` on, and the disk they are appended to. */
  ghost predicate Fresh(n: Node, L: seq<Entry>, K: seq<Entry>, P: seq<Entry>, q: AppendRequest, e: nat, xs: seq<Entry>,
      c: Disk)
  {
    Wf(n.log) && FirstNew(n.log, q.entries) < |q.entries| && e == q.entries[FirstNew(n.log, q.entries)].index &&
    xs == q.entries[FirstNew(n.log, q.entries)..] && e == q.prevIndex + FirstNew(n.log, q.entries) + 1 &&
    Differ(n.log, L, K, P, e) && Incoming(q.entries, q.prevIndex, P) && Last(n.log) == |L| &&
    c == (if e <= |L| then Done(n.disk, TruncateFrom(e)) else n.disk)
  }

  lemma FreshFacts(n: Node, L: seq<Entry>, K: seq<Entry>, P: seq<Entry>, q: AppendRequest, e: nat, xs: seq<Entry>,
      c: Disk)
    requires Fresh(n, L, K, P, q, e, xs, c)
    ensures e - 1 + |xs| == q.prevIndex + |q.entries| <= |P| && xs != [] && xs == P[e - 1..e - 1 + |xs|]
    ensures Wf(n.log) && First(n.log) < e <= Last(n.log) + 1 && |K| < e && Differ(n.log, L, K, P, e)
    ensures Merged(n, q.entries) == n.(log := TruncatedFrom(n.log, e) + xs, disk := Done(c, AppendEntries(xs)))
    ensures MergeTrail(n, q.entries) == (if e <= |L| then [c] else []) + Points(c, AppendEntries(xs))
  {
    hide FirstNew;
    if e > |L| { assert TruncatedFrom(n.log, e) == n.log; }
  }

  lemma MergeNewRel(r: Replica, h: Hist, v: Id, q: AppendRequest) returns (k: Hist, hs: seq<Hist>)
    requires Basic(h) && Inv(h) && NodeRel(r, h, v) && r.node.role == Follower && h.term[v] in h.llog
    requires Compared(h, r.node.log, h.virt[v], h.cp[v], h.llog[h.term[v]], q.prevIndex, q.entries)
    requires First(r.node.log) <= r.node.disk.snap.index <= |h.cp[v]|
    requires Agree(r.node.disk.snap.image, h.llog[h.term[v]], r.node.disk.snap.index)
    requires FirstNew(r.node.log, q.entries) < |q.entries|
    ensures Arrives(h, k, v, r.(node := Merged(r.node, q.entries)))
    ensures Covers(h, v, MergeTrail(r.node, q.entries), hs)
    ensures k == Adopt(h, v, q.prevIndex + |q.entries|)
  {
    hide Inv, Local, NodeRel, DurRel, LogRel, CursorRel, Grows, FirstNew, Recover, Fresh, Compared, Agree,
      Merged, MergeTrail, Done, Points, TruncatedFrom, VoteRel, PeersOf, Differ;
    NodeParts(r, h, v);
    var n := r.node;
    var L, P := h.virt[v], h.llog[h.term[v]];
    var e, xs, c := FindFresh(n, h, v, q);
    FreshFacts(n, L, h.cp[v], P, q, e, xs, c);
    k := Adopt(h, v, e - 1 + |xs|);
    hs := MergeCovers(n, h, v, q, e, xs, c) by { ComparedShape(h, n.log, L, h.cp[v], P, q.prevIndex, q.entries); }
    MergedLog(n.log, L, h.cp[v], P, e, e - 1 + |xs|) by {
      ComparedShape(h, n.log, L, h.cp[v], P, q.prevIndex, q.entries);
    }
    KeptFirst(n.log, e, xs);
    FreshSnap(n, L, h.cp[v], P, q, e, xs, c);
    MergeArrives(r, h, v, r.(node := Merged(n, q.entries)), e - 1 + |xs|);
  }

  lemma ComparedShape(h: Hist, log: seq<Entry>, L: seq<Entry>, K: seq<Entry>, P: seq<Entry>, prev: nat, es: seq<Entry>)
    requires Compared(h, log, L, K, P, prev, es)
    ensures Shape(P) && Agree(K, P, |K|)
  {
  }

  lemma FreshSnap(n: Node, L: seq<Entry>, K: seq<Entry>, P: seq<Entry>, q: AppendRequest, e: nat, xs: seq<Entry>,
      c: Disk)
    requires Fresh(n, L, K, P, q, e, xs, c)
    ensures Done(c, AppendEntries(xs)).snap == n.disk.snap
  {
    hide FirstNew, Done;
    DoneKeepsSnap(n.disk, TruncateFrom(e));
    DoneKeepsSnap(c, AppendEntries(xs));
  }

  lemma FindFresh(n: Node, h: Hist, v: Id, q: AppendRequest) returns (e: nat, xs: seq<Entry>, c: Disk)
    requires Basic(h) && DurRel(n.disk, h, v) && h.term[v] in h.llog
    requires Compared(h, n.log, h.virt[v], h.cp[v], h.llog[h.term[v]], q.prevIndex, q.entries)
    requires First(n.log) <= n.disk.snap.index <= |h.cp[v]| && FirstNew(n.log, q.entries) < |q.entries|
    ensures Fresh(n, h.virt[v], h.cp[v], h.llog[h.term[v]], q, e, xs, c)
    ensures Recover(c) == Recover(n.disk).(entries := h.llog[h.term[v]][n.disk.snap.index..e - 1])
  {
    hide DurRel, LogRel, Valid, Shape, FirstNew, Recover, Differ, Incoming, Agree;
    DurServer(n.disk, h, v);
    var L, P := h.virt[v], h.llog[h.term[v]];
    LogRelWf(n.log, L, h.cp[v]);
    SomethingNew(h, n.log, L, h.cp[v], P, q.prevIndex, q.entries);
    var i := FirstNew(n.log, q.entries);
    e, xs := q.prevIndex + i + 1, q.entries[i..];
    CutDisk(n.disk, L, P, h.cp[v], n.log, e);
    c := if e <= |L| then Done(n.disk, TruncateFrom(e)) else n.disk;
  }

  lemma KeptFirst(log: seq<Entry>, e: nat, xs: seq<Entry>)
    requires Wf(log) && First(log) < e <= Last(log) + 1
    ensures First(TruncatedFrom(log, e) + xs) == First(log)
  {
  }

  lemma MergeCovers(n: Node, h: Hist, v: Id, q: AppendRequest, e: nat, xs: seq<Entry>, c: Disk) returns (hs: seq<Hist>)
    requires Basic(h) && Inv(h) && DurRel(n.disk, h, v) && h.term[v] in h.llog && Shape(h.llog[h.term[v]])
    requires Fresh(n, h.virt[v], h.cp[v], h.llog[h.term[v]], q, e, xs, c) && n.disk.snap.index <= |h.cp[v]|
    requires Agree(n.disk.snap.image, h.llog[h.term[v]], n.disk.snap.index)
    requires Recover(c) == Recover(n.disk).(entries := h.llog[h.term[v]][n.disk.snap.index..e - 1])
    ensures Covers(h, v, MergeTrail(n, q.entries), hs)
    ensures Reaches(h, Adopt(h, v, e - 1 + |xs|), v, Done(c, AppendEntries(xs)))
  {
    hide Inv, Local, DurRel, Shape, Recover, Reaches, Agree, FirstNew, Merged, MergeTrail, TruncatedFrom, Fresh, Differ,
      Points, Done, Wf;
    DurServer(n.disk, h, v);
    var L, P := h.virt[v], h.llog[h.term[v]];
    FreshFacts(n, L, h.cp[v], P, q, e, xs, c);
    hs := CoverPuts(n.disk, c, h, v, n.log, e, xs);
    if e <= |L| {
      ReachMerged(n.disk, c, h, v, n.log, e, e - 1);
      assert Covers(h, v, [c], [Adopt(h, v, e - 1)]);
      CoversConcat(h, v, [c], [Adopt(h, v, e - 1)], Points(c, AppendEntries(xs)), hs);
      hs := [Adopt(h, v, e - 1)] + hs;
    } else {
      assert [] + Points(c, AppendEntries(xs)) == Points(c, AppendEntries(xs));
    }
  }

  lemma DoneKeepsSnap(d: Disk, c: Call)
    requires !c.SaveSnapshot?
    ensures Done(d, c).snap == d.snap
  {
    match c
    case SaveHardState(_, _) =>
    case AppendEntries(es) =>
      if es != [] { assert Points(d, c)[|es| - 1] == AddEntries(d, es[..|es|]); }
    case TruncateFrom(_) =>
  }

  lemma MergeArrives(r: Replica, h: Hist, v: Id, s: Replica, m: nat)
    requires Basic(h) && NodeRel(r, h, v) && r.node.role == Follower && h.term[v] in h.llog && m <= |h.llog[h.term[v]]|
    requires s == r.(node := r.node.(log := s.node.log, disk := s.node.disk)) && s.node.disk.snap == r.node.disk.snap
    requires Reaches(h, Adopt(h, v, m), v, s.node.disk)
    requires LogRel(s.node.log, h.llog[h.term[v]][..m], h.cp[v]) && First(s.node.log) == First(r.node.log)
    ensures Arrives(h, Adopt(h, v, m), v, s)
  {
    hide Inv, Local, NodeRel, DurRel, CursorRel, Grows, Recover, VoteRel, PeersOf;
    NodeParts(r, h, v);
    var k := Adopt(h, v, m);
    SameVote(r.node.vote, h, k, v);
    MergedCursors(r, s, h.cp[v]);
    NodeIntro(s, k, v);
  }

  lemma MergedCursors(r: Replica, s: Replica, K: seq<Entry>)
    requires CursorRel(r, K) && s.app == r.app && s.queue == r.queue && |s.node.log| > 0 &&
      First(s.node.log) == First(r.node.log)
    requires s.node.commit == r.node.commit && s.node.applied == r.node.applied && s.node.pending == r.node.pending
    requires s.node.cache == r.node.cache && s.node.disk.snap == r.node.disk.snap
    ensures CursorRel(s, K)
  {
  }

  // ---------------------------------------------------------------------------
  // Acknowledging, and moving the commit index
  // ---------------------------------------------------------------------------

  lemma AckRel(r: Replica, h: Hist, v: Id, M: nat)
    requires Basic(h) && Inv(h) && NodeRel(r, h, v) && r.node.role == Follower
    requires h.term[v] in h.llog && Agree(h.virt[v], h.llog[h.term[v]], M)
    ensures Arrives(h, Acknowledge(h, v, M), v, r) && AckOf(Acknowledge(h, v, M), v, h.term[v]) >= M
  {
    hide Inv, Local, NodeRel, Grows, LogRel, DurRel, CursorRel;
    NodeParts(r, h, v);
    AcknowledgeOk(h, v, M) by { AgreeSym(h.virt[v], h.llog[h.term[v]], M); }
    var k := Acknowledge(h, v, M);
    InvBasic(k);
    LocalGrows(h, k, v);
    FollowerKept(r, h, k, v);
  }

  lemma AgreeSym(a: seq<Entry>, b: seq<Entry>, c: nat)
    requires Agree(a, b, c)
    ensures Agree(b, a, c)
  {
  }

  lemma {:induction false} FeedGrows(app: seq<Entry>, queue: seq<ApplyMsg>, K: seq<Entry>, K': seq<Entry>)
    requires FeedRel(app, queue, K) && K <= K'
    ensures FeedRel(app, queue, K')
    decreases |queue|
  {
    if queue != [] {
      FeedGrows(Fed(app, queue[0]), queue[1..], K, K');
    }
  }

  lemma CursorsGrow(r: Replica, K: seq<Entry>, K': seq<Entry>)
    requires CursorRel(r, K) && K <= K'
    ensures CursorRel(r.(node := r.node.(commit := |K'|)), K')
  {
    FeedGrows(r.app, r.queue, K, K');
    hide FeedRel, FedAll;
  }

  lemma LogGrows(log: seq<Entry>, L: seq<Entry>, K: seq<Entry>, K': seq<Entry>)
    requires LogRel(log, L, K) && K <= K' <= L
    ensures LogRel(log, L, K')
  {
  }

  /** A server learns that more of its log is committed. */
  lemma LearnRel(r: Replica, h: Hist, v: Id, K: seq<Entry>)
    requires Basic(h) && Inv(h) && NodeRel(r, h, v) && Committed(h, K, h.term[v])
    requires h.cp[v] <= K <= h.virt[v] && r.node.role != Candidate && Basic(Learn(h, v, K))
    requires r.node.role == Leader ==> LeaderRel(r.node.(commit := |K|), Learn(h, v, K), v)
    ensures Arrives(h, Learn(h, v, K), v, r.(node := r.node.(commit := |K|)))
  {
    hide Inv, Local, NodeRel, Grows, LogRel, DurRel, CursorRel, VoteRel, LeaderRel, Committed, PeersOf;
    var k := Learn(h, v, K);
    NodeParts(r, h, v);
    LearnOk(h, v, K);
    LocalGrows(h, k, v);
    DurVotes(r.node.disk, h, k, v);
    SameVote(r.node.vote, h, k, v);
    CursorsGrow(r, h.cp[v], K);
    LogGrows(r.node.log, h.virt[v], h.cp[v], K);
    NodeIntro(r.(node := r.node.(commit := |K|)), k, v);
  }

  /** The follower's commit rule: capped by the last entry the request vouches for. */
  lemma FollowCommit(r: Replica, h: Hist, v: Id, q: AppendRequest, M: nat) returns (k: Hist)
    requires Basic(h) && Inv(h) && NodeRel(r, h, v) && r.node.role == Follower && q.term == h.term[v]
    requires CommittedUpTo(h, q.term, q.leaderCommit) && (M <= r.node.commit || Agree(h.virt[v], h.llog[q.term], M))
    ensures var old' := r.node.commit;
      var c := if q.leaderCommit > old' then Min(q.leaderCommit, Max(M, old')) else old';
      Arrives(h, k, v, r.(node := r.node.(commit := c)))
    ensures k.llog == h.llog && k.acks == h.acks && k.commits == h.commits
  {
    hide Inv, Local, NodeRel, Grows, LogRel, DurRel, VoteRel, PeersOf, Committed, FeedRel;
    NodeParts(r, h, v);
    var n := r.node;
    var P := h.llog[q.term];
    if q.leaderCommit > n.commit && M > n.commit {
      var c := Min(q.leaderCommit, M);
      k := Learn(h, v, P[..c]);
      LearnTarget(h, v, P, q.leaderCommit, c) by { InvParts(h); }
      LearnBasic(h, v, P[..c]);
      assert P[..c] <= h.virt[v];
      LearnRel(r, h, v, P[..c]);
    } else {
      k := h;
      Stays(h, v);
    }
  }

  lemma LearnBasic(h: Hist, v: Id, K: seq<Entry>)
    requires Basic(h) && v in h.servers
    ensures Basic(Learn(h, v, K))
  {
  }

  lemma LearnTarget(h: Hist, v: Id, P: seq<Entry>, lc: nat, c: nat)
    requires Basic(h) && CommitsOk(h) && Complete(h) && Known(h) && v in h.servers && h.term[v] in h.llog &&
      P == h.llog[h.term[v]]
    requires CommittedUpTo(h, h.term[v], lc) && |h.cp[v]| <= c <= lc
    ensures c <= |P| && Committed(h, P[..c], h.term[v]) && h.cp[v] <= P[..c]
  {
    CommittedPrefix(h, P[..lc], h.term[v], c);
    assert P[..lc][..c] == P[..c];
    CommittedAgree(h, h.cp[v], h.term[v], P[..c], h.term[v]);
  }

  // ---------------------------------------------------------------------------
  // Rejections
  // ---------------------------------------------------------------------------

  lemma {:induction false} ScanFirstBound(es: seq<Entry>, t: nat, j: nat)
    requires j < |es| && es[j].term == t
    requires forall a, b :: 0 <= a < b < |es| ==> es[a].index < es[b].index
    ensures exists i :: 0 <= i <= j && ScanFirst(es, t) == es[i].index
  {
    if es[0].term == t {
      assert ScanFirst(es, t) == es[0].index;
    } else {
      ScanFirstBound(es[1..], t, j - 1);
      var i :| 0 <= i <= j - 1 && ScanFirst(es[1..], t) == es[1..][i].index;
      assert ScanFirst(es, t) == es[i + 1].index;
    }
  }

  /** The real entries of any log are sorted by term, also above a snapshot they disagree with. */
  lemma RealsSorted(log: seq<Entry>, L: seq<Entry>, K: seq<Entry>)
    requires LogRel(log, L, K) && Shape(L)
    ensures Sorted(log[1..])
  {
    forall i, j | 0 <= i < j < |log[1..]|
      ensures log[1..][i].term <= log[1..][j].term
    {
      assert log[1..][i] == log[i + 1] == L[First(log) + i];
      assert log[1..][j] == log[j + 1] == L[First(log) + j];
    }
  }

  /** Where the terms differ the index lies above the sentinel, and the hint points no higher. */
  lemma HintBound(log: seq<Entry>, L: seq<Entry>, K: seq<Entry>, P: seq<Entry>, prev: nat)
    requires LogRel(log, L, K) && Shape(L) && Agree(K, P, |K|) && First(log) <= prev <= |L| && prev <= |P|
    requires TermAt(log, prev) != Some(if prev == 0 then 0 else P[prev - 1].term)
    ensures prev > First(log) && ConflictHint(log, TermAt(log, prev).value) <= prev
  {
    var t := TermAt(log, prev).value;
    if prev > First(log) {
      var reals := log[1..];
      RealsSorted(log, L, K);
      SearchesAreScans(log, t);
      ScanFirstBound(reals, t, prev - First(log) - 1);
    }
  }

  // ---------------------------------------------------------------------------
  // The handler as a whole
  // ---------------------------------------------------------------------------

  /** What a reply to an AppendEntries promises its sender. */
  ghost predicate AppendReplyRel(q: AppendRequest, a: AppendResponse, to: Id, k: Hist)
  {
    if a.success then
      q.prevIndex + |q.entries| <= AckOf(k, to, q.term) || CommittedUpTo(k, q.term, q.prevIndex + |q.entries|)
    else a.conflictIndex <= q.prevIndex
  }

  lemma RejectRel(r: Replica, h: Hist, v: Id, from: Id, q: AppendRequest)
    requires Basic(h) && Inv(h) && NodeRel(r, h, v) && AppendRpcRel(from, q, h) && q.term == r.node.term &&
      Wf(r.node.log)
    requires First(r.node.log) <= q.prevIndex <= Last(r.node.log) && TermAt(r.node.log, q.prevIndex) != Some(q.prevTerm)
    ensures ConflictHint(r.node.log, TermAt(r.node.log, q.prevIndex).value) <= q.prevIndex
  {
    hide Inv, NodeRel, DurRel, VoteRel, CursorRel, LogRel, Shape, Valid, CommittedUpTo, Agree, ConflictHint;
    NodeParts(r, h, v);
    LogRelWf(r.node.log, h.virt[v], h.cp[v]);
    SetUpLogs(h, v) by { InvParts(h); }
    HintBound(r.node.log, h.virt[v], h.cp[v], h.llog[h.term[v]], q.prevIndex);
  }

  /** The follower acknowledges `M` entries, and learns what of them is committed. */
  lemma AckAndFollow(r: Replica, h: Hist, v: Id, q: AppendRequest, M: nat) returns (k: Hist)
    requires Basic(h) && Inv(h) && NodeRel(r, h, v) && r.node.role == Follower && q.term == h.term[v]
    requires CommittedUpTo(h, q.term, q.leaderCommit) && h.term[v] in h.llog && Agree(h.virt[v], h.llog[h.term[v]], M)
    ensures var old' := r.node.commit;
      var c := if q.leaderCommit > old' then Min(q.leaderCommit, Max(M, old')) else old';
      Arrives(h, k, v, r.(node := r.node.(commit := c)))
    ensures M <= AckOf(k, v, q.term)
  {
    hide Inv, Local, NodeRel, Agree, CommittedUpTo, Grows, LogRel, DurRel, CursorRel, VoteRel, PeersOf;
    NodeParts(r, h, v);
    AckRel(r, h, v, M);
    var a := Acknowledge(h, v, M);
    CommittedUpToGrows(h, a, q.term, q.leaderCommit) by { LocalGrows(h, a, v); }
    k := FollowCommit(r, a, v, q, M);
    LocalTrans(h, a, k, v);
    assert AckOf(k, v, q.term) == AckOf(a, v, q.term);
  }

  /** What follows once the entries are taken over. */
  lemma AcceptRest(s: Replica, m: Hist, v: Id, q: AppendRequest) returns (k: Hist)
    requires Basic(m) && Inv(m) && NodeRel(s, m, v) && s.node.role == Follower && q.term == s.node.term
    requires v in m.cp && v in m.virt && q.term in m.llog && CommittedUpTo(m, q.term, q.leaderCommit)
    requires var M := q.prevIndex + |q.entries|; M <= |m.cp[v]| || Agree(m.virt[v], m.llog[q.term], M)
    ensures var M, old' := q.prevIndex + |q.entries|, s.node.commit;
      var c := if q.leaderCommit > old' then Min(q.leaderCommit, Max(M, old')) else old';
      Arrives(m, k, v, s.(node := s.node.(commit := c)))
    ensures AppendReplyRel(q, AppendResponse(q.term, true, 0, 0), v, k)
  {
    hide Inv, Local, NodeRel, DurRel, VoteRel, LogRel, Agree, CommittedUpTo, Grows, CursorRel, PeersOf;
    var M := q.prevIndex + |q.entries|;
    NodeParts(s, m, v);
    if M <= |m.cp[v]| {
      CursorParts(s, m.cp[v]);
      k := FollowCommit(s, m, v, q, M);
      UnderSnapshot(m, v, M) by { InvParts(m); }
      CommittedUpToGrows(m, k, q.term, M) by { LocalGrows(m, k, v); }
    } else {
      k := AckAndFollow(s, m, v, q, M);
    }
  }

  /** The check has passed: take over, acknowledge, follow the leader's commit index. */
  lemma AcceptRel(r: Replica, h: Hist, v: Id, from: Id, q: AppendRequest) returns (k: Hist, hs: seq<Hist>)
    requires Basic(h) && Inv(h) && NodeRel(r, h, v) && AppendRpcRel(from, q, h) && q.term == r.node.term
    requires Wf(r.node.log) && q.prevIndex <= Last(r.node.log) && r.node.role == Follower
    requires q.prevIndex >= First(r.node.log) ==> TermAt(r.node.log, q.prevIndex) == Some(q.prevTerm)
    ensures var g := Merged(r.node, q.entries);
      var M := q.prevIndex + |q.entries|;
      var c := if q.leaderCommit > g.commit then Min(q.leaderCommit, Max(M, g.commit)) else g.commit;
      Arrives(h, k, v, r.(node := g.(commit := c)))
    ensures Covers(h, v, MergeTrail(r.node, q.entries), hs)
    ensures AppendReplyRel(q, AppendResponse(q.term, true, 0, 0), v, k)
  {
    hide Inv, Local, NodeRel, DurRel, VoteRel, LogRel, CursorRel, Agree, Merged, MergeTrail, CommittedUpTo, Grows,
      Reaches, PeersOf, AppendReplyRel;
    var m;
    m, hs := MergeRel(r, h, v, from, q);
    var s := r.(node := Merged(r.node, q.entries));
    MergedRole(r.node, q.entries);
    NodeParts(r, h, v);
    LogRelWf(r.node.log, h.virt[v], h.cp[v]);
    CommittedUpToGrows(h, m, q.term, q.leaderCommit) by { LocalGrows(h, m, v); }
    k := AcceptRest(s, m, v, q);
    LocalTrans(h, m, k, v);
  }

  lemma MergedRole(n: Node, es: seq<Entry>)
    requires Wf(n.log)
    ensures var g := Merged(n, es); g.role == n.role && g.commit == n.commit && g.term == n.term
    ensures |Merged(n, es).log| > 0 && First(Merged(n, es).log) == First(n.log)
  {
    FirstNewSpec(n.log, es);
    hide FirstNew;
  }

  /** What lies under the snapshot is committed. */
  lemma UnderSnapshot(h: Hist, v: Id, M: nat)
    requires Basic(h) && CommitsOk(h) && Complete(h) && Known(h) && v in h.servers && h.term[v] in h.llog &&
      M <= |h.cp[v]|
    ensures CommittedUpTo(h, h.term[v], M)
  {
    LeaderHasCommitted(h, h.cp[v], h.term[v], h.term[v]);
    CommittedPrefix(h, h.cp[v], h.term[v], M);
    assert h.cp[v][..M] == h.llog[h.term[v]][..M];
  }

  /** Serving AppendEntries. */
  lemma ServeAppendRel(r: Replica, h: Hist, v: Id, from: Id, q: AppendRequest) returns (k: Hist, hs: seq<Hist>)
    requires Basic(h) && Inv(h) && NodeRel(r, h, v) && AppendRpcRel(from, q, h) && Wf(r.node.log)
    ensures var o := HandleAppend(r.node, q);
      Arrives(h, k, v, r.(node := o.node)) && Covers(h, v, o.trail, hs) && AppendReplyRel(q, o.resp, v, k)
  {
    hide Inv, Local, NodeRel, AppendRpcRel, Merged, MergeTrail, ConflictHint, AppendReplyRel, Grows;
    var n := r.node;
    hs := AdoptRel(r, h, v, q.term);
    var m := AdoptHist(h, v, n, q.term);
    var s := r.(node := Adopted(n, q.term));
    k := m;
    if q.term < s.node.term {
      RejectReply(q, AppendResponse(s.node.term, false, 0, 0), v, k);
    } else {
      var f := s.(node := s.node.(role := Follower, leaderId := q.leader));
      FollowerRel(s, m, v, q.leader);
      AppendRpcGrows(from, q, h, m) by { LocalGrows(h, m, v); }
      if q.prevIndex > Last(f.node.log) {
        RejectReply(q, AppendResponse(f.node.term, false, Last(f.node.log) + 1, 0), v, k);
      } else if q.prevIndex >= First(f.node.log) && TermAt(f.node.log, q.prevIndex) != Some(q.prevTerm) {
        RejectRel(f, m, v, from, q);
        var t := TermAt(f.node.log, q.prevIndex).value;
        RejectReply(q, AppendResponse(f.node.term, false, ConflictHint(f.node.log, t), t), v, k);
      } else {
        var hs';
        k, hs' := AcceptRel(f, m, v, from, q);
        LocalTrans(h, m, k, v);
        CoversTrans(h, m, v, MergeTrail(f.node, q.entries), hs');
        CoversConcat(h, v, AdoptTrail(n, q.term), hs, MergeTrail(f.node, q.entries), hs');
        hs := hs + hs';
      }
    }
  }

  lemma RejectReply(q: AppendRequest, a: AppendResponse, to: Id, k: Hist)
    requires !a.success && a.conflictIndex <= q.prevIndex
    ensures AppendReplyRel(q, a, to, k)
  {
  }

  lemma AppendRpcGrows(from: Id, q: AppendRequest, h: Hist, k: Hist)
    requires Grows(h, k) && AppendRpcRel(from, q, h)
    ensures AppendRpcRel(from, q, k)
  {
    CommittedUpToGrows(h, k, q.term, q.leaderCommit);
  }
}
