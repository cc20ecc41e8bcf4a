/**
  InstallSnapshot keeps the log above the snapshot without comparing terms at the boundary,
  although section 7 of the Raft paper, and the comment at the handler, keep it only if it is
  consistent. First exactly when what is kept continues the snapshot, in every run; then a run
  of three servers in which it does not. The same beginning also leads to a run in which a
  proposer is handed another command at the index it was given.
*/
module RaftKeptSuffix {
  import opened RaftTypes
  import opened RaftLog
  import opened Persist
  import opened NodeSpec
  import opened ClusterSpec
  import opened History
  import opened Relation
  import opened RunHistory
  import opened RaftSafety
  import KvCommand

  // ---------------------------------------------------------------------------
  // When the kept log continues the snapshot
  // ---------------------------------------------------------------------------

  /** Up to the snapshot's index the log holds the entries the snapshot was taken of. */
  ghost predicate Continues(n: Node, s: Snap)
  {
    forall x: nat :: Holds(n, x) && x <= s.index ==> x <= |s.image| && EntryAt(n, x) == s.image[x - 1]
  }

  /** A snapshot that reaches a server and falls strictly inside its log: the server keeps
      every entry above it, and what it keeps continues the snapshot if and only if the one
      entry at the snapshot's index has the snapshot's term. */
  lemma KeptContinuesExactly(run: seq<Cluster>, i: nat, x: Rpc, v: Id)
    requires IsRun(run) && At(run, i, v) && x in run[i].sent && x.to == v && x.req.AskInstall?
    requires var n, q := NodeAt(run, i, v), x.req.install;
      Wf(n.log) && n.term <= q.term && n.commit < q.snap.index < Last(n.log)
    ensures var n, q := NodeAt(run, i, v), x.req.install; var s := q.snap;
      Holds(n, s.index) && (Continues(n, s) <==> EntryAt(n, s.index).term == s.term) &&
      var m := HandleSnapshot(n, q).node;
      m.log[0] == Entry(s.index, s.term, []) &&
      forall y: nat :: y > s.index && Holds(n, y) ==> Holds(m, y) && EntryAt(m, y) == EntryAt(n, y)
  {
    hide Inv, Rel, Grows, IsRun, NodeRel, LogRel, CursorRel, Valid, Shape, Committed, HandleSnapshot;
    var h, k, top := TwoHistories(run, i, i);
    var n, q := NodeAt(run, i, v), x.req.install;
    Explained(run[i], h, v);
    CursorParts(run[i].nodes[v], h.cp[v]);
    InstallIn(run[i], h, x);
    KeepsAbove(n, q);
    EntryIs(n, h.virt[v], h.cp[v], q.snap.index);
    if EntryAt(n, q.snap.index).term == q.snap.term {
      MatchesImage(h, h.virt[v], q.snap, q.term) by { InvParts(h); }
      forall y: nat | Holds(n, y) && y <= q.snap.index
        ensures EntryAt(n, y) == q.snap.image[y - 1]
      {
        EntryIs(n, h.virt[v], h.cp[v], y);
      }
    }
  }

  lemma InstallIn(c: Cluster, h: Hist, x: Rpc)
    requires Explains(c, h) && x in c.sent && x.req.AskInstall?
    ensures SnapShape(x.req.install.snap) && Committed(h, x.req.install.snap.image, x.req.install.term)
  {
    hide Inv, Rel, Committed;
    RelRpc(c, h, x);
  }

  /** A log that has the image's last term at its last index has the whole image. */
  lemma MatchesImage(h: Hist, L: seq<Entry>, s: Snap, t: nat)
    requires Basic(h) && LogsOk(h) && Valid(h, L) && SnapShape(s) && Committed(h, s.image, t)
    requires 0 < s.index <= |L| && L[s.index - 1].term == s.term
    ensures Agree(L, s.image, s.index)
  {
    hide Valid;
    var T: nat :| CommittedBy(h, s.image, t, T);
    LogMatching(h, L, h.llog[T], s.index - 1);
  }

  lemma InstalledLog(n: Node, q: SnapRequest)
    requires Wf(n.log) && n.term <= q.term && n.commit < q.snap.index
    ensures HandleSnapshot(n, q).node.log == CompactedTo(n.log, q.snap.index, q.snap.term)
  {
    hide Done, Points, CompactedTo;
  }

  lemma CompactedEntry(log: seq<Entry>, index: nat, term: nat, y: nat)
    requires Wf(log) && First(log) < index < y <= Last(log)
    ensures var after := CompactedTo(log, index, term);
      after[0] == Entry(index, term, []) && First(after) == index && Last(after) == Last(log) &&
      y - index < |after| && after[y - index] == log[y - First(log)]
  {
  }

  lemma KeepsAbove(n: Node, q: SnapRequest)
    requires Wf(n.log) && n.term <= q.term && First(n.log) <= n.commit < q.snap.index < Last(n.log)
    ensures var m := HandleSnapshot(n, q).node; var s := q.snap;
      |m.log| > 0 && m.log[0] == Entry(s.index, s.term, []) &&
      forall y: nat :: y > s.index && Holds(n, y) ==> Holds(m, y) && EntryAt(m, y) == EntryAt(n, y)
  {
    hide HandleSnapshot, CompactedTo;
    InstalledLog(n, q);
    CompactedEntry(n.log, q.snap.index, q.snap.term, Last(n.log));
    forall y: nat | y > q.snap.index && Holds(n, y)
      ensures var m := HandleSnapshot(n, q).node; Holds(m, y) && EntryAt(m, y) == EntryAt(n, y)
    {
      CompactedEntry(n.log, q.snap.index, q.snap.term, y);
    }
  }

  // ---------------------------------------------------------------------------
  // A run that departs from the rule
  // ---------------------------------------------------------------------------

  // Server 1 proposes `x` twice, then server 2 proposes `y`; the snapshot's bytes are `raw`.

  const ORIGIN := Entry(0, 0, [])

  function X1(x: seq<Byte>): Entry { Entry(1, 1, x) }

  function X2(x: seq<Byte>): Entry { Entry(2, 1, x) }

  function Y1(y: seq<Byte>): Entry { Entry(1, 2, y) }

  function Image(y: seq<Byte>, raw: seq<Byte>): Snap { Snap(1, 2, [Y1(y)], raw) }

  function Append2(y: seq<Byte>): Rpc { Rpc(2, 3, AskAppend(AppendRequest(2, 2, 0, 0, [Y1(y)], 0))) }

  function Ack2(y: seq<Byte>): Reply { Reply(Append2(y), Appended(AppendResponse(2, true, 0, 0))) }

  function Install2(y: seq<Byte>, raw: seq<Byte>): Rpc { Rpc(2, 1, AskInstall(SnapRequest(2, 2, Image(y, raw)))) }

  const ASK_1 := Rpc(1, 2, AskVote(VoteRequest(1, 1, 0, 0, false)))
  const VOTE_1 := Reply(ASK_1, Voted(VoteResponse(1, true)))
  const ASK_2 := Rpc(2, 3, AskVote(VoteRequest(2, 2, 0, 0, false)))
  const VOTE_2 := Reply(ASK_2, Voted(VoteResponse(2, true)))

  ghost predicate Three(c: Cluster) { c.servers == {1, 2, 3} && c.nodes.Keys == {1, 2, 3} }

  function Peers(id: Id): seq<Id> { if id == 1 then [2, 3] else if id == 2 then [1, 3] else [1, 2] }

  ghost predicate Looks(n: Node, id: Id, term: nat, role: Role, log: seq<Entry>, commit: nat)
  {
    n.id == id && n.peers == Peers(id) && n.retain == 0 && n.term == term && n.role == role && n.log == log &&
    n.commit == commit && n.applied == 0 && n.pending == None
  }

  /** Server `v` of the cluster. */
  ghost predicate Is(c: Cluster, v: Id, term: nat, role: Role, log: seq<Entry>, commit: nat)
  {
    Three(c) && v in c.nodes && Looks(c.nodes[v].node, v, term, role, log, commit) &&
    c.nodes[v].queue == [] && c.nodes[v].app == [] && c.nodes[v].node.cache == NO_SNAP
  }

  lemma CanMove(c: Cluster)
    requires Three(c) && Wf(c.nodes[1].node.log) && Wf(c.nodes[2].node.log) && Wf(c.nodes[3].node.log)
    ensures WfCluster(c)
  {
  }

  lemma OnlyActor(c: Cluster, a: Action)
    requires WfCluster(c) && Enabled(c, a)
    ensures var d := Next(c, Do(a)); var f := EffectOf(c, a);
      d.servers == c.servers && d.nodes == c.nodes[Actor(a) := f.replica] && d.sent == c.sent + f.rpcs &&
      d.replies == c.replies + f.replies && (!a.Receive? ==> d.open == c.open + VoteRpcs(f.rpcs))
  {
    hide EffectOf;
  }

  ghost function Beginning(): Cluster
  {
    Cluster({1, 2, 3}, map v: Id | v in {1, 2, 3} :: Replica(Boot(v, Peers(v), 0, EMPTY_DISK), [], []), {}, {}, {})
  }

  lemma Starts()
    ensures var c := Beginning();
      Init(c) && Is(c, 1, 0, Follower, [ORIGIN], 0) && Is(c, 2, 0, Follower, [ORIGIN], 0) &&
      Is(c, 3, 0, Follower, [ORIGIN], 0) &&
      c.nodes[2].node.vote == NO_VOTE && c.nodes[3].node.vote == NO_VOTE
  {
    assert Recover(EMPTY_DISK) == Persisted(0, NO_VOTE, [], NO_SNAP);
  }

  // Each stage names the acting server's state before and after.

  lemma Stands(r: Replica, v: Id, term: nat)
    requires v in {1, 2} && Looks(r.node, v, term, Follower, [ORIGIN], 0)
    ensures var f := CampaignEffect(r);
      Looks(f.replica.node, v, term + 1, Candidate, [ORIGIN], 0) && f.replica.node.votes == 1 &&
      f.replica.node.cache == r.node.cache &&
      f.replica.queue == r.queue && f.replica.app == r.app &&
      Rpc(v, v + 1, AskVote(VoteRequest(term + 1, v, 0, 0, false))) in f.rpcs
  {
    hide Done, Points;
    assert v + 1 in r.node.peers;
  }

  lemma Grants(r: Replica, rpc: Rpc, v: Id, term: nat)
    requires v in {2, 3} && Looks(r.node, v, 0, Follower, [ORIGIN], 0) && r.node.vote == NO_VOTE && term > 0
    requires rpc.req == AskVote(VoteRequest(term, v - 1, 0, 0, false))
    ensures var f := ServeEffect(r, rpc, false);
      Looks(f.replica.node, v, term, Follower, [ORIGIN], 0) && f.replica.node.cache == r.node.cache &&
      f.replica.queue == r.queue && f.replica.app == r.app && f.rpcs == {} &&
      Reply(rpc, Voted(VoteResponse(term, true))) in f.replies
  {
    hide Done, Points;
  }

  lemma Elected(r: Replica, y: Reply, v: Id, term: nat)
    requires v in {1, 2} && Looks(r.node, v, term, Candidate, [ORIGIN], 0) && r.node.votes == 1
    requires y.rpc.req.AskVote? && y.rpc.req.vote.term == term && y.resp == Voted(VoteResponse(term, true))
    ensures var f := ReceiveEffect(r, y);
      Looks(f.replica.node, v, term, Leader, [ORIGIN], 0) && f.replica.node.cache == r.node.cache &&
      f.replica.queue == r.queue && f.replica.app == r.app &&
      f.replica.node.next == Cursors(Peers(v), 1) && f.replica.node.matched == Cursors(Peers(v), 0)
  {
    hide Cursors;
  }

  lemma OffersTwo(r: Replica, x: seq<Byte>)
    requires Looks(r.node, 1, 1, Leader, [ORIGIN], 0)
    ensures Looks(Propose(r.node, [x, x]).node, 1, 1, Leader, [ORIGIN, X1(x), X2(x)], 0)
    ensures Propose(r.node, [x, x]).node.cache == r.node.cache
  {
    hide Done, Points;
    assert Numbered([x, x], 1, 0) == [X1(x), X2(x)];
  }

  lemma OffersOne(r: Replica, y: seq<Byte>)
    requires Looks(r.node, 2, 2, Leader, [ORIGIN], 0)
    ensures var n := Propose(r.node, [y]).node;
      Looks(n, 2, 2, Leader, [ORIGIN, Y1(y)], 0) && n.next == r.node.next && n.matched == r.node.matched &&
      n.cache == r.node.cache
  {
    hide Done, Points;
    assert Numbered([y], 2, 0) == [Y1(y)];
  }

  lemma Takes(r: Replica, y: seq<Byte>)
    requires Looks(r.node, 3, 2, Follower, [ORIGIN], 0)
    ensures HandleAppend(r.node, Append2(y).req.append).resp == Ack2(y).resp.append
    ensures HandleAppend(r.node, Append2(y).req.append).node.log == [ORIGIN, Y1(y)]
  {
    hide Done, Points;
    assert FirstNew([ORIGIN], [Y1(y)]) == 0;
  }

  lemma Acknowledged(n: Node, y: seq<Byte>)
    requires Looks(n, 2, 2, Leader, [ORIGIN, Y1(y)], 0)
    requires n.next == Cursors([1, 3], 1) && n.matched == Cursors([1, 3], 0)
    ensures var m := OnAppend(n, 3, Append2(y).req.append, Ack2(y).resp.append).node;
      Looks(m, 2, 2, Leader, [ORIGIN, Y1(y)], 1) && Get(m.next, 1) == 1 && m.cache == n.cache
  {
    hide Backed, BecomeFollower;
    var m := n.(matched := Raised(n.matched, 3, 1), next := Raised(n.next, 3, 2));
    assert Acked(m, 1) == {3};
    assert CommitScan(m, 1) == 1;
  }

  lemma Compacts(r: Replica, y: seq<Byte>, raw: seq<Byte>)
    requires Looks(r.node.(applied := 0), 2, 2, Leader, [ORIGIN, Y1(y)], 1) && r.node.applied == 1 && r.app == [Y1(y)]
    ensures var n := TakeSnapshot(r.node, 1, [Y1(y)], raw).node;
      n.log == [Entry(1, 2, [])] && n.cache == Image(y, raw) && n.term == 2 && n.role == Leader && n.id == 2 &&
      n.peers == [1, 3] && n.next == r.node.next
  {
    hide Done, Points;
  }

  lemma Installs(r: Replica, x: seq<Byte>, y: seq<Byte>, raw: seq<Byte>)
    requires Looks(r.node, 1, 1, Leader, [ORIGIN, X1(x), X2(x)], 0)
    ensures HandleSnapshot(r.node, Install2(y, raw).req.install).node.log == [Entry(1, 2, []), X2(x)]
  {
    hide Done, Points;
  }

  // The sixteen steps.

  lemma Step1(c: Cluster) returns (d: Cluster)
    requires Is(c, 1, 0, Follower, [ORIGIN], 0) && Is(c, 2, 0, Follower, [ORIGIN], 0) &&
      Is(c, 3, 0, Follower, [ORIGIN], 0)
    ensures WfCluster(c) && Enabled(c, Campaign(1)) && d == Next(c, Do(Campaign(1)))
    ensures Is(d, 1, 1, Candidate, [ORIGIN], 0) && d.nodes[1].node.votes == 1 && d.nodes[2] == c.nodes[2] &&
      d.nodes[3] == c.nodes[3]
    ensures ASK_1 in d.sent && ASK_1 in d.open
  {
    hide CampaignEffect, Next;
    CanMove(c);
    Stands(c.nodes[1], 1, 0);
    OnlyActor(c, Campaign(1));
    d := Next(c, Do(Campaign(1)));
  }

  lemma Step2(c: Cluster) returns (d: Cluster)
    requires Is(c, 1, 1, Candidate, [ORIGIN], 0) && Is(c, 2, 0, Follower, [ORIGIN], 0) &&
      Is(c, 3, 0, Follower, [ORIGIN], 0)
    requires c.nodes[2].node.vote == NO_VOTE && ASK_1 in c.sent && ASK_1 in c.open
    ensures WfCluster(c) && Enabled(c, Serve(ASK_1, false)) && d == Next(c, Do(Serve(ASK_1, false)))
    ensures Is(d, 2, 1, Follower, [ORIGIN], 0) && d.nodes[1] == c.nodes[1] && d.nodes[3] == c.nodes[3]
    ensures VOTE_1 in d.replies && ASK_1 in d.open
  {
    hide ServeEffect, Next;
    CanMove(c);
    Grants(c.nodes[2], ASK_1, 2, 1);
    OnlyActor(c, Serve(ASK_1, false));
    d := Next(c, Do(Serve(ASK_1, false)));
  }

  lemma Step3(c: Cluster) returns (d: Cluster)
    requires Is(c, 1, 1, Candidate, [ORIGIN], 0) && Is(c, 2, 1, Follower, [ORIGIN], 0) &&
      Is(c, 3, 0, Follower, [ORIGIN], 0)
    requires c.nodes[1].node.votes == 1 && VOTE_1 in c.replies && ASK_1 in c.open
    ensures WfCluster(c) && Enabled(c, Receive(VOTE_1)) && d == Next(c, Do(Receive(VOTE_1)))
    ensures Is(d, 1, 1, Leader, [ORIGIN], 0) && d.nodes[2] == c.nodes[2] && d.nodes[3] == c.nodes[3]
  {
    hide ReceiveEffect, Next;
    CanMove(c);
    Elected(c.nodes[1], VOTE_1, 1, 1);
    OnlyActor(c, Receive(VOTE_1));
    d := Next(c, Do(Receive(VOTE_1)));
  }

  lemma Step4(c: Cluster, x: seq<Byte>) returns (d: Cluster)
    requires Is(c, 1, 1, Leader, [ORIGIN], 0) && Is(c, 2, 1, Follower, [ORIGIN], 0) &&
      Is(c, 3, 0, Follower, [ORIGIN], 0)
    ensures WfCluster(c) && Enabled(c, Offer(1, [x, x])) && d == Next(c, Do(Offer(1, [x, x])))
    ensures Is(d, 1, 1, Leader, [ORIGIN, X1(x), X2(x)], 0) && d.nodes[2] == c.nodes[2] && d.nodes[3] == c.nodes[3]
  {
    hide Propose, Next;
    CanMove(c);
    OffersTwo(c.nodes[1], x);
    OnlyActor(c, Offer(1, [x, x]));
    d := Next(c, Do(Offer(1, [x, x])));
  }

  lemma Step5(c: Cluster, x: seq<Byte>) returns (d: Cluster)
    requires Is(c, 1, 1, Leader, [ORIGIN, X1(x), X2(x)], 0) && Is(c, 2, 1, Follower, [ORIGIN], 0) &&
      Is(c, 3, 0, Follower, [ORIGIN], 0)
    ensures WfCluster(c) && Enabled(c, Campaign(2)) && d == Next(c, Do(Campaign(2)))
    ensures Is(d, 2, 2, Candidate, [ORIGIN], 0) && d.nodes[2].node.votes == 1 && d.nodes[1] == c.nodes[1] &&
      d.nodes[3] == c.nodes[3]
    ensures ASK_2 in d.sent && ASK_2 in d.open
  {
    hide CampaignEffect, Next;
    CanMove(c);
    Stands(c.nodes[2], 2, 1);
    OnlyActor(c, Campaign(2));
    d := Next(c, Do(Campaign(2)));
  }

  lemma Step6(c: Cluster, x: seq<Byte>) returns (d: Cluster)
    requires Is(c, 1, 1, Leader, [ORIGIN, X1(x), X2(x)], 0) && Is(c, 2, 2, Candidate, [ORIGIN], 0) &&
      Is(c, 3, 0, Follower, [ORIGIN], 0)
    requires c.nodes[3].node.vote == NO_VOTE && ASK_2 in c.sent && ASK_2 in c.open
    ensures WfCluster(c) && Enabled(c, Serve(ASK_2, false)) && d == Next(c, Do(Serve(ASK_2, false)))
    ensures Is(d, 3, 2, Follower, [ORIGIN], 0) && d.nodes[1] == c.nodes[1] && d.nodes[2] == c.nodes[2]
    ensures VOTE_2 in d.replies && ASK_2 in d.open
  {
    hide ServeEffect, Next;
    CanMove(c);
    Grants(c.nodes[3], ASK_2, 3, 2);
    OnlyActor(c, Serve(ASK_2, false));
    d := Next(c, Do(Serve(ASK_2, false)));
  }

  lemma Step7(c: Cluster, x: seq<Byte>) returns (d: Cluster)
    requires Is(c, 1, 1, Leader, [ORIGIN, X1(x), X2(x)], 0) && Is(c, 2, 2, Candidate, [ORIGIN], 0) &&
      Is(c, 3, 2, Follower, [ORIGIN], 0)
    requires c.nodes[2].node.votes == 1 && VOTE_2 in c.replies && ASK_2 in c.open
    ensures WfCluster(c) && Enabled(c, Receive(VOTE_2)) && d == Next(c, Do(Receive(VOTE_2)))
    ensures Is(d, 2, 2, Leader, [ORIGIN], 0) && d.nodes[1] == c.nodes[1] && d.nodes[3] == c.nodes[3]
    ensures d.nodes[2].node.next == Cursors([1, 3], 1) && d.nodes[2].node.matched == Cursors([1, 3], 0)
  {
    hide ReceiveEffect, Next, Cursors;
    CanMove(c);
    Elected(c.nodes[2], VOTE_2, 2, 2);
    OnlyActor(c, Receive(VOTE_2));
    d := Next(c, Do(Receive(VOTE_2)));
  }

  lemma Step8(c: Cluster, x: seq<Byte>, y: seq<Byte>) returns (d: Cluster)
    requires Is(c, 1, 1, Leader, [ORIGIN, X1(x), X2(x)], 0) && Is(c, 2, 2, Leader, [ORIGIN], 0) &&
      Is(c, 3, 2, Follower, [ORIGIN], 0)
    ensures WfCluster(c) && Enabled(c, Offer(2, [y])) && d == Next(c, Do(Offer(2, [y])))
    ensures Is(d, 2, 2, Leader, [ORIGIN, Y1(y)], 0) && d.nodes[1] == c.nodes[1] && d.nodes[3] == c.nodes[3]
    ensures d.nodes[2].node.next == c.nodes[2].node.next && d.nodes[2].node.matched == c.nodes[2].node.matched
  {
    hide Propose, Next;
    CanMove(c);
    OffersOne(c.nodes[2], y);
    OnlyActor(c, Offer(2, [y]));
    d := Next(c, Do(Offer(2, [y])));
  }

  lemma Step9(c: Cluster, x: seq<Byte>, y: seq<Byte>) returns (d: Cluster)
    requires Is(c, 1, 1, Leader, [ORIGIN, X1(x), X2(x)], 0) && Is(c, 2, 2, Leader, [ORIGIN, Y1(y)], 0) &&
      Is(c, 3, 2, Follower, [ORIGIN], 0)
    requires c.nodes[2].node.next == Cursors([1, 3], 1)
    ensures WfCluster(c) && Enabled(c, SendAppend(2, 3, false)) && d == Next(c, Do(SendAppend(2, 3, false)))
    ensures d.nodes == c.nodes && d.servers == c.servers && Append2(y) in d.sent
  {
    hide Next;
    CanMove(c);
    assert 3 in c.nodes[2].node.peers;
    assert BuildAppend(c.nodes[2].node, 3, false) == Append2(y).req.append;
    OnlyActor(c, SendAppend(2, 3, false));
    d := Next(c, Do(SendAppend(2, 3, false)));
  }

  lemma Step10(c: Cluster, x: seq<Byte>, y: seq<Byte>) returns (d: Cluster)
    requires Is(c, 1, 1, Leader, [ORIGIN, X1(x), X2(x)], 0) && Is(c, 2, 2, Leader, [ORIGIN, Y1(y)], 0) &&
      Is(c, 3, 2, Follower, [ORIGIN], 0)
    requires Append2(y) in c.sent
    ensures WfCluster(c) && Enabled(c, Serve(Append2(y), false)) && d == Next(c, Do(Serve(Append2(y), false)))
    ensures Three(d) && d.nodes[3].node.log == [ORIGIN, Y1(y)] && d.nodes[1] == c.nodes[1] &&
      d.nodes[2] == c.nodes[2] && Ack2(y) in d.replies
  {
    hide HandleAppend, Next;
    CanMove(c);
    Takes(c.nodes[3], y);
    OnlyActor(c, Serve(Append2(y), false));
    d := Next(c, Do(Serve(Append2(y), false)));
  }

  lemma Step11(c: Cluster, x: seq<Byte>, y: seq<Byte>) returns (d: Cluster)
    requires Is(c, 1, 1, Leader, [ORIGIN, X1(x), X2(x)], 0) && Is(c, 2, 2, Leader, [ORIGIN, Y1(y)], 0) &&
      c.nodes[3].node.log == [ORIGIN, Y1(y)]
    requires c.nodes[2].node.next == Cursors([1, 3], 1) && c.nodes[2].node.matched == Cursors([1, 3], 0) &&
      Ack2(y) in c.replies
    ensures WfCluster(c) && Enabled(c, Receive(Ack2(y))) && d == Next(c, Do(Receive(Ack2(y))))
    ensures Is(d, 2, 2, Leader, [ORIGIN, Y1(y)], 1) && d.nodes[1] == c.nodes[1] && d.nodes[3] == c.nodes[3]
    ensures Get(d.nodes[2].node.next, 1) == 1
  {
    hide OnAppend, Next, Cursors, Get;
    CanMove(c);
    Acknowledged(c.nodes[2].node, y);
    OnlyActor(c, Receive(Ack2(y)));
    d := Next(c, Do(Receive(Ack2(y))));
  }

  lemma Step12(c: Cluster, x: seq<Byte>, y: seq<Byte>) returns (d: Cluster)
    requires Is(c, 1, 1, Leader, [ORIGIN, X1(x), X2(x)], 0) && Is(c, 2, 2, Leader, [ORIGIN, Y1(y)], 1) &&
      Wf(c.nodes[3].node.log)
    ensures WfCluster(c) && Enabled(c, Collect(2)) && d == Next(c, Do(Collect(2)))
    ensures WfCluster(d) && Three(d) && d.nodes[1] == c.nodes[1] && d.nodes[3] == c.nodes[3]
    ensures d.nodes[2] == Replica(c.nodes[2].node.(applied := 1), [Command(Y1(y))], [])
  {
    hide Next;
    CanMove(c);
    assert Batch(c.nodes[2].node) == [Y1(y)];
    assert Commands([Y1(y)]) == [Command(Y1(y))];
    OnlyActor(c, Collect(2));
    d := Next(c, Do(Collect(2)));
    CanMove(d);
  }

  lemma Step13(c: Cluster, n: Node, y: seq<Byte>) returns (d: Cluster)
    requires Three(c) && WfCluster(c) && c.nodes[2] == Replica(n, [Command(Y1(y))], [])
    ensures Enabled(c, Consume(2)) && d == Next(c, Do(Consume(2)))
    ensures WfCluster(d) && Three(d) && d.nodes[1] == c.nodes[1] && d.nodes[3] == c.nodes[3]
    ensures d.nodes[2] == Replica(n, [], [Y1(y)])
  {
    hide Next;
    OnlyActor(c, Consume(2));
    d := Next(c, Do(Consume(2)));
    CanMove(d);
  }

  lemma Step14(c: Cluster, y: seq<Byte>, raw: seq<Byte>) returns (d: Cluster)
    requires Three(c) && WfCluster(c) && c.nodes[2].app == [Y1(y)] && c.nodes[2].node.applied == 1
    requires Looks(c.nodes[2].node.(applied := 0), 2, 2, Leader, [ORIGIN, Y1(y)], 1)
    ensures Enabled(c, Compact(2, raw)) && d == Next(c, Do(Compact(2, raw)))
    ensures Three(d) && d.nodes[1] == c.nodes[1] && d.nodes[3] == c.nodes[3]
    ensures var n := d.nodes[2].node;
      n.log == [Entry(1, 2, [])] && n.cache == Image(y, raw) && n.term == 2 && n.role == Leader && n.id == 2 &&
      n.peers == [1, 3] &&
      n.next == c.nodes[2].node.next
  {
    hide Next, TakeSnapshot;
    Compacts(c.nodes[2], y, raw);
    OnlyActor(c, Compact(2, raw));
    d := Next(c, Do(Compact(2, raw)));
  }

  lemma Step15(c: Cluster, x: seq<Byte>, y: seq<Byte>, raw: seq<Byte>) returns (d: Cluster)
    requires Is(c, 1, 1, Leader, [ORIGIN, X1(x), X2(x)], 0) && Wf(c.nodes[3].node.log)
    requires var n := c.nodes[2].node;
      n.log == [Entry(1, 2, [])] && n.cache == Image(y, raw) && n.term == 2 && n.role == Leader && n.id == 2 &&
      n.peers == [1, 3] &&
      Get(n.next, 1) == 1
    ensures WfCluster(c) && Enabled(c, SendSnapshot(2, 1)) && d == Next(c, Do(SendSnapshot(2, 1)))
    ensures Is(d, 1, 1, Leader, [ORIGIN, X1(x), X2(x)], 0) && WfCluster(d) && Install2(y, raw) in d.sent
  {
    hide Next, Get;
    CanMove(c);
    assert 1 in c.nodes[2].node.peers;
    OnlyActor(c, SendSnapshot(2, 1));
    d := Next(c, Do(SendSnapshot(2, 1)));
  }

  lemma Step16(c: Cluster, x: seq<Byte>, y: seq<Byte>, raw: seq<Byte>) returns (d: Cluster)
    requires Is(c, 1, 1, Leader, [ORIGIN, X1(x), X2(x)], 0) && WfCluster(c) && Install2(y, raw) in c.sent
    ensures Enabled(c, Serve(Install2(y, raw), false)) && d == Next(c, Do(Serve(Install2(y, raw), false)))
    ensures Three(d) && d.nodes[1].node.log == [Entry(1, 2, []), X2(x)]
  {
    hide Next, HandleSnapshot;
    Installs(c.nodes[1], x, y, raw);
    OnlyActor(c, Serve(Install2(y, raw), false));
    d := Next(c, Do(Serve(Install2(y, raw), false)));
  }

  /** Server 1 takes the two proposals in state 3. */
  ghost predicate Proposed(run: seq<Cluster>, x: seq<Byte>)
  {
    |run| > 4 && Is(run[3], 1, 1, Leader, [ORIGIN], 0) && Moves(run[3], Do(Offer(1, [x, x])), run[4])
  }

  /** Server 1 stands and gets a vote. */
  lemma FirstVote() returns (run: seq<Cluster>)
    ensures |run| == 3 && IsRun(run)
    ensures var c := run[2];
      Is(c, 1, 1, Candidate, [ORIGIN], 0) && Is(c, 2, 1, Follower, [ORIGIN], 0) && Is(c, 3, 0, Follower, [ORIGIN], 0) &&
      c.nodes[1].node.votes == 1 && c.nodes[3].node.vote == NO_VOTE && VOTE_1 in c.replies && ASK_1 in c.open
  {
    hide Next, IsRun, Enabled, Init, Looks;
    Starts();
    var c0 := Beginning();
    RunBegins(c0);
    var c1 := Step1(c0);
    run := RunDoes([c0], Campaign(1));
    var c2 := Step2(c1);
    run := RunDoes(run, Serve(ASK_1, false));
  }

  /** Server 1 leads term 1 with two entries nobody else has. */
  lemma FirstElection(x: seq<Byte>) returns (run: seq<Cluster>)
    ensures |run| == 5 && IsRun(run) && Proposed(run, x)
    ensures var c := run[4];
      Is(c, 1, 1, Leader, [ORIGIN, X1(x), X2(x)], 0) && Is(c, 2, 1, Follower, [ORIGIN], 0) &&
      Is(c, 3, 0, Follower, [ORIGIN], 0) &&
      c.nodes[3].node.vote == NO_VOTE
  {
    hide Next, IsRun, Enabled, Init, Looks;
    run := FirstVote();
    var c3 := Step3(run[2]);
    run := RunDoes(run, Receive(VOTE_1));
    var c4 := Step4(c3, x);
    run := RunDoes(run, Offer(1, [x, x]));
    assert Moves(run[3], Do(Offer(1, [x, x])), run[4]);
  }

  /** Server 2 leads term 2 with an empty log. */
  lemma SecondElection(x: seq<Byte>) returns (run: seq<Cluster>)
    ensures |run| == 8 && IsRun(run) && Proposed(run, x)
    ensures var c := run[7];
      Is(c, 1, 1, Leader, [ORIGIN, X1(x), X2(x)], 0) && Is(c, 2, 2, Leader, [ORIGIN], 0) &&
      Is(c, 3, 2, Follower, [ORIGIN], 0) &&
      c.nodes[2].node.next == Cursors([1, 3], 1) && c.nodes[2].node.matched == Cursors([1, 3], 0)
  {
    hide Next, Moves, IsRun, Enabled, Init, Cursors;
    run := FirstElection(x);
    var c5 := Step5(run[4], x);
    run := RunDoes(run, Campaign(2));
    var c6 := Step6(c5, x);
    run := RunDoes(run, Serve(ASK_2, false));
    var c7 := Step7(c6, x);
    run := RunDoes(run, Receive(VOTE_2));
  }

  /** Server 2 commits another entry at index 1. */
  lemma SecondReign(x: seq<Byte>, y: seq<Byte>) returns (run: seq<Cluster>)
    ensures |run| == 12 && IsRun(run) && Proposed(run, x)
    ensures var c := run[11];
      Is(c, 1, 1, Leader, [ORIGIN, X1(x), X2(x)], 0) && Is(c, 2, 2, Leader, [ORIGIN, Y1(y)], 1) &&
      Wf(c.nodes[3].node.log) && Get(c.nodes[2].node.next, 1) == 1
  {
    hide Next, Moves, IsRun, Enabled, Init, Cursors, Get, Looks;
    run := SecondElection(x);
    var c8 := Step8(run[7], x, y);
    run := RunDoes(run, Offer(2, [y]));
    var c9 := Step9(c8, x, y);
    run := RunDoes(run, SendAppend(2, 3, false));
    var c10 := Step10(c9, x, y);
    run := RunDoes(run, Serve(Append2(y), false));
    var c11 := Step11(c10, x, y);
    run := RunDoes(run, Receive(Ack2(y)));
  }

  /** It compacts that entry away and ships the snapshot. */
  lemma Shipping(x: seq<Byte>, y: seq<Byte>, raw: seq<Byte>) returns (run: seq<Cluster>)
    ensures |run| == 16 && IsRun(run) && Is(run[15], 1, 1, Leader, [ORIGIN, X1(x), X2(x)], 0) && WfCluster(run[15])
    ensures Install2(y, raw) in run[15].sent
  {
    hide Next, Moves, IsRun, Enabled, Init, Get, WfCluster;
    run := SecondReign(x, y);
    var c12 := Step12(run[11], x, y);
    run := RunDoes(run, Collect(2));
    var c13 := Step13(c12, c12.nodes[2].node, y);
    run := RunDoes(run, Consume(2));
    var c14 := Step14(c13, y, raw);
    run := RunDoes(run, Compact(2, raw));
    var c15 := Step15(c14, x, y, raw);
    run := RunDoes(run, SendSnapshot(2, 1));
  }

  /** Server 1 keeps its own second entry above a sentinel that contradicts its first: taking
      the sentinel for an entry, Log Matching fails between states 15 and 16. */
  lemma SuffixKeptAcross(x: seq<Byte>, y: seq<Byte>, raw: seq<Byte>) returns (run: seq<Cluster>)
    ensures IsRun(run) && At(run, 15, 1) && At(run, 16, 1) && KeptAcross(NodeAt(run, 15, 1), NodeAt(run, 16, 1), 1)
  {
    hide Next, IsRun, Enabled;
    run := Shipping(x, y, raw);
    var c16 := Step16(run[15], x, y, raw);
    run := RunDoes(run, Serve(Install2(y, raw), false));
  }

  // ---------------------------------------------------------------------------
  // A run in which a proposer is handed another command
  // ---------------------------------------------------------------------------

  function Overwrite(y: seq<Byte>): Rpc { Rpc(2, 1, AskAppend(AppendRequest(2, 2, 0, 0, [Y1(y)], 1))) }

  lemma Overwritten(r: Replica, x: seq<Byte>, y: seq<Byte>)
    requires Looks(r.node, 1, 1, Leader, [ORIGIN, X1(x), X2(x)], 0)
    ensures Looks(HandleAppend(r.node, Overwrite(y).req.append).node, 1, 2, Follower, [ORIGIN, Y1(y)], 1)
  {
    hide Done, Points;
    assert FirstNew([ORIGIN, X1(x), X2(x)], [Y1(y)]) == 0;
  }

  lemma SendsToFirst(c: Cluster, x: seq<Byte>, y: seq<Byte>) returns (d: Cluster)
    requires Is(c, 1, 1, Leader, [ORIGIN, X1(x), X2(x)], 0) && Is(c, 2, 2, Leader, [ORIGIN, Y1(y)], 1) &&
      Wf(c.nodes[3].node.log) && Get(c.nodes[2].node.next, 1) == 1
    ensures WfCluster(c) && Enabled(c, SendAppend(2, 1, false)) && d == Next(c, Do(SendAppend(2, 1, false)))
    ensures d.nodes == c.nodes && d.servers == c.servers && WfCluster(d) && Overwrite(y) in d.sent
  {
    hide Next, Get;
    CanMove(c);
    assert 1 in c.nodes[2].node.peers;
    assert BuildAppend(c.nodes[2].node, 1, false) == Overwrite(y).req.append;
    OnlyActor(c, SendAppend(2, 1, false));
    d := Next(c, Do(SendAppend(2, 1, false)));
  }

  lemma FirstGivesWay(c: Cluster, x: seq<Byte>, y: seq<Byte>) returns (d: Cluster)
    requires Is(c, 1, 1, Leader, [ORIGIN, X1(x), X2(x)], 0) && WfCluster(c) && Overwrite(y) in c.sent
    ensures Enabled(c, Serve(Overwrite(y), false)) && d == Next(c, Do(Serve(Overwrite(y), false)))
    ensures Three(d) && Looks(d.nodes[1].node, 1, 2, Follower, [ORIGIN, Y1(y)], 1) && WfCluster(d)
    ensures d.nodes[1].queue == [] && d.nodes[1].app == []
  {
    hide Next, HandleAppend;
    Overwritten(c.nodes[1], x, y);
    OnlyActor(c, Serve(Overwrite(y), false));
    d := Next(c, Do(Serve(Overwrite(y), false)));
    CanMove(d);
  }

  lemma FirstCollects(c: Cluster, y: seq<Byte>) returns (d: Cluster)
    requires Three(c) && Looks(c.nodes[1].node, 1, 2, Follower, [ORIGIN, Y1(y)], 1) && WfCluster(c)
    requires c.nodes[1].queue == [] && c.nodes[1].app == []
    ensures Enabled(c, Collect(1)) && d == Next(c, Do(Collect(1)))
    ensures Three(d) && d.nodes[1].queue == [Command(Y1(y))] && d.nodes[1].app == []
  {
    hide Next;
    assert Batch(c.nodes[1].node) == [Y1(y)];
    assert Commands([Y1(y)]) == [Command(Y1(y))];
    OnlyActor(c, Collect(1));
    d := Next(c, Do(Collect(1)));
  }

  /** The index of a proposal does not tell whether it was the one delivered, for any two
      payloads: server 1 leads, takes `x` and is given index 1, later yields to server 2, and
      the command it is then handed at index 1 is `y`. */
  lemma IndexDoesNotTell(x: seq<Byte>, y: seq<Byte>) returns (run: seq<Cluster>)
    ensures |run| == 15 && IsRun(run) && At(run, 3, 1) && NodeAt(run, 3, 1).role == Leader
    ensures Moves(run[3], Do(Offer(1, [x, x])), run[4]) && Last(NodeAt(run, 3, 1).log) + 1 == 1
    ensures 1 in run[14].nodes && run[14].nodes[1].app == []
    ensures run[14].nodes[1].queue == [Command(Entry(1, NodeAt(run, 3, 1).term + 1, y))]
  {
    hide Next, Moves, IsRun, Enabled, Init, Get, WfCluster;
    run := SecondReign(x, y);
    var c12 := SendsToFirst(run[11], x, y);
    run := RunDoes(run, SendAppend(2, 1, false));
    var c13 := FirstGivesWay(c12, x, y);
    run := RunDoes(run, Serve(Overwrite(y), false));
    var c14 := FirstCollects(c13, y);
    run := RunDoes(run, Collect(1));
  }

  /** So a client can be answered for another client's command, whichever two they are: the
      bytes server 1 is handed for the index of command `c` decode to `d`. */
  lemma AnsweredForAnother(c: KvCommand.Command, d: KvCommand.Command) returns (run: seq<Cluster>)
    requires KvCommand.Sendable(c) && KvCommand.Sendable(d) && c != d
    ensures |run| == 15 && IsRun(run) && At(run, 3, 1) && NodeAt(run, 3, 1).role == Leader
    ensures var x := KvCommand.Encode(c);
      Moves(run[3], Do(Offer(1, [x, x])), run[4]) && Last(NodeAt(run, 3, 1).log) + 1 == 1
    ensures 1 in run[14].nodes && run[14].nodes[1].app == [] && |run[14].nodes[1].queue| == 1
    ensures var m := run[14].nodes[1].queue[0];
      m.Command? && m.entry.index == 1 && m.entry.data != KvCommand.Encode(c) &&
      KvCommand.Decode(m.entry.data) == Some(d)
  {
    hide Moves, IsRun, KvCommand.Encode, KvCommand.Decode;
    run := IndexDoesNotTell(KvCommand.Encode(c), KvCommand.Encode(d));
    KvCommand.DecodeEncode(c);
    KvCommand.DecodeEncode(d);
  }
}
