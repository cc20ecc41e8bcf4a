/**
  Why the read barrier needs a condition on the leader's log. A run of two servers: the first
  leader commits an entry, the second server takes over and confirms its leadership, but its
  commit index has not caught up with that entry. The server does not check for this. Without
  the last acknowledgement the second server ends up in the same state, and the read is safe.
*/
module RaftStaleRead {
  import opened RaftTypes
  import opened RaftLog
  import opened Persist
  import opened NodeSpec
  import opened ClusterSpec
  import opened RaftSafety
  import opened RaftReads

  const SENTINEL := Entry(0, 0, [])
  const ENTRY := Entry(1, 1, [])
  const ASK_1 := Rpc(1, 2, AskVote(VoteRequest(1, 1, 0, 0, false)))
  const VOTE_1 := Reply(ASK_1, Voted(VoteResponse(1, true)))
  const APPEND_1 := Rpc(1, 2, AskAppend(AppendRequest(1, 1, 0, 0, [ENTRY], 0)))
  const ACK_1 := Reply(APPEND_1, Appended(AppendResponse(1, true, 0, 0)))
  const ASK_2 := Rpc(2, 1, AskVote(VoteRequest(2, 2, 1, 1, false)))
  const VOTE_2 := Reply(ASK_2, Voted(VoteResponse(2, true)))
  const BEAT_2 := Rpc(2, 1, AskAppend(AppendRequest(2, 2, 1, 1, [], 0)))

  ghost predicate Two(c: Cluster)
  {
    c.servers == {1, 2} && c.nodes.Keys == {1, 2} && c.nodes[1].app == c.nodes[2].app == []
  }

  ghost function One(c: Cluster): Node
    requires Two(c)
  {
    c.nodes[1].node
  }

  ghost function Other(c: Cluster): Node
    requires Two(c)
  {
    c.nodes[2].node
  }

  ghost predicate Looks(n: Node, id: Id, term: nat, role: Role, log: seq<Entry>, commit: nat)
  {
    n.id == id && n.peers == [3 - id] && n.term == term && n.role == role && n.log == log && n.commit == commit &&
    n.applied == 0 && n.pending == None
  }

  lemma CanMove(c: Cluster)
    requires Two(c) && Wf(One(c).log) && Wf(Other(c).log)
    ensures WfCluster(c)
  {
  }

  ghost function Beginning(): Cluster
  {
    var a, b := Boot(1, [2], 0, EMPTY_DISK), Boot(2, [1], 0, EMPTY_DISK);
    Cluster({1, 2}, map[1 := Replica(a, [], []), 2 := Replica(b, [], [])], {}, {}, {})
  }

  lemma Starts()
    ensures var c := Beginning();
      Init(c) && Two(c) && Looks(One(c), 1, 0, Follower, [SENTINEL], 0) &&
      Looks(Other(c), 2, 0, Follower, [SENTINEL], 0) &&
      Other(c).vote == NO_VOTE
  {
    assert Recover(EMPTY_DISK) == Persisted(0, NO_VOTE, [], NO_SNAP);
  }

  lemma Campaigns(c: Cluster)
    requires Two(c) && Looks(One(c), 1, 0, Follower, [SENTINEL], 0) && Looks(Other(c), 2, 0, Follower, [SENTINEL], 0)
    requires Other(c).vote == NO_VOTE
    ensures WfCluster(c) && Enabled(c, Campaign(1))
    ensures var d := Next(c, Do(Campaign(1)));
      Two(d) && Looks(One(d), 1, 1, Candidate, [SENTINEL], 0) && One(d).votes == 1 && Other(d) == Other(c) &&
      ASK_1 in d.sent && ASK_1 in d.open
  {
    hide Done, Points;
    CanMove(c);
  }

  lemma Votes(c: Cluster)
    requires Two(c) && Looks(One(c), 1, 1, Candidate, [SENTINEL], 0) && Looks(Other(c), 2, 0, Follower, [SENTINEL], 0)
    requires One(c).votes == 1 && Other(c).vote == NO_VOTE && ASK_1 in c.sent && ASK_1 in c.open
    ensures WfCluster(c) && Enabled(c, Serve(ASK_1, false))
    ensures var d := Next(c, Do(Serve(ASK_1, false)));
      Two(d) && One(d) == One(c) && Looks(Other(d), 2, 1, Follower, [SENTINEL], 0) && VOTE_1 in d.replies &&
      ASK_1 in d.open
  {
    hide Done, Points;
    CanMove(c);
  }

  lemma SecondVote(n: Node, id: Id, term: nat, log: seq<Entry>, commit: nat)
    requires id in {1, 2} && Looks(n, id, term, Candidate, log, commit) && n.votes == 1 && |log| > 0
    ensures var m := OnVote(n, term, VoteResponse(term, true)).node;
      Looks(m, id, term, Leader, log, commit) && m.next == map[3 - id := Last(log) + 1] && m.matched == map[3 - id := 0]
  {
  }

  lemma Wins(c: Cluster)
    requires Two(c) && Looks(One(c), 1, 1, Candidate, [SENTINEL], 0) && One(c).votes == 1 && Wf(Other(c).log)
    requires VOTE_1 in c.replies && ASK_1 in c.open
    ensures WfCluster(c) && Enabled(c, Receive(VOTE_1))
    ensures var d := Next(c, Do(Receive(VOTE_1)));
      Two(d) && Looks(One(d), 1, 1, Leader, [SENTINEL], 0) && One(d).next == map[2 := 1] &&
      One(d).matched == map[2 := 0] &&
      Other(d) == Other(c)
  {
    hide OnVote;
    CanMove(c);
    SecondVote(One(c), 1, 1, [SENTINEL], 0);
  }

  lemma Offers(c: Cluster)
    requires Two(c) && Looks(One(c), 1, 1, Leader, [SENTINEL], 0) && Wf(Other(c).log)
    ensures WfCluster(c) && Enabled(c, Offer(1, [[]]))
    ensures var d := Next(c, Do(Offer(1, [[]])));
      Two(d) && Looks(One(d), 1, 1, Leader, [SENTINEL, ENTRY], 0) && One(d).next == One(c).next &&
      One(d).matched == One(c).matched && Other(d) == Other(c)
  {
    hide Done, Points;
    CanMove(c);
    assert Numbered([[]], 1, 0) == [ENTRY];
  }

  lemma Builds(n: Node)
    requires Looks(n, 1, 1, Leader, [SENTINEL, ENTRY], 0) && n.next == map[2 := 1]
    ensures BuildAppend(n, 2, false) == APPEND_1.req.append
  {
  }

  lemma Sends(c: Cluster)
    requires Two(c) && Looks(One(c), 1, 1, Leader, [SENTINEL, ENTRY], 0) && One(c).next == map[2 := 1] &&
      Wf(Other(c).log)
    ensures WfCluster(c) && Enabled(c, SendAppend(1, 2, false))
    ensures var d := Next(c, Do(SendAppend(1, 2, false)));
      Two(d) && One(d) == One(c) && Other(d) == Other(c) && APPEND_1 in d.sent
  {
    hide BuildAppend;
    CanMove(c);
    Builds(One(c));
  }

  lemma Takes(n: Node)
    requires Looks(n, 2, 1, Follower, [SENTINEL], 0)
    ensures Looks(HandleAppend(n, APPEND_1.req.append).node, 2, 1, Follower, [SENTINEL, ENTRY], 0)
    ensures HandleAppend(n, APPEND_1.req.append).resp == ACK_1.resp.append
  {
    hide Done, Points;
    assert FirstNew([SENTINEL], [ENTRY]) == 0;
  }

  lemma Appends(c: Cluster)
    requires Two(c) && Looks(Other(c), 2, 1, Follower, [SENTINEL], 0) && Wf(One(c).log) && APPEND_1 in c.sent
    ensures WfCluster(c) && Enabled(c, Serve(APPEND_1, false))
    ensures var d := Next(c, Do(Serve(APPEND_1, false)));
      Two(d) && One(d) == One(c) && Looks(Other(d), 2, 1, Follower, [SENTINEL, ENTRY], 0) && ACK_1 in d.replies
  {
    hide HandleAppend;
    CanMove(c);
    Takes(Other(c));
  }

  lemma Acknowledged(n: Node)
    requires Looks(n, 1, 1, Leader, [SENTINEL, ENTRY], 0) && n.next == map[2 := 1] && n.matched == map[2 := 0]
    ensures Looks(OnAppend(n, 2, APPEND_1.req.append, ACK_1.resp.append).node, 1, 1, Leader, [SENTINEL, ENTRY], 1)
  {
    hide Backed, BecomeFollower;
    var m := n.(matched := map[2 := 1], next := map[2 := 2]);
    assert Raised(n.matched, 2, 1) == m.matched && Raised(n.next, 2, 2) == m.next;
    assert Acked(m, 1) == {2};
    assert CommitScan(m, 1) == 1;
  }

  lemma Commits(c: Cluster)
    requires Two(c) && Looks(One(c), 1, 1, Leader, [SENTINEL, ENTRY], 0) && Wf(Other(c).log) && ACK_1 in c.replies
    requires One(c).next == map[2 := 1] && One(c).matched == map[2 := 0]
    ensures WfCluster(c) && Enabled(c, Receive(ACK_1))
    ensures var d := Next(c, Do(Receive(ACK_1)));
      Two(d) && Looks(One(d), 1, 1, Leader, [SENTINEL, ENTRY], 1) && Other(d) == Other(c)
  {
    hide OnAppend;
    CanMove(c);
    Acknowledged(One(c));
  }

  lemma TakesOver(c: Cluster)
    requires Two(c) && Looks(Other(c), 2, 1, Follower, [SENTINEL, ENTRY], 0) && Wf(One(c).log)
    ensures WfCluster(c) && Enabled(c, Campaign(2))
    ensures var d := Next(c, Do(Campaign(2)));
      Two(d) && One(d) == One(c) && Looks(Other(d), 2, 2, Candidate, [SENTINEL, ENTRY], 0) && Other(d).votes == 1 &&
      Other(d) == StartElection(Other(c)).node && ASK_2 in d.sent && ASK_2 in d.open
  {
    hide Done, Points;
    CanMove(c);
  }

  lemma Yields(c: Cluster, commit: nat)
    requires Two(c) && Looks(One(c), 1, 1, Leader, [SENTINEL, ENTRY], commit) && Wf(Other(c).log) && ASK_2 in c.sent &&
      ASK_2 in c.open
    ensures WfCluster(c) && Enabled(c, Serve(ASK_2, false))
    ensures var d := Next(c, Do(Serve(ASK_2, false)));
      Two(d) && Looks(One(d), 1, 2, Follower, [SENTINEL, ENTRY], commit) && Other(d) == Other(c) &&
      VOTE_2 in d.replies && ASK_2 in d.open
  {
    hide Done, Points;
    CanMove(c);
  }

  lemma Leads(c: Cluster)
    requires Two(c) && Looks(Other(c), 2, 2, Candidate, [SENTINEL, ENTRY], 0) && Other(c).votes == 1 && Wf(One(c).log)
    requires VOTE_2 in c.replies && ASK_2 in c.open
    ensures WfCluster(c) && Enabled(c, Receive(VOTE_2))
    ensures var d := Next(c, Do(Receive(VOTE_2)));
      Two(d) && One(d) == One(c) && Looks(Other(d), 2, 2, Leader, [SENTINEL, ENTRY], 0) &&
      Other(d) == OnVote(Other(c), 2, VoteResponse(2, true)).node && Other(d).next == map[1 := 2]
  {
    hide OnVote;
    CanMove(c);
    SecondVote(Other(c), 2, 2, [SENTINEL, ENTRY], 0);
  }

  lemma Beats(c: Cluster)
    requires Two(c) && Looks(Other(c), 2, 2, Leader, [SENTINEL, ENTRY], 0) && Other(c).next == map[1 := 2] &&
      Wf(One(c).log)
    ensures WfCluster(c) && Enabled(c, SendAppend(2, 1, true))
    ensures var d := Next(c, Do(SendAppend(2, 1, true)));
      Two(d) && One(d) == One(c) && Other(d) == Other(c) && BEAT_2 in d.sent
  {
    CanMove(c);
  }

  lemma Agrees(c: Cluster, commit: nat)
    requires Two(c) && Looks(One(c), 1, 2, Follower, [SENTINEL, ENTRY], commit) && Wf(Other(c).log) && BEAT_2 in c.sent
    ensures WfCluster(c) && Enabled(c, Serve(BEAT_2, false))
    ensures ConfirmsBy(c, Next(c, Do(Serve(BEAT_2, false))), BEAT_2, false, 1, 2)
  {
    hide Done, Points;
    CanMove(c);
  }

  /** Nobody has committed anything. */
  ghost predicate Quiet(run: seq<Cluster>, upTo: nat)
  {
    forall m :: 0 <= m < upTo <= |run| ==> Two(run[m]) && One(run[m]).commit == Other(run[m]).commit == 0
  }

  lemma QuietOn(run: seq<Cluster>, d: Cluster, commit: nat)
    requires Two(d) && One(d).commit == commit && Other(d).commit == 0
    ensures commit == 0 && Quiet(run, |run|) ==> Quiet(run + [d], |run| + 1)
  {
  }

  /** Server 1 stands. */
  lemma FirstStands() returns (run: seq<Cluster>)
    ensures |run| == 2 && IsRun(run) && Quiet(run, 2) && Two(run[0])
    ensures Looks(One(run[0]), 1, 0, Follower, [SENTINEL], 0) && Looks(Other(run[0]), 2, 0, Follower, [SENTINEL], 0)
    ensures var c := run[1];
      Two(c) && Looks(One(c), 1, 1, Candidate, [SENTINEL], 0) && Looks(Other(c), 2, 0, Follower, [SENTINEL], 0) &&
      One(c).votes == 1 && Other(c).vote == NO_VOTE && ASK_1 in c.sent && ASK_1 in c.open
  {
    hide Next, IsRun, Enabled, Init, Beginning;
    Starts();
    RunBegins(Beginning());
    Campaigns(Beginning());
    run := RunDoes([Beginning()], Campaign(1));
  }

  lemma StandsToo(c: Cluster)
    requires Two(c) && Looks(Other(c), 2, 0, Follower, [SENTINEL], 0) && Wf(One(c).log)
    ensures WfCluster(c) && Enabled(c, Campaign(2))
    ensures var d := Next(c, Do(Campaign(2)));
      Two(d) && One(d) == One(c) && Looks(Other(d), 2, 1, Candidate, [SENTINEL], 0)
  {
    hide Done, Points;
    CanMove(c);
  }

  /** Both servers stand in the same term. */
  lemma BothStand() returns (run: seq<Cluster>)
    ensures |run| == 3 && IsRun(run) && Two(run[0]) && Two(run[2])
    ensures Looks(One(run[0]), 1, 0, Follower, [SENTINEL], 0) && Looks(Other(run[0]), 2, 0, Follower, [SENTINEL], 0)
    ensures Looks(One(run[2]), 1, 1, Candidate, [SENTINEL], 0) && Looks(Other(run[2]), 2, 1, Candidate, [SENTINEL], 0)
  {
    hide Next, IsRun, Enabled, Init, Quiet;
    run := FirstStands();
    StandsToo(run[1]);
    run := RunDoes(run, Campaign(2));
  }

  /** It is voted for and leads. */
  lemma Election() returns (run: seq<Cluster>)
    ensures |run| == 4 && IsRun(run) && Quiet(run, 4)
    ensures var c := run[3];
      Two(c) && Looks(One(c), 1, 1, Leader, [SENTINEL], 0) && Looks(Other(c), 2, 1, Follower, [SENTINEL], 0) &&
      One(c).next == map[2 := 1] && One(c).matched == map[2 := 0]
  {
    hide Next, IsRun, Enabled, Init, Quiet;
    var stood := FirstStands();
    Votes(stood[1]);
    var voted := RunDoes(stood, Serve(ASK_1, false));
    QuietOn(stood, voted[2], 0);
    Wins(voted[2]);
    run := RunDoes(voted, Receive(VOTE_1));
    QuietOn(voted, run[3], 0);
  }

  /** It takes a proposal and sends it on. */
  lemma Proposal() returns (run: seq<Cluster>)
    ensures |run| == 6 && IsRun(run) && Quiet(run, 6)
    ensures var c := run[5];
      Two(c) && Looks(One(c), 1, 1, Leader, [SENTINEL, ENTRY], 0) && Looks(Other(c), 2, 1, Follower, [SENTINEL], 0) &&
      One(c).next == map[2 := 1] && One(c).matched == map[2 := 0] && APPEND_1 in c.sent
  {
    hide Next, IsRun, Enabled, Init, Quiet;
    var elected := Election();
    Offers(elected[3]);
    var offered := RunDoes(elected, Offer(1, [[]]));
    QuietOn(elected, offered[4], 0);
    Sends(offered[4]);
    run := RunDoes(offered, SendAppend(1, 2, false));
    QuietOn(offered, run[5], 0);
  }

  /** Server 2 has taken the entry over; its acknowledgement is on the way. */
  lemma Replicated() returns (run: seq<Cluster>)
    ensures |run| == 7 && IsRun(run) && Quiet(run, 7)
    ensures var c := run[6];
      Two(c) && Looks(One(c), 1, 1, Leader, [SENTINEL, ENTRY], 0) &&
      Looks(Other(c), 2, 1, Follower, [SENTINEL, ENTRY], 0) &&
      One(c).next == map[2 := 1] && One(c).matched == map[2 := 0] && ACK_1 in c.replies
  {
    hide Next, IsRun, Enabled, Init, Quiet;
    var sent := Proposal();
    Appends(sent[5]);
    run := RunDoes(sent, Serve(APPEND_1, false));
    QuietOn(sent, run[6], 0);
  }

  /** It arrives, and server 1 commits the entry. */
  lemma FirstReign(run: seq<Cluster>) returns (more: seq<Cluster>)
    requires |run| == 7 && IsRun(run)
    requires var c := run[6];
      Two(c) && Looks(One(c), 1, 1, Leader, [SENTINEL, ENTRY], 0) && Wf(Other(c).log) &&
      One(c).next == map[2 := 1] && One(c).matched == map[2 := 0] && ACK_1 in c.replies
    ensures |more| == 8 && IsRun(more)
    ensures var c := more[7];
      Two(c) && Looks(One(c), 1, 1, Leader, [SENTINEL, ENTRY], 1) && Other(c) == Other(run[6])
  {
    hide Next, IsRun, Enabled, Init;
    Commits(run[6]);
    more := RunDoes(run, Receive(ACK_1));
  }

  /** Server 2's state once it has stood for election in state `n` and been voted for. */
  ghost function Risen(n: Node): Node
    requires |n.log| > 0
  {
    OnVote(StartElection(n).node, 2, VoteResponse(2, true)).node
  }

  /** Server 2 stands, server 1 votes for it, and server 2 leads. */
  lemma SecondReign(run: seq<Cluster>, commit: nat) returns (more: seq<Cluster>)
    requires |run| > 0 && IsRun(run)
    requires var c := run[|run| - 1];
      Two(c) && Looks(One(c), 1, 1, Leader, [SENTINEL, ENTRY], commit) &&
      Looks(Other(c), 2, 1, Follower, [SENTINEL, ENTRY], 0)
    ensures |more| == |run| + 3 && IsRun(more) && (commit == 0 && Quiet(run, |run|) ==> Quiet(more, |more|))
    ensures var c := more[|run| + 2];
      Two(c) && Looks(One(c), 1, 2, Follower, [SENTINEL, ENTRY], commit) &&
      Looks(Other(c), 2, 2, Leader, [SENTINEL, ENTRY], 0) && Other(c).next == map[1 := 2] &&
      Other(c) == Risen(Other(run[|run| - 1]))
  {
    hide Next, IsRun, Enabled, Init, StartElection, OnVote, Quiet, Cursors;
    var k := |run| - 1;
    TakesOver(run[k]);
    more := RunDoes(run, Campaign(2));
    QuietOn(run, more[k + 1], commit);
    Yields(more[k + 1], commit);
    var voted := RunDoes(more, Serve(ASK_2, false));
    QuietOn(more, voted[k + 2], commit);
    Leads(voted[k + 2]);
    more := RunDoes(voted, Receive(VOTE_2));
    QuietOn(voted, more[k + 3], commit);
  }

  /** Server 1 confirms it. */
  lemma Confirmed(run: seq<Cluster>, commit: nat) returns (more: seq<Cluster>)
    requires |run| > 0 && IsRun(run)
    requires var c := run[|run| - 1];
      Two(c) && Looks(One(c), 1, 2, Follower, [SENTINEL, ENTRY], commit) &&
      Looks(Other(c), 2, 2, Leader, [SENTINEL, ENTRY], 0) && Other(c).next == map[1 := 2]
    ensures |more| == |run| + 2 && IsRun(more) && more[..|run|] == run && Confirms(more, |run|, 1, 2)
  {
    hide Next, IsRun, Enabled, Init, ConfirmsBy;
    var k := |run| - 1;
    Beats(run[k]);
    more := RunDoes(run, SendAppend(2, 1, true));
    Agrees(more[k + 1], commit);
    more := RunDoes(more, Serve(BEAT_2, false));
    assert ConfirmsBy(more[k + 1], more[k + 2], BEAT_2, false, 1, 2);
  }

  /** Everything `ConfirmedReadSafe` asks for holds in state `i` for server 2, except that an
      entry of an earlier term lies above its commit index. */
  ghost predicate ReadsWithOlderAbove(run: seq<Cluster>, i: nat)
  {
    IsRun(run) && At(run, i, 2) && Wf(NodeAt(run, i, 2).log) && NodeAt(run, i, 2).role == Leader &&
    {1} <= Elems(NodeAt(run, i, 2).peers) && 2 * (1 + |{1}|) > 1 + |NodeAt(run, i, 2).peers| &&
    Confirms(run, i + 1, 1, NodeAt(run, i, 2).term) && !OnlyOwnAbove(NodeAt(run, i, 2))
  }

  lemma Reads(run: seq<Cluster>, i: nat, more: seq<Cluster>)
    requires |run| == i + 1 && IsRun(more) && |more| == i + 3 && more[..i + 1] == run && Confirms(more, i + 1, 1, 2)
    requires Two(run[i]) && Looks(Other(run[i]), 2, 2, Leader, [SENTINEL, ENTRY], 0)
    ensures ReadsWithOlderAbove(more, i) && NodeAt(more, i, 2) == Other(run[i])
  {
    hide IsRun, Confirms;
    assert more[i] == run[i];
    assert TermAt(NodeAt(more, i, 2).log, 1) == Some(1);
  }

  /** The index a read would be given is below one that server 1 had committed before. And the
      leader cannot tell: server 2 is in the very same state in a run in which nobody has
      committed anything and the read is safe. */
  lemma BarrierMissesOlderEntry() returns (unsafe: seq<Cluster>, safe: seq<Cluster>)
    ensures ReadsWithOlderAbove(unsafe, 10) && At(unsafe, 10, 1)
    ensures NodeAt(unsafe, 10, 2).commit < NodeAt(unsafe, 10, 1).commit
    ensures ReadsWithOlderAbove(safe, 9) && NodeAt(safe, 9, 2) == NodeAt(unsafe, 10, 2)
    ensures forall m, w :: 0 <= m <= 9 && At(safe, m, w) ==> NodeAt(safe, m, w).commit <= NodeAt(safe, 9, 2).commit
  {
    hide IsRun, Confirms, ReadsWithOlderAbove, Risen;
    var run := Replicated();
    var a := FirstReign(run);
    a := SecondReign(a, 1);
    unsafe := Confirmed(a, 1);
    Reads(a, 10, unsafe);
    var b := SecondReign(run, 0);
    safe := Confirmed(b, 0);
    Reads(b, 9, safe);
    assert unsafe[10] == a[10];
    forall m, w | 0 <= m <= 9 && At(safe, m, w)
      ensures NodeAt(safe, m, w).commit <= NodeAt(safe, 9, 2).commit
    {
      assert safe[m] == b[m];
    }
  }

  lemma Collects(c: Cluster)
    requires Two(c) && Looks(One(c), 1, 1, Leader, [SENTINEL, ENTRY], 1) && Wf(Other(c).log)
    ensures WfCluster(c) && Enabled(c, Collect(1))
    ensures var d := Next(c, Do(Collect(1))); Two(d) && One(d).applied == 1 && |One(d).log| > 0
  {
    CanMove(c);
  }

  /** Waiting for `lastApplied` is not waiting for the state machine: the cursor moves when a
      batch is collected, before it is delivered. */
  lemma AppliedBeforeDelivered() returns (run: seq<Cluster>)
    ensures IsRun(run) && At(run, 8, 1) && NodeAt(run, 8, 1).applied == 1 && run[8].nodes[1].app == []
  {
    hide Next, IsRun, Enabled, Init;
    run := Replicated();
    run := FirstReign(run);
    Collects(run[7]);
    run := RunDoes(run, Collect(1));
  }
}
