/**
  A split vote. The comment at the start of an election says that one without a winner is
  followed by another in a higher term. A candidate does poll again when its timer fires, but the
  answers count for followers only. So once every server is a candidate of the same term, none
  ever stands again, unless one restarts; and this is the only such situation.
*/
module RaftSplitVote {
  import opened RaftTypes
  import opened RaftLog
  import opened NodeSpec
  import opened ClusterSpec
  import opened History
  import opened Relation
  import opened RunHistory
  import opened RaftSafety
  import opened RaftService
  import opened RaftElections
  import RaftStaleRead

  // ---------------------------------------------------------------------------
  // Terms only grow, and nobody reports one it has not reached
  // ---------------------------------------------------------------------------

  lemma TermsGrow(run: seq<Cluster>, i: nat, j: nat, v: Id)
    requires IsRun(run) && i <= j < |run| && v in run[i].nodes
    ensures v in run[j].nodes && run[i].nodes[v].node.term <= run[j].nodes[v].node.term
  {
    hide Inv, Rel, Grows, IsRun, NodeRel, LogRel, CursorRel, Shape, Valid, Committed;
    var h, k, top := TwoHistories(run, i, j);
    Explained(run[i], h, v);
    SameServers(run[j], h, k, v);
    Explained(run[j], k, v);
    TermGrows(h, k, v);
  }

  lemma SameServers(c: Cluster, h: Hist, k: Hist, v: Id)
    requires Explains(c, k) && Grows(h, k) && v in h.servers
    ensures v in c.nodes
  {
  }

  lemma TermGrows(h: Hist, k: Hist, v: Id)
    requires Basic(h) && Basic(k) && Grows(h, k) && v in h.servers
    ensures h.term[v] <= k.term[v]
  {
  }

  function Reported(y: Response): nat
  {
    match y
    case Voted(a) => a.term
    case Appended(a) => a.term
    case Installed(a) => a.term
  }

  ghost predicate RepliesOld(c: Cluster)
  {
    forall y :: y in c.replies ==> y.rpc.to in c.nodes && Reported(y.resp) <= c.nodes[y.rpc.to].node.term
  }

  lemma ReplyTerm(c: Cluster, a: Action)
    requires WfCluster(c) && Enabled(c, a)
    ensures var f := EffectOf(c, a);
      forall y :: y in f.replies ==> y.rpc.to == Actor(a) && Reported(y.resp) <= f.replica.node.term
  {
    hide OnVote, OnAppend, OnSnapshot, TakeSnapshot, Propose, StartElection, BuildAppend, Batch;
    match a
    case Serve(rpc, recent) => ServeTerm(c.nodes[rpc.to], rpc, recent);
    case _ =>
  }

  lemma ServeTerm(r: Replica, rpc: Rpc, recent: bool)
    requires Wf(r.node.log)
    ensures var f := ServeEffect(r, rpc, recent);
      forall y :: y in f.replies ==> y.rpc == rpc && Reported(y.resp) == f.replica.node.term
  {
    hide FirstNew, ConflictHint, CompactedTo;
  }

  lemma {:induction false} RepliesAreOld(run: seq<Cluster>, i: nat)
    requires IsRun(run) && i < |run|
    ensures RepliesOld(run[i])
  {
    hide Init, EffectOf, Enabled, Rebooted;
    if i == 0 {
      NoReplies(run[0]);
    } else {
      RepliesAreOld(run, i - 1);
      assert Step(run[i - 1], run[i]);
      var e :| Moves(run[i - 1], e, run[i]);
      if e.Do? { ReplyTerm(run[i - 1], e.a); }
      forall y | y in run[i].replies
        ensures y.rpc.to in run[i].nodes && Reported(y.resp) <= run[i].nodes[y.rpc.to].node.term
      {
        if y in run[i - 1].replies { TermsGrow(run, i - 1, i, y.rpc.to); }
      }
    }
  }

  lemma NoReplies(c: Cluster)
    requires Init(c)
    ensures c.replies == {}
  {
  }

  // ---------------------------------------------------------------------------
  // Stuck
  // ---------------------------------------------------------------------------

  ghost predicate AllStand(c: Cluster, T: nat)
  {
    forall v :: v in c.nodes ==> c.nodes[v].node.role == Candidate && c.nodes[v].node.term == T
  }

  ghost predicate SplitVote(c: Cluster) { exists T :: AllStand(c, T) }

  /** What the history says of a server when all of them stand: it has voted for itself, and
      nobody leads the term. */
  lemma VotedForSelf(c: Cluster, h: Hist, v: Id, T: nat)
    requires Explains(c, h) && AllStand(c, T) && v in c.nodes
    ensures v in h.servers && c.nodes[v].node.vote == v && h.term[v] == T
    ensures (v, T) in h.votes && h.votes[(v, T)] == v && (T in h.llog ==> h.leader[T] != v)
  {
    hide LogRel, CursorRel, TallyRel, RpcRel, ReplyRel, DurRel, LeaderRel, LogsOk, AcksOk, Complete, Held, VotesSafe,
      CommitsOk, Known;
    RelParts(c, h, v);
    NodeParts(c.nodes[v], h, v);
    InvParts(h);
  }

  /** No request in flight can move anyone: those of this term ask for a vote already given. */
  lemma NothingNew(c: Cluster, h: Hist, x: Rpc, T: nat)
    requires Explains(c, h) && AllStand(c, T) && x in c.sent
    ensures x.from in c.nodes && x.to in c.nodes && x.from != x.to
    ensures match x.req
      case AskVote(q) => q.term <= T && q.candidate == x.from && !q.preVote
      case AskAppend(q) => q.term < T
      case AskInstall(q) => q.term < T
  {
    hide Inv, Rel, CommittedUpTo, Committed, Explains, SnapShape, ElectionsOk;
    ExplainsParts(c, h);
    RelRpc(c, h, x);
    VotedForSelf(c, h, x.from, T);
    match x.req
    case AskVote(q) => StoodBy(h, x.from, q.term) by { InvParts(h); }
    case AskAppend(q) => LedBy(h, q.term) by { InvParts(h); }
    case AskInstall(q) => LedBy(h, q.term) by { InvParts(h); }
  }

  lemma StoodBy(h: Hist, w: Id, U: nat)
    requires Basic(h) && ElectionsOk(h) && (w, U) in h.cands
    ensures w in h.servers && U <= h.term[w]
  {
  }

  lemma LedBy(h: Hist, U: nat)
    requires Basic(h) && ElectionsOk(h) && U in h.llog
    ensures U in h.leader && h.leader[U] in h.servers && U <= h.term[h.leader[U]]
  {
  }

  lemma ExplainsParts(c: Cluster, h: Hist)
    requires Explains(c, h)
    ensures Basic(h) && Inv(h) && Rel(c, h) && WfCluster(c) && c.nodes.Keys == c.servers == h.servers
  {
  }

  lemma NothingGranted(c: Cluster, h: Hist, y: Reply, T: nat)
    requires Explains(c, h) && AllStand(c, T) && y in c.replies && Fits(y.rpc.req, y.resp)
    ensures y.rpc in c.sent && y.rpc.to in c.nodes
    ensures y.resp.Voted? && y.rpc.req.vote.term == T ==> !y.resp.vote.granted
  {
    hide NodeRel, TallyRel, RpcRel, Inv, Explains, CommittedUpTo;
    ExplainsParts(c, h);
    RelReply(c, h, y);
    NothingNew(c, h, y.rpc, T);
    VotedForSelf(c, h, y.rpc.to, T);
  }

  lemma StillStands(r: Replica, x: Rpc, recent: bool, T: nat)
    requires Wf(r.node.log) && r.node.role == Candidate && r.node.term == T
    requires r.node.vote == x.to != x.from && x.to != NO_VOTE
    requires match x.req
      case AskVote(q) => q.term <= T && q.candidate == x.from && !q.preVote
      case AskAppend(q) => q.term < T
      case AskInstall(q) => q.term < T
    ensures ServeEffect(r, x, recent).replica.node == r.node
  {
  }

  lemma StillAlone(r: Replica, y: Reply, T: nat)
    requires Wf(r.node.log) && r.node.role == Candidate && r.node.term == T && Fits(y.rpc.req, y.resp)
    requires Reported(y.resp) <= T && (y.resp.Voted? && y.rpc.req.vote.term == T ==> !y.resp.vote.granted)
    ensures ReceiveEffect(r, y).replica.node == r.node
  {
  }

  /** Nothing a server can do moves it on. */
  lemma StuckActor(run: seq<Cluster>, h: Hist, a: Action, T: nat)
    requires |run| > 0 && IsRun(run) && AllStand(Now(run), T) && Explains(Now(run), h) && Enabled(Now(run), a)
    requires var r := Now(run).nodes[Actor(a)].node; r.vote == Actor(a) != NO_VOTE
    ensures var m := EffectOf(Now(run), a).replica.node; m.role == Candidate && m.term == T
  {
    hide IsRun, Inv, Rel, ServeEffect, ReceiveEffect, TakeSnapshot, Batch, CommittedUpTo;
    var c, r := Now(run), Now(run).nodes[Actor(a)];
    match a
    case Serve(x, recent) => NothingNew(c, h, x, T); StillStands(r, x, recent, T);
    case Receive(y) =>
      NothingGranted(c, h, y, T);
      RepliesAreOld(run, |run| - 1);
      StillAlone(r, y, T);
    case Compact(_, raw) => TakeRole(r.node, |r.app|, r.app, raw);
    case _ =>
  }

  lemma StaysStuck(run: seq<Cluster>, a: Action, T: nat)
    requires |run| > 0 && IsRun(run) && AllStand(Now(run), T) && WfCluster(Now(run)) && Enabled(Now(run), a)
    ensures AllStand(Next(Now(run), Do(a)), T)
  {
    hide IsRun, Inv, Rel, Grows, EffectOf, Enabled, Explains;
    var h, k, top := TwoHistories(run, |run| - 1, |run| - 1);
    ActorKnown(Now(run), h, a);
    VotedForSelf(Now(run), h, Actor(a), T);
    StuckActor(run, h, a, T);
  }

  lemma ActorKnown(c: Cluster, h: Hist, a: Action)
    requires Explains(c, h) && Enabled(c, a)
    ensures Actor(a) in c.nodes && Actor(a) != NO_VOTE
  {
    hide Inv, NodeRel, TallyRel, RpcRel, ReplyRel;
    RelParts(c, h, Actor(a));
  }

  /** `more` goes on from `run` without a restart. */
  ghost predicate Onward(run: seq<Cluster>, more: seq<Cluster>)
  {
    0 < |run| && run <= more && IsRun(more) && forall i :: |run| <= i < |more| ==> Acts(more[i - 1], more[i])
  }

  ghost predicate Acts(c: Cluster, d: Cluster) { exists a :: Moves(c, Do(a), d) }

  /** Some server has reached a term above all of `c`. */
  ghost predicate Beyond(c: Cluster, d: Cluster)
  {
    exists w :: w in d.nodes && Above(c, d.nodes[w].node.term)
  }

  ghost predicate Above(c: Cluster, T: nat) { forall u :: u in c.nodes ==> c.nodes[u].node.term < T }

  lemma {:induction false} StuckForever(run: seq<Cluster>, more: seq<Cluster>, T: nat)
    requires Onward(run, more) && AllStand(Now(run), T)
    ensures AllStand(Now(more), T)
    decreases |more|
  {
    hide Init, Next, AllStand, Enabled;
    var n := |more| - 1;
    if n < |run| {
      assert more == run;
    } else {
      var init := more[..n];
      assert forall i :: 0 <= i < n - 1 ==> Step(more[i], more[i + 1]);
      assert IsRun(init);
      assert Onward(run, init);
      StuckForever(run, init, T);
      assert Acts(more[n - 1], more[n]);
      var a :| Moves(more[n - 1], Do(a), more[n]);
      StaysStuck(init, a, T);
    }
  }

  // ---------------------------------------------------------------------------
  // Otherwise some server can go on
  // ---------------------------------------------------------------------------

  lemma {:induction false} Highest(c: Cluster, ws: set<Id>) returns (top: Id)
    requires ws != {} && ws <= c.nodes.Keys
    ensures top in ws && forall w :: w in ws ==> c.nodes[w].node.term <= c.nodes[top].node.term
    decreases |ws|
  {
    top :| top in ws;
    var rest := ws - {top};
    if rest != {} {
      var other := Highest(c, rest);
      if c.nodes[other].node.term > c.nodes[top].node.term { top := other; }
    }
  }

  lemma OnwardBy(run: seq<Cluster>, more: seq<Cluster>, a: Action) returns (on: seq<Cluster>)
    requires Onward(run, more) && WfCluster(Now(more)) && Enabled(Now(more), a)
    ensures Onward(run, on) && on == more + [Next(Now(more), Do(a))]
  {
    hide IsRun, Next, Enabled;
    on := RunDoes(more, a);
    assert Moves(Now(more), Do(a), Now(on));
    forall i | |run| <= i < |on|
      ensures Acts(on[i - 1], on[i])
    {
      if i < |more| { assert Acts(more[i - 1], more[i]); }
    }
  }

  /** A server that is no candidate of the highest term becomes a follower of it. */
  lemma Follows(run: seq<Cluster>, v: Id, top: Id) returns (more: seq<Cluster>)
    requires |run| > 0 && IsRun(run) && v in Now(run).nodes && top in Now(run).nodes
    requires var n, T := Now(run).nodes[v].node, Now(run).nodes[top].node.term;
      n.term <= T && (n.role != Candidate || n.term < T)
    ensures Onward(run, more) && v in Now(more).nodes
    ensures var m := Now(more).nodes[v].node; m.role == Follower && m.term == Now(run).nodes[top].node.term
  {
    hide IsRun;
    var c := Now(run);
    RunsAreWellFormed(run, |run| - 1);
    assert Onward(run, run);
    if c.nodes[v].node.term < c.nodes[top].node.term {
      more := OnwardBy(run, run, Hear(v, c.nodes[top].node.term));
    } else if c.nodes[v].node.role == Leader {
      more := OnwardBy(run, run, Resign(v));
    } else {
      more := run;
    }
  }

  /** Exactly then: from a reachable state some server can reach a term above all present ones
      without anyone restarting, if and only if not all of them stand in one term. */
  lemma StuckExactly(run: seq<Cluster>)
    requires |run| > 0 && IsRun(run)
    ensures (exists more :: Onward(run, more) && |more| > 0 && Beyond(Now(run), Now(more))) <==> !SplitVote(Now(run))
  {
    hide IsRun, Onward, Beyond, SplitVote;
    if SplitVote(Now(run)) {
      forall more | Onward(run, more)
        ensures |more| > 0 && !Beyond(Now(run), Now(more))
      {
        NeverBeyond(run, more);
      }
    } else {
      var more := GoesBeyond(run);
      assert Onward(run, more) && |more| > 0 && Beyond(Now(run), Now(more));
    }
  }

  lemma NeverBeyond(run: seq<Cluster>, more: seq<Cluster>)
    requires Onward(run, more) && SplitVote(Now(run))
    ensures |more| > 0 && !Beyond(Now(run), Now(more))
  {
    var T :| AllStand(Now(run), T);
    StuckForever(run, more, T);
    if Beyond(Now(run), Now(more)) {
      var w :| w in Now(more).nodes && Above(Now(run), Now(more).nodes[w].node.term);
      Same(run, more, w);
    }
  }

  lemma Same(run: seq<Cluster>, more: seq<Cluster>, w: Id)
    requires Onward(run, more) && w in Now(more).nodes
    ensures w in Now(run).nodes
  {
    hide Inv, Rel, Grows, IsRun, NodeRel;
    assert more[|run| - 1] == Now(run);
    var h, k, top := TwoHistories(more, |run| - 1, |more| - 1);
    ExplainsParts(Now(run), h);
    ExplainsParts(Now(more), k);
    GrowsServers(h, k);
  }

  lemma GrowsServers(h: Hist, k: Hist)
    requires Grows(h, k)
    ensures k.servers == h.servers
  {
  }

  lemma GoesBeyond(run: seq<Cluster>) returns (more: seq<Cluster>)
    requires |run| > 0 && IsRun(run) && !SplitVote(Now(run))
    ensures Onward(run, more) && |more| > 0 && Beyond(Now(run), Now(more))
  {
    hide IsRun;
    var c := Now(run);
    assert !AllStand(c, 0);
    var top := Highest(c, c.nodes.Keys);
    var T := c.nodes[top].node.term;
    assert !AllStand(c, T);
    var v :| v in c.nodes && !(c.nodes[v].node.role == Candidate && c.nodes[v].node.term == T);
    more := Follows(run, v, top);
    RunsAreWellFormed(more, |more| - 1);
    StandTerm(Now(more), v);
    more := OnwardBy(run, more, Campaign(v));
    assert Above(c, T + 1);
  }

  lemma StandTerm(c: Cluster, v: Id)
    requires WfCluster(c) && v in c.nodes && c.nodes[v].node.role == Follower
    ensures Enabled(c, Campaign(v))
    ensures var d := Next(c, Do(Campaign(v))); v in d.nodes && d.nodes[v].node.term == c.nodes[v].node.term + 1
  {
  }

  /** And it happens: two servers whose polls are granted stand at the same time. */
  lemma SplitVoteHappens() returns (run: seq<Cluster>)
    ensures |run| == 3 && IsRun(run) && |Now(run).nodes| == 2 && SplitVote(Now(run))
    ensures Supports(run[0], 1, 2, _ => false) && Supports(run[0], 2, 1, _ => false)
  {
    hide IsRun, Next, Enabled;
    run := RaftStaleRead.BothStand();
    assert AllStand(Now(run), 1);
    assert Now(run).nodes.Keys == {1, 2};
  }
}
