/** Feeding the state machine keeps the cluster and its history together. */
module RelationApply {
  import opened RaftTypes
  import opened RaftLog
  import opened NodeSpec
  import opened ClusterSpec
  import opened History
  import opened Relation
  import opened RelationVotes
  import opened RelationSnapshot

  lemma {:induction false} FedBelow(app: seq<Entry>, queue: seq<ApplyMsg>, K: seq<Entry>)
    requires FeedRel(app, queue, K)
    ensures FedAll(app, queue) <= K && |app| + |queue| <= |FedAll(app, queue)|
    decreases |queue|
  {
    if queue != [] {
      FedBelow(Fed(app, queue[0]), queue[1..], K);
    }
  }

  lemma {:induction false} FeedSnoc(app: seq<Entry>, queue: seq<ApplyMsg>, m: ApplyMsg, K: seq<Entry>)
    requires FeedRel(app, queue, K) && Fitting(FedAll(app, queue), m, K)
    ensures FeedRel(app, queue + [m], K) && FedAll(app, queue + [m]) == Fed(FedAll(app, queue), m)
    decreases |queue|
  {
    if queue == [] {
      assert queue + [m] == [m] && [m][1..] == [];
      assert FeedRel(Fed(app, m), [], K);
    } else {
      FeedSnoc(Fed(app, queue[0]), queue[1..], m, K);
      assert (queue + [m])[1..] == queue[1..] + [m] && (queue + [m])[0] == queue[0];
    }
  }

  lemma {:induction false} FeedCommands(app: seq<Entry>, queue: seq<ApplyMsg>, es: seq<Entry>, K: seq<Entry>, a: nat)
    requires FeedRel(app, queue, K) && a + |es| <= |K| && FedAll(app, queue) == K[..a] && es == K[a..a + |es|]
    ensures FeedRel(app, queue + Commands(es), K) && FedAll(app, queue + Commands(es)) == K[..a + |es|]
  {
    if es == [] {
      assert queue + Commands(es) == queue;
    } else {
      hide FeedRel, FedAll;
      var init, e := es[..|es| - 1], es[|es| - 1];
      FeedCommands(app, queue, init, K, a);
      FeedSnoc(app, queue + Commands(init), Command(e), K);
      assert queue + Commands(es) == queue + Commands(init) + [Command(e)];
      assert K[..a + |es|] == K[..a + |init|] + [e];
    }
  }

  /** What the applier collects is the committed prefix between its cursors. */
  lemma BatchIs(n: Node, L: seq<Entry>, K: seq<Entry>)
    requires LogRel(n.log, L, K) && n.commit == |K| && First(n.log) <= n.applied <= n.commit
    ensures BatchInLog(n) && Batch(n) == K[n.applied..n.commit]
  {
    var f := First(n.log);
    forall i | 0 <= i < |Batch(n)|
      ensures Batch(n)[i] == K[n.applied..n.commit][i]
    {
      assert Batch(n)[i] == n.log[n.applied + 1 - f + i] == L[n.applied + i];
    }
  }

  lemma CollectCursors(r: Replica, L: seq<Entry>, K: seq<Entry>)
    requires CursorRel(r, K) && LogRel(r.node.log, L, K)
    ensures BatchInLog(r.node) && CursorRel(CollectEffect(r), K)
  {
    var n := r.node;
    FedBelow(r.app, r.queue, K);
    BatchIs(n, L, K);
    if n.pending.Some? {
      FeedSnoc(r.app, r.queue, Restore(n.pending.value), K);
    } else {
      assert FedAll(r.app, r.queue) == K[..n.applied];
      FeedCommands(r.app, r.queue, Batch(n), K, n.applied);
    }
    hide FeedRel, FedAll, Batch, LogRel;
  }

  lemma ConsumeCursors(r: Replica, K: seq<Entry>)
    requires CursorRel(r, K) && r.queue != []
    ensures CursorRel(ConsumeEffect(r), K)
  {
  }

  lemma CollectRel(r: Replica, h: Hist, v: Id)
    requires Basic(h) && Inv(h) && NodeRel(r, h, v) && Wf(r.node.log) && (r.node.pending.Some? || BatchInLog(r.node))
    ensures Arrives(h, h, v, CollectEffect(r))
  {
    hide Inv, Local, NodeRel, LogRel, DurRel, CursorRel, VoteRel, PeersOf, CandidateRel, LeaderRel;
    Stays(h, v);
    NodeParts(r, h, v);
    CollectCursors(r, h.virt[v], h.cp[v]);
    SameRoles(r.node, CollectEffect(r).node, h, v);
    NodeIntro(CollectEffect(r), h, v);
  }

  lemma ConsumeRel(r: Replica, h: Hist, v: Id)
    requires Basic(h) && Inv(h) && NodeRel(r, h, v) && r.queue != []
    ensures Arrives(h, h, v, ConsumeEffect(r))
  {
    hide Inv, Local, NodeRel, LogRel, DurRel, CursorRel, VoteRel, PeersOf, CandidateRel, LeaderRel;
    Stays(h, v);
    NodeParts(r, h, v);
    ConsumeCursors(r, h.cp[v]);
    NodeIntro(ConsumeEffect(r), h, v);
  }
}
