/**
  That the cluster does its work when a majority talks to each other: what a leader has taken is
  committed, made known and applied, from every reachable state in which it leads them.
*/
module RaftService {
  import opened RaftTypes
  import opened RaftLog
  import opened NodeSpec
  import opened ClusterSpec
  import opened History
  import opened Relation
  import opened RelationVotes
  import opened RaftSafety
  import opened RaftReads
  import opened RaftCatchUp
  import Quorums

  // ---------------------------------------------------------------------------
  // A leader and its followers
  // ---------------------------------------------------------------------------

  ghost function Now(run: seq<Cluster>): Cluster
    requires |run| > 0
  {
    run[|run| - 1]
  }

  /** The run's last state has leader `v` and different followers `q`, none ahead in term. */
  ghost predicate Team(run: seq<Cluster>, v: Id, q: seq<Id>)
  {
    |run| > 0 && IsRun(run) && At(run, |run| - 1, v) && Now(run).nodes[v].node.role == Leader &&
    (forall i, j :: 0 <= i < j < |q| ==> q[i] != q[j]) && forall i :: 0 <= i < |q| ==> Pair(run, v, q[i])
  }

  /** Leader `m` is leader `n` later in the same leadership, with nothing proposed in between. */
  ghost predicate Steady(n: Node, m: Node)
  {
    m.role == n.role && m.term == n.term && m.log == n.log && m.peers == n.peers && m.id == n.id && n.commit <= m.commit
  }

  lemma TeamKept(run: seq<Cluster>, more: seq<Cluster>, v: Id, q: seq<Id>, k: nat)
    requires Team(run, v, q) && k < |q| && Pair(more, v, q[k]) && Between(Now(run), Now(more), v, q[k])
    requires Advanced(Now(run).nodes[v].node, Now(more).nodes[v].node, q[k])
    ensures Team(more, v, q)
  {
    hide IsRun;
    forall i | 0 <= i < |q|
      ensures Pair(more, v, q[i])
    {
      assert Pair(run, v, q[i]);
    }
  }

  /** The leader brings the first `k` followers up to date, one after the other. */
  lemma {:induction false} Passes(run: seq<Cluster>, v: Id, q: seq<Id>, k: nat) returns (more: seq<Cluster>)
    requires Team(run, v, q) && k <= |q|
    ensures Team(more, v, q) && run <= more && Now(more).servers == Now(run).servers
    ensures Steady(Now(run).nodes[v].node, Now(more).nodes[v].node)
    ensures forall i :: 0 <= i < k ==> Knows(Now(run).nodes[v].node, Now(more), v, q[i])
    ensures var m := Now(more).nodes[v].node; k > 0 && Committable(m) ==> Last(m.log) <= m.commit
    decreases k
  {
    hide IsRun, Committable, Exchanges, CaughtUp, Rounds;
    if k == 0 {
      more := run;
    } else {
      var before := Passes(run, v, q, k - 1);
      var p := q[k - 1];
      assert Pair(before, v, p);
      var rounds;
      more, rounds := CatchesUp(before, v, p);
      TeamKept(before, more, v, q, k - 1);
      forall i | 0 <= i < k
        ensures Knows(Now(run).nodes[v].node, Now(more), v, q[i])
      {
        if i < k - 1 { assert Knows(Now(run).nodes[v].node, Now(before), v, q[i]) && Pair(before, v, q[i]); }
      }
    }
  }

  /** Leader `v` knows that `p` holds the log of `n`, and `p` knows what `n` had committed. */
  ghost predicate Knows(n: Node, d: Cluster, v: Id, p: Id)
  {
    v in d.nodes && p in d.nodes && |n.log| > 0 && Last(n.log) <= Get(d.nodes[v].node.matched, p) &&
    n.commit <= d.nodes[p].node.commit
  }

  lemma EnoughKnown(n: Node, servers: set<Id>, q: seq<Id>)
    requires PeersOf(n.peers, n.id, servers) && n.id in servers && |n.log| > 0 && LastLogTerm(n.log) == n.term
    requires Quorums.Majority(servers, {n.id} + Elems(q)) && n.id !in q
    requires forall p :: p in q ==> p in n.peers && Last(n.log) <= Get(n.matched, p)
    ensures Committable(n)
  {
    hide Majority;
    CountIsMajority(n, n.id, servers, {n.id} + Elems(q));
    var a := Acked(n, Last(n.log));
    assert Elems(q) <= a;
    Quorums.SubsetSize(Elems(q), a);
  }

  lemma Who(run: seq<Cluster>, v: Id)
    requires |run| > 0 && IsRun(run) && v in Now(run).nodes
    ensures var c := Now(run); c.nodes[v].node.id == v && v in c.servers && PeersOf(c.nodes[v].node.peers, v, c.servers)
  {
    hide IsRun, Inv, Rel, Grows, PeersOf;
    var h, k, top := TwoHistories(run, |run| - 1, |run| - 1);
    WhoIs(Now(run), h, v);
  }

  /** Once it has brought enough followers up to date, a leader commits what it has taken. */
  lemma Commits(run: seq<Cluster>, v: Id, q: seq<Id>) returns (more: seq<Cluster>)
    requires Team(run, v, q) && q != [] && Quorums.Majority(Now(run).servers, {v} + Elems(q))
    requires LastLogTerm(Now(run).nodes[v].node.log) == Now(run).nodes[v].node.term
    ensures Team(more, v, q) && run <= more && Now(more).servers == Now(run).servers
    ensures Steady(Now(run).nodes[v].node, Now(more).nodes[v].node)
    ensures Last(Now(run).nodes[v].node.log) <= Now(more).nodes[v].node.commit
  {
    hide IsRun, Committable, Quorums.Majority, Pair, Ready2, PeersOf;
    more := Passes(run, v, q, |q|);
    var m := Now(more).nodes[v].node;
    Who(more, v);
    Apart(more, v, q);
    forall p | p in q
      ensures Last(m.log) <= Get(m.matched, p)
    {
      var i :| 0 <= i < |q| && q[i] == p;
      assert Knows(Now(run).nodes[v].node, Now(more), v, q[i]);
    }
    EnoughKnown(m, Now(run).servers, q);
  }

  /** And a second pass makes the commit known to them. */
  lemma TeamCommits(run: seq<Cluster>, v: Id, q: seq<Id>) returns (more: seq<Cluster>)
    requires Team(run, v, q) && q != [] && Quorums.Majority(Now(run).servers, {v} + Elems(q))
    requires LastLogTerm(Now(run).nodes[v].node.log) == Now(run).nodes[v].node.term
    ensures Team(more, v, q) && run <= more && Now(more).servers == Now(run).servers
    ensures Steady(Now(run).nodes[v].node, Now(more).nodes[v].node)
    ensures forall w :: w == v || w in q ==>
      w in Now(more).nodes && Last(Now(run).nodes[v].node.log) <= Now(more).nodes[w].node.commit
  {
    hide IsRun, Committable, Quorums.Majority, Pair, Ready2;
    var first := Commits(run, v, q);
    more := Passes(first, v, q, |q|);
    forall w | w == v || w in q
      ensures w in Now(more).nodes && Last(Now(run).nodes[v].node.log) <= Now(more).nodes[w].node.commit
    {
      if w != v {
        var i :| 0 <= i < |q| && q[i] == w;
        assert Knows(Now(first).nodes[v].node, Now(more), v, q[i]);
      }
    }
  }

  lemma Apart(run: seq<Cluster>, v: Id, q: seq<Id>)
    requires Team(run, v, q)
    ensures v !in q && forall p :: p in q ==> p in Now(run).nodes[v].node.peers && p in Now(run).nodes
  {
    forall p | p in q
      ensures p != v && p in Now(run).nodes[v].node.peers && p in Now(run).nodes
    {
      var i :| 0 <= i < |q| && q[i] == p;
      assert Pair(run, v, q[i]);
    }
  }

  // ---------------------------------------------------------------------------
  // The applier
  // ---------------------------------------------------------------------------

  /** Only `v` has acted. */
  ghost predicate Alone(c: Cluster, d: Cluster, v: Id)
  {
    d.servers == c.servers && d.nodes.Keys == c.nodes.Keys &&
    forall w :: w in c.nodes && w != v ==> d.nodes[w] == c.nodes[w]
  }

  lemma ConsumeStep(c: Cluster, v: Id)
    requires WfCluster(c) && v in c.nodes && c.nodes[v].queue != []
    ensures Enabled(c, Consume(v))
    ensures var d, r := Next(c, Do(Consume(v))), c.nodes[v];
      Alone(c, d, v) && d.nodes[v].node == r.node && d.nodes[v].queue == r.queue[1..]
  {
  }

  /** Everything on its way to the state machine of `v` arrives. */
  lemma {:induction false} Drains(run: seq<Cluster>, v: Id) returns (more: seq<Cluster>)
    requires |run| > 0 && IsRun(run) && v in Now(run).nodes
    ensures |more| > 0 && IsRun(more) && run <= more && Alone(Now(run), Now(more), v)
    ensures Now(more).nodes[v].node == Now(run).nodes[v].node && Now(more).nodes[v].queue == []
    decreases |Now(run).nodes[v].queue|
  {
    hide IsRun, Next, Enabled;
    if Now(run).nodes[v].queue == [] {
      more := run;
    } else {
      RunsAreWellFormed(run, |run| - 1);
      ConsumeStep(Now(run), v);
      var next := RunDoes(run, Consume(v));
      assert Now(next) == Next(Now(run), Do(Consume(v)));
      more := Drains(next, v);
    }
  }

  lemma CollectStep(c: Cluster, v: Id)
    requires WfCluster(c) && v in c.nodes && (c.nodes[v].node.pending.Some? || BatchInLog(c.nodes[v].node))
    ensures Enabled(c, Collect(v))
    ensures var d, n := Next(c, Do(Collect(v))), c.nodes[v].node;
      Alone(c, d, v) &&
      d.nodes[v].node == if n.pending.Some? then n.(pending := None) else n.(applied := n.commit)
  {
    hide Batch;
  }

  lemma Collected(run: seq<Cluster>, v: Id) returns (more: seq<Cluster>)
    requires |run| > 0 && IsRun(run) && v in Now(run).nodes
    ensures |more| > 0 && IsRun(more) && run <= more && Alone(Now(run), Now(more), v)
    ensures var n := Now(run).nodes[v].node;
      Now(more).nodes[v].queue == [] &&
      Now(more).nodes[v].node == if n.pending.Some? then n.(pending := None) else n.(applied := n.commit)
  {
    hide IsRun, Next, Enabled;
    RunsAreWellFormed(run, |run| - 1);
    CursorChain(run, |run| - 1, v);
    CollectStep(Now(run), v);
    var next := RunDoes(run, Collect(v));
    assert Now(next) == Next(Now(run), Do(Collect(v)));
    more := Drains(next, v);
  }

  /** The applier's turn, twice if a snapshot is pending: then the machine contains everything
      its server knows to be committed. */
  lemma Applies(run: seq<Cluster>, v: Id) returns (more: seq<Cluster>)
    requires |run| > 0 && IsRun(run) && v in Now(run).nodes
    ensures |more| > 0 && IsRun(more) && run <= more && Alone(Now(run), Now(more), v)
    ensures var n, r := Now(run).nodes[v].node, Now(more).nodes[v];
      r.node == n.(pending := None, applied := n.commit) && |r.app| == n.commit
  {
    hide IsRun;
    more := Collected(run, v);
    if Now(run).nodes[v].node.pending.Some? {
      more := Collected(more, v);
    }
    RunsAreWellFormed(more, |more| - 1);
    DeliveredExactly(more, |more| - 1, v);
  }

  /** `m` is `n` but for the applier's cursor. */
  ghost predicate SameButApplied(n: Node, m: Node) { m == n.(pending := m.pending, applied := m.applied) }

  lemma {:induction false} AllApply(run: seq<Cluster>, ws: seq<Id>, k: nat) returns (more: seq<Cluster>)
    requires |run| > 0 && IsRun(run) && k <= |ws| && forall i :: 0 <= i < |ws| ==> ws[i] in Now(run).nodes
    ensures |more| > 0 && IsRun(more) && run <= more && Now(more).nodes.Keys == Now(run).nodes.Keys
    ensures forall w :: w in Now(run).nodes ==> SameButApplied(Now(run).nodes[w].node, Now(more).nodes[w].node)
    ensures forall i :: 0 <= i < k ==> |Now(more).nodes[ws[i]].app| == Now(run).nodes[ws[i]].node.commit
    decreases k
  {
    hide IsRun;
    if k == 0 {
      more := run;
    } else {
      var before := AllApply(run, ws, k - 1);
      more := Applies(before, ws[k - 1]);
    }
  }

  // ---------------------------------------------------------------------------
  // What becomes of a proposal when enough servers listen
  // ---------------------------------------------------------------------------

  lemma OfferStep(c: Cluster, v: Id, data: seq<seq<Byte>>)
    requires WfCluster(c) && v in c.nodes && c.nodes[v].node.role == Leader && data != []
    ensures Enabled(c, Offer(v, data))
    ensures var d, n := Next(c, Do(Offer(v, data))), c.nodes[v].node;
      Alone(c, d, v) && var m := d.nodes[v].node;
      m.role == Leader && m.term == n.term && m.peers == n.peers && |m.log| > 0 && LastLogTerm(m.log) == n.term
  {
    var n := c.nodes[v].node;
    var es := Numbered(data, n.term, Last(n.log));
    assert (n.log + es)[|n.log| + |es| - 1] == es[|es| - 1];
  }

  lemma TeamOffers(run: seq<Cluster>, v: Id, q: seq<Id>, data: seq<seq<Byte>>) returns (more: seq<Cluster>)
    requires Team(run, v, q) && data != []
    ensures |more| > 0 && more == run + [Now(more)] && Team(more, v, q)
    ensures Moves(Now(run), Do(Offer(v, data)), Now(more))
    ensures LastLogTerm(Now(more).nodes[v].node.log) == Now(more).nodes[v].node.term
    ensures Now(more).servers == Now(run).servers
  {
    hide IsRun, Next, Enabled;
    RunsAreWellFormed(run, |run| - 1);
    OfferStep(Now(run), v, data);
    more := RunDoes(run, Offer(v, data));
    RunsAreWellFormed(more, |more| - 1);
    forall i | 0 <= i < |q|
      ensures Pair(more, v, q[i])
    {
      assert Pair(run, v, q[i]);
    }
  }

  /** What a leader's machine contains is what its log says. */
  lemma AppIsLog(run: seq<Cluster>, v: Id, x: nat)
    requires |run| > 0 && IsRun(run) && At(run, |run| - 1, v) && Now(run).nodes[v].node.role == Leader
    requires Holds(Now(run).nodes[v].node, x) && x <= |Now(run).nodes[v].app|
    ensures Now(run).nodes[v].app[x - 1] == EntryAt(Now(run).nodes[v].node, x)
  {
    hide IsRun, Inv, Rel, Grows, NodeRel, Valid, Shape, Committed, LogRel, MatchRel, FedAll;
    var h, k, top := TwoHistories(run, |run| - 1, |run| - 1);
    Explained(Now(run), h, v);
    LeaderIs(Now(run), h, v);
    EntryIs(Now(run).nodes[v].node, h.virt[v], h.cp[v], x);
  }

  /** The machine of `w` contains the batch that `n` took, at the indices it was given. */
  ghost predicate Contains(d: Cluster, w: Id, n: Node, data: seq<seq<Byte>>)
    requires |n.log| > 0
  {
    w in d.nodes && forall k :: 0 <= k < |data| ==> ContainsOne(d, w, n, data, k)
  }

  ghost predicate ContainsOne(d: Cluster, w: Id, n: Node, data: seq<seq<Byte>>, k: nat)
    requires |n.log| > 0 && w in d.nodes && k < |data|
  {
    var x := Last(n.log) + 1 + k;
    x <= |d.nodes[w].app| && d.nodes[w].app[x - 1] == Entry(x, n.term, data[k])
  }

  lemma LeaderContains(run: seq<Cluster>, offered: nat, v: Id, data: seq<seq<Byte>>)
    requires offered < |run| - 1 && IsRun(run) && At(run, offered, v) && NodeAt(run, offered, v).role == Leader
    requires Moves(run[offered], Do(Offer(v, data)), run[offered + 1]) && At(run, |run| - 1, v)
    requires var m := Now(run).nodes[v].node;
      v in run[offered + 1].nodes && m.log == run[offered + 1].nodes[v].node.log && m.role == Leader &&
      Last(m.log) <= |Now(run).nodes[v].app|
    ensures Contains(Now(run), v, NodeAt(run, offered, v), data)
  {
    hide IsRun, Moves;
    var n := NodeAt(run, offered, v);
    forall k | 0 <= k < |data|
      ensures ContainsOne(Now(run), v, n, data, k)
    {
      OfferedAt(run[offered], run[offered + 1], v, data, k);
      AppIsLog(run, v, Last(n.log) + 1 + k);
    }
  }

  lemma OthersContain(run: seq<Cluster>, v: Id, w: Id, n: Node, data: seq<seq<Byte>>)
    requires |run| > 0 && IsRun(run) && |n.log| > 0 && Contains(Now(run), v, n, data) && w in Now(run).nodes
    requires Last(n.log) + |data| <= |Now(run).nodes[w].app|
    ensures Contains(Now(run), w, n, data)
  {
    hide IsRun;
    forall k | 0 <= k < |data|
      ensures ContainsOne(Now(run), w, n, data, k)
    {
      assert ContainsOne(Now(run), v, n, data, k);
      StateMachineSafety(run, |run| - 1, v, |run| - 1, w, Last(n.log) + k);
    }
  }

  /** A leader and enough followers that listen to it can finish any batch of proposals: from
      every reachable state there is a way to one in which the machines of all of them contain it,
      at the indices given out when it was taken. */
  lemma Serves(run: seq<Cluster>, v: Id, q: seq<Id>, data: seq<seq<Byte>>) returns (more: seq<Cluster>)
    requires Team(run, v, q) && q != [] && Quorums.Majority(Now(run).servers, {v} + Elems(q)) && data != []
    ensures |more| > |run| && IsRun(more) && run <= more && Moves(Now(run), Do(Offer(v, data)), more[|run|])
    ensures forall w :: w == v || w in q ==> Contains(Now(more), w, Now(run).nodes[v].node, data)
  {
    hide IsRun, Quorums.Majority, Pair, Ready2, Moves, Contains;
    var n := Now(run).nodes[v].node;
    var offered := TeamOffers(run, v, q, data);
    var done := TeamCommits(offered, v, q);
    Apart(done, v, q);
    more := AllApply(done, [v] + q, 1 + |q|);
    assert more[|run| - 1] == Now(run) && more[|run|] == Now(offered);
    var m := Now(offered).nodes[v].node;
    OfferLength(Now(run), Now(offered), v, data);
    assert |Now(more).nodes[([v] + q)[0]].app| == Now(done).nodes[v].node.commit;
    LeaderContains(more, |run| - 1, v, data);
    forall w | w == v || w in q
      ensures Contains(Now(more), w, n, data)
    {
      if w != v {
        var i :| 0 <= i < |q| && q[i] == w;
        assert ([v] + q)[i + 1] == w;
        OthersContain(more, v, w, n, data);
      }
    }
  }

  lemma OfferLength(c: Cluster, d: Cluster, v: Id, data: seq<seq<Byte>>)
    requires Moves(c, Do(Offer(v, data)), d) && v in c.nodes && c.nodes[v].node.role == Leader
    ensures v in d.nodes && |d.nodes[v].node.log| > 0
    ensures Last(d.nodes[v].node.log) == Last(c.nodes[v].node.log) + |data|
  {
    var n := c.nodes[v].node;
    var es := Numbered(data, n.term, Last(n.log));
    if data != [] { assert (n.log + es)[|n.log| + |es| - 1] == es[|es| - 1]; } else { assert n.log + es == n.log; }
  }
}
