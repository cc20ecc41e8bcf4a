/**
  What every run of the cluster guarantees. The statements speak of the states of a run
  only; the history that explains them appears in the proofs.
*/
module RaftSafety {
  import opened RaftTypes
  import opened RaftLog
  import opened Persist
  import opened NodeSpec
  import opened ClusterSpec
  import opened History
  import opened HistorySteps
  import opened Relation
  import opened RelationAppend
  import opened RelationSnapshot
  import opened RunHistory

  ghost predicate At(run: seq<Cluster>, i: nat, v: Id)
  {
    i < |run| && v in run[i].nodes && |run[i].nodes[v].node.log| > 0
  }

  ghost function NodeAt(run: seq<Cluster>, i: nat, v: Id): Node
    requires At(run, i, v)
  {
    run[i].nodes[v].node
  }

  /** The server holds a real entry, not the sentinel, at index `k`. */
  ghost predicate Holds(n: Node, k: nat)
  {
    |n.log| > 0 && First(n.log) < k <= Last(n.log) && k - First(n.log) < |n.log|
  }

  ghost function EntryAt(n: Node, k: nat): Entry
    requires Holds(n, k)
  {
    n.log[k - First(n.log)]
  }

  // ---------------------------------------------------------------------------
  // From a run to its histories
  // ---------------------------------------------------------------------------

  lemma Explained(c: Cluster, h: Hist, v: Id)
    requires Explains(c, h) && v in c.nodes
    ensures v in h.servers && NodeRel(c.nodes[v], h, v) && Wf(c.nodes[v].node.log)
    ensures LogRel(c.nodes[v].node.log, h.virt[v], h.cp[v]) && c.nodes[v].node.term == h.term[v]
    ensures CursorRel(c.nodes[v], h.cp[v]) && Committed(h, h.cp[v], h.term[v])
    ensures Shape(h.virt[v]) && Valid(h, h.virt[v])
  {
    hide Inv, NodeRel, LogRel, CursorRel, TallyRel, RpcRel, ReplyRel, Shape, Valid, Committed;
    RelParts(c, h, v);
    NodeParts(c.nodes[v], h, v);
    KnownAt(h, v) by { InvParts(h); }
    VirtShape(h, v) by { InvParts(h); }
  }

  lemma EntryIs(n: Node, L: seq<Entry>, K: seq<Entry>, k: nat)
    requires LogRel(n.log, L, K) && First(n.log) < k <= Last(n.log)
    ensures Holds(n, k) && k <= |L| && EntryAt(n, k) == L[k - 1]
  {
  }

  /** Two histories of one run, the later one last. */
  lemma TwoHistories(run: seq<Cluster>, i: nat, j: nat) returns (h: Hist, k: Hist, top: Hist)
    requires IsRun(run) && i < |run| && j < |run|
    ensures Explains(run[i], h) && Explains(run[j], k)
    ensures Grows(h, top) && Grows(k, top) && Basic(top) && Inv(top) && (top == h || top == k)
    ensures i <= j ==> top == k && Grows(h, k)
  {
    hide Inv, Rel, Grows, IsRun;
    var hs := RunHasHistory(run);
    h, k := hs[i], hs[j];
    top := if i <= j then k else h;
  }

  // ---------------------------------------------------------------------------
  // State Machine Safety
  // ---------------------------------------------------------------------------

  /** No two state machines ever contain different entries at the same index, at whatever
      moments of a run they are looked at, and whether the entry came as a command or inside
      a snapshot. */
  lemma StateMachineSafety(run: seq<Cluster>, i: nat, v: Id, j: nat, w: Id, x: nat)
    requires IsRun(run) && i < |run| && v in run[i].nodes && j < |run| && w in run[j].nodes
    requires x < |run[i].nodes[v].app| && x < |run[j].nodes[w].app|
    ensures run[i].nodes[v].app[x] == run[j].nodes[w].app[x]
  {
    hide Inv, Rel, Grows, IsRun, NodeRel, LogRel, Shape, Valid, Committed;
    var h, k, top := TwoHistories(run, i, j);
    var a := AppCommitted(run[i], h, v, top);
    var b := AppCommitted(run[j], k, w, top);
    PrefixesAgree(top, run[i].nodes[v].app, a, run[j].nodes[w].app, b, x);
  }

  lemma AppCommitted(c: Cluster, h: Hist, v: Id, top: Hist) returns (t: nat)
    requires Explains(c, h) && v in c.nodes && Grows(h, top)
    ensures Committed(top, c.nodes[v].app, t)
  {
    hide Inv, Rel, Grows, NodeRel, LogRel, Shape, Valid, Committed;
    Explained(c, h, v);
    var app := c.nodes[v].app;
    CommittedPrefix(h, h.cp[v], h.term[v], |app|);
    assert app == h.cp[v][..|app|];
    t := h.term[v];
    CommittedGrows(h, top, app, t, t);
  }

  lemma PrefixesAgree(h: Hist, a: seq<Entry>, t: nat, b: seq<Entry>, u: nat, x: nat)
    requires Basic(h) && Inv(h) && Committed(h, a, t) && Committed(h, b, u) && x < |a| && x < |b|
    ensures a[x] == b[x]
  {
    hide Inv, Committed;
    InvCommits(h);
    if |a| <= |b| { CommittedAgree(h, a, t, b, u); } else { CommittedAgree(h, b, u, a, t); }
  }

  lemma InvCommits(h: Hist)
    requires Inv(h)
    ensures CommitsOk(h) && Complete(h)
  {
  }

  /** What is about to reach a state machine fits it: the command of the next index, or a
      snapshot that is newer and extends what the machine contains. */
  lemma DeliveryInOrder(run: seq<Cluster>, i: nat, v: Id)
    requires IsRun(run) && i < |run| && v in run[i].nodes && run[i].nodes[v].queue != []
    ensures var r := run[i].nodes[v];
      match r.queue[0]
      case Command(e) => e.index == |r.app| + 1
      case Restore(s) => |r.app| < s.index == |s.image| && r.app <= s.image
  {
    hide Inv, Rel, Grows, IsRun, NodeRel, LogRel, Valid, Committed;
    var h, k, top := TwoHistories(run, i, i);
    Explained(run[i], h, v);
    CommittedShape(h, h.cp[v], h.term[v]) by { InvParts(h); }
  }

  // ---------------------------------------------------------------------------
  // Elections
  // ---------------------------------------------------------------------------

  lemma LeaderIs(c: Cluster, h: Hist, v: Id)
    requires Explains(c, h) && v in c.nodes && c.nodes[v].node.role == Leader
    ensures v in h.servers && LeaderRel(c.nodes[v].node, h, v) && h.term[v] == c.nodes[v].node.term
  {
    hide Inv, NodeRel, LogRel, CursorRel, TallyRel, RpcRel, ReplyRel, LeaderRel;
    RelParts(c, h, v);
    NodeParts(c.nodes[v], h, v);
  }

  /** Election Safety: no term ever has two leaders. */
  lemma ElectionSafety(run: seq<Cluster>, i: nat, v: Id, j: nat, w: Id)
    requires IsRun(run) && At(run, i, v) && At(run, j, w)
    requires NodeAt(run, i, v).role == Leader && NodeAt(run, j, w).role == Leader
    requires NodeAt(run, i, v).term == NodeAt(run, j, w).term
    ensures v == w
  {
    hide Inv, Rel, IsRun, NodeRel, LogRel;
    var h, k, top := TwoHistories(run, i, j);
    LeaderIs(run[i], h, v);
    LeaderIs(run[j], k, w);
  }

  /** Leader Completeness: whatever a leader knows to be committed is in the log, or under the
      snapshot, of every leader of a later term. */
  lemma LeaderCompleteness(run: seq<Cluster>, i: nat, v: Id, j: nat, w: Id, x: nat)
    requires IsRun(run) && At(run, i, v) && At(run, j, w)
    requires NodeAt(run, i, v).role == Leader && NodeAt(run, j, w).role == Leader
    requires NodeAt(run, i, v).term < NodeAt(run, j, w).term
    requires Holds(NodeAt(run, i, v), x) && x <= NodeAt(run, i, v).commit
    ensures var n := NodeAt(run, j, w);
      if x > First(n.log) then Holds(n, x) && EntryAt(n, x) == EntryAt(NodeAt(run, i, v), x)
      else x <= |n.disk.snap.image| && n.disk.snap.image[x - 1] == EntryAt(NodeAt(run, i, v), x)
  {
    hide Inv, Rel, IsRun, NodeRel, LogRel, Grows, Shape, Valid, Committed, CursorRel, MatchRel;
    var h, k, top := TwoHistories(run, i, j);
    var n, m := NodeAt(run, i, v), NodeAt(run, j, w);
    LeaderIs(run[i], h, v);
    LeaderIs(run[j], k, w);
    Explained(run[i], h, v);
    Explained(run[j], k, w);
    CursorParts(run[i].nodes[v], h.cp[v]);
    EntryIs(n, h.virt[v], h.cp[v], x);
    CommittedGrows(h, top, h.cp[v], n.term, n.term);
    LaterLeaderHas(k, top, h.cp[v], n.term, m.term, x) by { InvParts(top); }
    LogRelWf(m.log, k.virt[w], k.cp[w]);
    if x > First(m.log) {
      EntryIs(m, k.virt[w], k.cp[w], x);
    } else {
      CursorParts(run[j].nodes[w], k.cp[w]);
    }
  }

  /** The leader log of `U` had the committed entry from its election on: what a leader adds
      later carries its own term. */
  lemma LaterLeaderHas(k: Hist, top: Hist, L: seq<Entry>, t: nat, U: nat, x: nat)
    requires Basic(top) && LogsOk(top) && CommitsOk(top) && Complete(top) && Grows(k, top)
    requires Committed(top, L, t) && t < U && U in k.llog && 1 <= x <= |L|
    ensures x <= |k.llog[U]| && k.llog[U][x - 1] == L[x - 1]
  {
    hide LogsOk, CommitsOk, Complete, Grows, Committed, Valid;
    LeaderLogGrows(k, top, U);
    LeaderHasCommitted(top, L, t, U);
    CommittedShape(top, L, t);
    assert top.llog[U][x - 1] == L[x - 1];
  }

  lemma LeaderLogGrows(k: Hist, top: Hist, U: nat)
    requires Grows(k, top) && U in k.llog
    ensures U in top.llog && k.llog[U] <= top.llog[U]
    ensures forall i :: |k.llog[U]| <= i < |top.llog[U]| ==> top.llog[U][i].term == U
  {
  }

  // ---------------------------------------------------------------------------
  // What becomes of a proposal
  // ---------------------------------------------------------------------------

  /** Command `k` of a batch that leader `v` takes in state `i` gets an index and a term. The
      entry delivered at that index, by whatever server and whenever, is the proposed one if
      and only if it carries that term; the index alone does not tell. */
  lemma ProposalDelivered(run: seq<Cluster>, i: nat, v: Id, data: seq<seq<Byte>>, k: nat, j: nat, w: Id)
    requires IsRun(run) && At(run, i, v) && NodeAt(run, i, v).role == Leader && k < |data|
    requires i + 1 < |run| && Moves(run[i], Do(Offer(v, data)), run[i + 1]) && j < |run| && w in run[j].nodes
    requires var x := Last(NodeAt(run, i, v).log) + 1 + k; x <= |run[j].nodes[w].app|
    ensures var n := NodeAt(run, i, v); var x := Last(n.log) + 1 + k;
      run[j].nodes[w].app[x - 1] == Entry(x, n.term, data[k]) <==> run[j].nodes[w].app[x - 1].term == n.term
  {
    hide Inv, Rel, Grows, IsRun, NodeRel, LogRel, CursorRel, Shape, Valid, Committed, LeaderRel, Moves;
    var n := NodeAt(run, i, v);
    var x := Last(n.log) + 1 + k;
    OfferedAt(run[i], run[i + 1], v, data, k);
    var h, g, top := TwoHistories(run, i + 1, j);
    LeaderEntry(run[i + 1], h, v, x);
    LeaderLogGrows(h, top, n.term);
    var t := AppCommitted(run[j], g, w, top);
    if run[j].nodes[w].app[x - 1].term == n.term {
      CommittedEntry(top, run[j].nodes[w].app, t, x) by { InvParts(top); }
    }
  }

  /** Real-time order: whatever any machine contained before a proposal was taken comes before it.
      If the proposal is delivered at its index `y`, all of that lies below `y`. */
  lemma WritesInOrder(run: seq<Cluster>, i: nat, u: Id, j: nat, v: Id, k: nat, m: nat, w: Id)
    requires IsRun(run) && i <= j && i < |run| && u in run[i].nodes && m < |run| && w in run[m].nodes
    requires At(run, j, v) && NodeAt(run, j, v).role == Leader
    requires var n := NodeAt(run, j, v); var y := Last(n.log) + 1 + k;
      y <= |run[m].nodes[w].app| && run[m].nodes[w].app[y - 1].term == n.term
    ensures var y := Last(NodeAt(run, j, v).log) + 1 + k; run[i].nodes[u].app <= run[m].nodes[w].app[..y - 1]
  {
    hide Inv, Rel, Grows, IsRun, NodeRel, LogRel, CursorRel, Shape, Valid, Committed, LeaderRel;
    var y := Last(NodeAt(run, j, v).log) + 1 + k;
    var a, b := run[i].nodes[u].app, run[m].nodes[w].app;
    if |a| >= y {
      StateMachineSafety(run, i, u, m, w, y - 1);
      NotYetThere(run, i, u, j, v, y);
    }
    forall x | 0 <= x < |a|
      ensures a[x] == b[x]
    {
      StateMachineSafety(run, i, u, m, w, x);
    }
  }

  /** Beyond the end of a leader's log no machine has an entry of the leader's term yet. */
  lemma NotYetThere(run: seq<Cluster>, i: nat, u: Id, j: nat, v: Id, y: nat)
    requires IsRun(run) && i <= j && i < |run| && u in run[i].nodes && 1 <= y <= |run[i].nodes[u].app|
    requires At(run, j, v) && NodeAt(run, j, v).role == Leader && y > Last(NodeAt(run, j, v).log)
    ensures run[i].nodes[u].app[y - 1].term != NodeAt(run, j, v).term
  {
    hide Inv, Rel, Grows, IsRun, NodeRel, LogRel, CursorRel, Shape, Valid, Committed, MatchRel;
    var h, g, top := TwoHistories(run, i, j);
    var t := AppCommitted(run[i], h, u, g);
    CommittedEntry(g, run[i].nodes[u].app, t, y) by { InvParts(g); }
    LeaderIs(run[j], g, v);
    Explained(run[j], g, v);
    LogRelWf(NodeAt(run, j, v).log, g.virt[v], g.cp[v]);
  }

  lemma OfferedAt(c: Cluster, d: Cluster, v: Id, data: seq<seq<Byte>>, k: nat)
    requires Moves(c, Do(Offer(v, data)), d) && v in c.nodes && c.nodes[v].node.role == Leader && k < |data|
    ensures |c.nodes[v].node.log| > 0 && v in d.nodes && d.nodes[v].node.role == Leader
    ensures d.nodes[v].node.term == c.nodes[v].node.term
    ensures var n := c.nodes[v].node; var x := Last(n.log) + 1 + k;
      Holds(d.nodes[v].node, x) && EntryAt(d.nodes[v].node, x) == Entry(x, n.term, data[k])
  {
    hide Done, Points;
    var n := c.nodes[v].node;
    var es := Numbered(data, n.term, Last(n.log));
    assert (n.log + es)[|n.log| + k] == es[k];
    assert (n.log + es)[|n.log| + |es| - 1] == es[|es| - 1];
  }

  /** What a leader holds at `x` is what the leader log of its term has there. */
  lemma LeaderEntry(c: Cluster, h: Hist, v: Id, x: nat)
    requires Explains(c, h) && v in c.nodes && c.nodes[v].node.role == Leader && Holds(c.nodes[v].node, x)
    ensures var T := c.nodes[v].node.term;
      T in h.llog && 1 <= x <= |h.llog[T]| && h.llog[T][x - 1] == EntryAt(c.nodes[v].node, x)
  {
    hide Inv, Rel, Grows, NodeRel, LogRel, CursorRel, Shape, Valid, Committed, MatchRel;
    LeaderIs(c, h, v);
    Explained(c, h, v);
    EntryIs(c.nodes[v].node, h.virt[v], h.cp[v], x);
  }

  /** A committed entry of term `T` is the one the leader of `T` had at its index. */
  lemma CommittedEntry(h: Hist, L: seq<Entry>, t: nat, x: nat)
    requires Basic(h) && LogsOk(h) && Committed(h, L, t) && 1 <= x <= |L|
    ensures var T := L[x - 1].term; T in h.llog && x <= |h.llog[T]| && h.llog[T][x - 1] == L[x - 1]
  {
    CommittedShape(h, L, t);
    assert Agree(L, h.llog[L[x - 1].term], x);
  }

  // ---------------------------------------------------------------------------
  // Log Matching
  // ---------------------------------------------------------------------------

  /** Log Matching with compaction: if two servers, at any two moments, hold an entry of the
      same index and term, they hold equal entries wherever both hold one up to that index. */
  lemma LogMatchingRetained(run: seq<Cluster>, i: nat, v: Id, j: nat, w: Id, x: nat, y: nat)
    requires IsRun(run) && At(run, i, v) && At(run, j, w) && y <= x
    requires Holds(NodeAt(run, i, v), x) && Holds(NodeAt(run, j, w), x)
    requires EntryAt(NodeAt(run, i, v), x).term == EntryAt(NodeAt(run, j, w), x).term
    requires Holds(NodeAt(run, i, v), y) && Holds(NodeAt(run, j, w), y)
    ensures EntryAt(NodeAt(run, i, v), y) == EntryAt(NodeAt(run, j, w), y)
  {
    hide Inv, Rel, IsRun, NodeRel, LogRel, Grows, Shape, Valid, Committed, CursorRel;
    var h, k, top := TwoHistories(run, i, j);
    Explained(run[i], h, v);
    Explained(run[j], k, w);
    EntryIs(NodeAt(run, i, v), h.virt[v], h.cp[v], x);
    EntryIs(NodeAt(run, j, w), k.virt[w], k.cp[w], x);
    EntryIs(NodeAt(run, i, v), h.virt[v], h.cp[v], y);
    EntryIs(NodeAt(run, j, w), k.virt[w], k.cp[w], y);
    MatchAcross(h, k, top, h.virt[v], k.virt[w], x);
  }

  lemma MatchAcross(h: Hist, k: Hist, top: Hist, a: seq<Entry>, b: seq<Entry>, x: nat)
    requires Grows(h, top) && Grows(k, top) && Valid(h, a) && Valid(k, b)
    requires 1 <= x <= |a| && x <= |b| && a[x - 1].term == b[x - 1].term
    ensures Agree(a, b, x)
  {
    ValidGrows(h, top, a);
    ValidGrows(k, top, b);
    LogMatching(top, a, b, x - 1);
  }

  /** The sentinel of a server whose commit index is above it, or that leads, matches too. */
  lemma SentinelMatches(run: seq<Cluster>, i: nat, v: Id, j: nat, w: Id, x: nat)
    requires IsRun(run) && At(run, i, v) && At(run, j, w)
    requires NodeAt(run, i, v).commit > First(NodeAt(run, i, v).log) || NodeAt(run, i, v).role == Leader
    requires Holds(NodeAt(run, i, v), x) && Holds(NodeAt(run, j, w), x)
    requires EntryAt(NodeAt(run, i, v), x).term == EntryAt(NodeAt(run, j, w), x).term
    requires Holds(NodeAt(run, j, w), First(NodeAt(run, i, v).log))
    ensures EntryAt(NodeAt(run, j, w), First(NodeAt(run, i, v).log)).term == NodeAt(run, i, v).log[0].term
  {
    hide Inv, Rel, IsRun, NodeRel, Grows, Shape, Valid, Committed, CursorRel;
    var h, k, top := TwoHistories(run, i, j);
    var n, m := NodeAt(run, i, v), NodeAt(run, j, w);
    Explained(run[i], h, v);
    Explained(run[j], k, w);
    EntryIs(n, h.virt[v], h.cp[v], x);
    EntryIs(m, k.virt[w], k.cp[w], x);
    EntryIs(m, k.virt[w], k.cp[w], First(n.log));
    MatchAcross(h, k, top, h.virt[v], k.virt[w], x);
    CursorParts(run[i].nodes[v], h.cp[v]);
    if n.role == Leader { LeaderIs(run[i], h, v); }
  }

  // ---------------------------------------------------------------------------
  // A kept suffix that disagrees with its snapshot
  // ---------------------------------------------------------------------------

  /** A server that holds an entry of a term below its sentinel's has committed nothing above
      the sentinel and does not lead. */
  lemma LowSuffixHarmless(run: seq<Cluster>, i: nat, v: Id, x: nat)
    requires IsRun(run) && At(run, i, v) && Holds(NodeAt(run, i, v), x)
    requires EntryAt(NodeAt(run, i, v), x).term < NodeAt(run, i, v).log[0].term
    ensures NodeAt(run, i, v).commit == First(NodeAt(run, i, v).log) && NodeAt(run, i, v).role != Leader
  {
    hide Inv, Rel, IsRun, NodeRel, Grows, Valid, Committed, CursorRel;
    var h, k, top := TwoHistories(run, i, i);
    var n := NodeAt(run, i, v);
    Explained(run[i], h, v);
    EntryIs(n, h.virt[v], h.cp[v], x);
    CursorParts(run[i].nodes[v], h.cp[v]);
    if n.role == Leader { LeaderIs(run[i], h, v); }
  }

  /** The server keeps, above a snapshot at `s`, an entry from a log that had another term at
      `s` than the snapshot has. */
  ghost predicate KeptAcross(before: Node, after: Node, s: nat)
  {
    Holds(before, s) && Holds(before, s + 1) && Holds(after, s + 1) && First(after.log) == s &&
    EntryAt(after, s + 1) == EntryAt(before, s + 1) && after.log[0].term != EntryAt(before, s).term
  }

  /** Whatever its term, such a suffix is harmless: for as long as the server keeps that entry
      above that sentinel it commits nothing above the sentinel and does not lead. */
  lemma DisagreeingSuffixHarmless(run: seq<Cluster>, i: nat, j: nat, v: Id, s: nat)
    requires IsRun(run) && At(run, i, v) && At(run, j, v) && KeptAcross(NodeAt(run, i, v), NodeAt(run, j, v), s)
    ensures NodeAt(run, j, v).commit == s && NodeAt(run, j, v).role != Leader
  {
    hide Inv, Rel, IsRun, NodeRel, Grows, Valid, Committed, CursorRel, Shape;
    var h, k, top := TwoHistories(run, i, j);
    var n, m := NodeAt(run, i, v), NodeAt(run, j, v);
    Explained(run[i], h, v);
    Explained(run[j], k, v);
    EntryIs(n, h.virt[v], h.cp[v], s);
    EntryIs(n, h.virt[v], h.cp[v], s + 1);
    EntryIs(m, k.virt[v], k.cp[v], s + 1);
    MatchAcross(h, k, top, h.virt[v], k.virt[v], s + 1);
    CursorParts(run[j].nodes[v], k.cp[v]);
    if m.role == Leader { LeaderIs(run[j], k, v); }
  }

  // ---------------------------------------------------------------------------
  // Cursors
  // ---------------------------------------------------------------------------

  /** The cursor chain: firstIndex <= lastApplied <= commitIndex <= lastIndex, and the durable
      snapshot lies between the first two; so every entry the applier reads is in the log. */
  lemma CursorChain(run: seq<Cluster>, i: nat, v: Id)
    requires IsRun(run) && i < |run| && v in run[i].nodes
    ensures var n := run[i].nodes[v].node;
      Wf(n.log) && First(n.log) <= n.disk.snap.index <= n.applied <= n.commit <= Last(n.log) && BatchInLog(n)
    ensures var n := run[i].nodes[v].node; forall k :: n.applied < k <= n.commit ==> Holds(n, k)
  {
    hide Inv, Rel, IsRun, NodeRel, Grows, Valid, Committed, CursorRel, Shape;
    var h, k, top := TwoHistories(run, i, i);
    Explained(run[i], h, v);
    CursorParts(run[i].nodes[v], h.cp[v]);
  }

  /** No state of a run is stuck outside the model: logs are well formed and every reply fits its request. */
  lemma RunsAreWellFormed(run: seq<Cluster>, i: nat)
    requires IsRun(run) && i < |run|
    ensures WfCluster(run[i]) && forall y :: y in run[i].replies ==> y.rpc in run[i].sent && Fits(y.rpc.req, y.resp)
  {
    hide Inv, IsRun, NodeRel, Grows, TallyRel, RpcRel;
    var h, k, top := TwoHistories(run, i, i);
    forall y | y in run[i].replies
      ensures y.rpc in run[i].sent && Fits(y.rpc.req, y.resp)
    {
      assert ReplyRel(y, h);
    }
  }

  /** Between restarts the commit index never moves back. */
  lemma CommitMonotone(c: Cluster, a: Action, v: Id)
    requires WfCluster(c) && Enabled(c, a) && v in c.nodes
    ensures c.nodes[v].node.commit <= Next(c, Do(a)).nodes[v].node.commit
  {
    if v == Actor(a) {
      var r := c.nodes[v];
      match a
      case Serve(rpc, recent) => ServeMonotone(r, rpc, recent);
      case Receive(y) => ReceiveMonotone(r, y);
      case Campaign(_) =>
      case Refuse(_) =>
      case SendAppend(_, _, _) =>
      case SendSnapshot(_, _) =>
      case Offer(_, _) =>
      case Hear(_, _) =>
      case Resign(_) =>
      case Compact(_, raw) => TakeMonotone(r.node, |r.app|, r.app, raw);
      case Collect(_) =>
      case Consume(_) =>
    }
  }

  lemma ServeMonotone(r: Replica, rpc: Rpc, recent: bool)
    requires Wf(r.node.log)
    ensures r.node.commit <= ServeEffect(r, rpc, recent).replica.node.commit
  {
    hide FirstNew, ConflictHint, CompactedTo, Done, Points;
  }

  lemma ReceiveMonotone(r: Replica, y: Reply)
    requires Wf(r.node.log) && Fits(y.rpc.req, y.resp)
    ensures r.node.commit <= ReceiveEffect(r, y).replica.node.commit
  {
    hide Backed, Done, Points, Raised, CommitScan;
    if y.rpc.req.AskAppend? {
      var n, m := r.node, y.rpc.req.append.prevIndex + |y.rpc.req.append.entries|;
      ScanAbove(n.(matched := Raised(n.matched, y.rpc.to, m), next := Raised(n.next, y.rpc.to, m + 1)), Last(n.log));
    }
  }

  lemma {:induction false} ScanAbove(n: Node, idx: nat)
    requires Wf(n.log)
    ensures CommitScan(n, idx) >= n.commit
    decreases idx
  {
    if idx > n.commit { ScanAbove(n, idx - 1); }
  }

  lemma TakeMonotone(n: Node, i: nat, app: seq<Entry>, raw: seq<Byte>)
    requires Wf(n.log)
    ensures TakeSnapshot(n, i, app, raw).node.commit == n.commit
  {
  }
}
