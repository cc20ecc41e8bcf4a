/**
  The key-value machine on top of Raft: every replica's machine is the fold of the commands
  its state machine contains, whatever mixture of commands, local snapshots, installed
  snapshots and restarts brought it there; and by State Machine Safety those folds agree.
*/
module KvReplica {
  import opened RaftTypes
  import opened RaftLog
  import opened Persist
  import opened NodeSpec
  import opened ClusterSpec
  import opened KvMachine
  import KvCommand
  import RaftSafety
  import RaftReads
  import RaftNode

  /** One delivered entry. One that holds no command stops the process, so it has no effect. */
  function Consumed(s: State, e: Entry): State
  {
    var c := KvCommand.Decode(e.data);
    if c.Some? then Apply(s, c.value).state else s
  }

  /** The plain fold over a list of entries. */
  function MachineOf(es: seq<Entry>): State
  {
    if es == [] then EMPTY else Consumed(MachineOf(es[..|es| - 1]), es[|es| - 1])
  }

  /** The commands in a list of entries. */
  function CommandsOf(es: seq<Entry>): seq<KvCommand.Command>
  {
    if es == [] then []
    else
      var c := KvCommand.Decode(es[|es| - 1].data);
      CommandsOf(es[..|es| - 1]) + if c.Some? then [c.value] else []
  }

  /** So everything proved of `Run` holds of every replica. */
  lemma {:induction false} MachineIsRun(es: seq<Entry>)
    ensures MachineOf(es) == KvMachine.Run(CommandsOf(es))
    decreases |es|
  {
    hide Apply, KvCommand.Decode;
    if es != [] {
      var init := CommandsOf(es[..|es| - 1]);
      MachineIsRun(es[..|es| - 1]);
      var c := KvCommand.Decode(es[|es| - 1].data);
      if c.Some? {
        assert (init + [c.value])[..|init|] == init;
      } else {
        assert init + [] == init;
      }
    }
  }

  // ---------------------------------------------------------------------------
  // Snapshots only ever come from a compaction
  // ---------------------------------------------------------------------------

  /** A snapshot that a server has somewhere: on disk, in memory, or on its way up. */
  ghost predicate Has(r: Replica, s: Snap)
  {
    s == r.node.disk.snap || s == r.node.cache || r.node.pending == Some(s) || Restore(s) in r.queue
  }

  ghost predicate AllHave(r: Replica, P: Snap -> bool)
  {
    forall s :: Has(r, s) ==> P(s)
  }

  ghost predicate SentHave(sent: set<Rpc>, P: Snap -> bool)
  {
    forall x :: x in sent && x.req.AskInstall? ==> P(x.req.install.snap)
  }

  ghost predicate AllSnaps(c: Cluster, P: Snap -> bool)
  {
    (forall v :: v in c.nodes ==> AllHave(c.nodes[v], P)) && SentHave(c.sent, P)
  }

  /** The snapshot a compaction takes. */
  function Taken(r: Replica, raw: seq<Byte>): Snap
    requires Wf(r.node.log)
  {
    var t := TermAt(r.node.log, |r.app|);
    Snap(|r.app|, if t.Some? then t.value else 0, r.app, raw)
  }

  ghost predicate TrailHas(trail: seq<Disk>, P: Snap -> bool)
  {
    forall k :: 0 <= k < |trail| ==> P(trail[k].snap)
  }

  lemma PointsHave(d: Disk, c: Call, P: Snap -> bool)
    requires P(d.snap) && (c.SaveSnapshot? ==> P(c.snap))
    ensures TrailHas(Points(d, c), P) && P(Done(d, c).snap)
  {
    if c.AppendEntries? {
      forall k | 0 <= k < |Points(d, c)|
        ensures Points(d, c)[k].snap == d.snap
      {
        assert Points(d, c)[k] == AddEntries(d, c.entries[..k + 1]);
      }
    }
  }

  lemma AdoptHas(n: Node, t: nat, P: Snap -> bool)
    requires P(n.disk.snap)
    ensures TrailHas(AdoptTrail(n, t), P) && P(Adopted(n, t).disk.snap)
    ensures Adopted(n, t).cache == n.cache && Adopted(n, t).pending == n.pending && Adopted(n, t).log == n.log
  {
    hide Points, Done;
    PointsHave(n.disk, SaveHardState(t, NO_VOTE), P);
  }

  lemma MergeHas(n: Node, es: seq<Entry>, P: Snap -> bool)
    requires Wf(n.log) && P(n.disk.snap)
    ensures TrailHas(MergeTrail(n, es), P) && P(Merged(n, es).disk.snap)
    ensures Merged(n, es).cache == n.cache && Merged(n, es).pending == n.pending
  {
    hide Points, Done, FirstNew;
    var i := FirstNew(n.log, es);
    if i < |es| {
      var d := Done(n.disk, TruncateFrom(es[i].index));
      PointsHave(n.disk, TruncateFrom(es[i].index), P);
      PointsHave(d, AppendEntries(es[i..]), P);
      PointsHave(n.disk, AppendEntries(es[i..]), P);
    }
  }

  ghost predicate NodeHas(n: Node, P: Snap -> bool)
  {
    P(n.disk.snap) && P(n.cache) && (n.pending.Some? ==> P(n.pending.value))
  }

  lemma VoteHas(n: Node, q: VoteRequest, recent: bool, P: Snap -> bool)
    requires |n.log| > 0 && NodeHas(n, P)
    ensures NodeHas(HandleVote(n, q, recent).node, P) && TrailHas(HandleVote(n, q, recent).trail, P)
  {
    hide Points, Done, AtLeastAsUpToDate, Adopted, AdoptTrail;
    AdoptHas(n, q.term, P);
    var m := Adopted(n, q.term);
    PointsHave(m.disk, SaveHardState(m.term, q.candidate), P);
  }

  lemma AppendHas(n: Node, q: AppendRequest, P: Snap -> bool)
    requires Wf(n.log) && NodeHas(n, P)
    ensures NodeHas(HandleAppend(n, q).node, P) && TrailHas(HandleAppend(n, q).trail, P)
  {
    hide Adopted, AdoptTrail, Merged, MergeTrail, Checked;
    AdoptHas(n, q.term, P);
    MergeHas(Adopted(n, q.term).(role := Follower, leaderId := q.leader), q.entries, P);
  }

  lemma InstallHas(n: Node, q: SnapRequest, P: Snap -> bool)
    requires Wf(n.log) && NodeHas(n, P) && P(q.snap)
    ensures NodeHas(HandleSnapshot(n, q).node, P) && TrailHas(HandleSnapshot(n, q).trail, P)
  {
    hide Adopted, AdoptTrail, CompactedTo, Points, Done;
    AdoptHas(n, q.term, P);
    var m := Adopted(n, q.term);
    var log := CompactedTo(m.log, q.snap.index, q.snap.term);
    PointsHave(m.disk, SaveSnapshot(q.snap, m.term, m.vote, log[1..]), P);
  }

  lemma ReceiveHas(r: Replica, y: Reply, P: Snap -> bool)
    requires Wf(r.node.log) && Fits(y.rpc.req, y.resp) && NodeHas(r.node, P)
    ensures NodeHas(ReceiveEffect(r, y).replica.node, P) && TrailHas(ReceiveEffect(r, y).trail, P)
    ensures ReceiveEffect(r, y).replica.queue == r.queue && ReceiveEffect(r, y).rpcs == {}
  {
    hide Points, Done, CommitScan, Backed, Cursors;
    var t := match y.resp case Voted(a) => a.term case Appended(a) => a.term case Installed(a) => a.term;
    AdoptHas(r.node, t, P);
  }

  lemma TakeHas(r: Replica, raw: seq<Byte>, P: Snap -> bool)
    requires Wf(r.node.log) && NodeHas(r.node, P) && P(Taken(r, raw))
    ensures var o := TakeSnapshot(r.node, |r.app|, r.app, raw); NodeHas(o.node, P) && TrailHas(o.trail, P)
  {
    hide Trimmed, Points, Done;
    var n := r.node;
    PointsHave(n.disk, SaveSnapshot(Taken(r, raw), n.term, n.vote, Trimmed(n, |r.app|)[1..]), P);
  }

  /** What one action leaves behind holds only snapshots that were there, or the one it took. */
  lemma ActHas(c: Cluster, a: Action, P: Snap -> bool)
    requires WfCluster(c) && Enabled(c, a) && AllSnaps(c, P) && (a.Compact? ==> P(Taken(c.nodes[a.v], a.raw)))
    ensures var f := EffectOf(c, a);
      NodeHas(f.replica.node, P) && TrailHas(f.trail, P) && SentHave(f.rpcs, P) &&
      forall s :: Restore(s) in f.replica.queue ==> P(s)
  {
    hide HandleVote, HandleAppend, HandleSnapshot, ReceiveEffect, TakeSnapshot, Points, Done, BuildAppend, Batch,
      Numbered, Taken, Adopted, AdoptTrail, Cursors;
    var r := c.nodes[Actor(a)];
    HasParts(r, P);
    match a
    case Serve(rpc, recent) =>
      match rpc.req {
        case AskVote(q) => VoteHas(r.node, q, recent, P);
        case AskAppend(q) => AppendHas(r.node, q, P);
        case AskInstall(q) => InstallHas(r.node, q, P);
      }
    case Receive(y) => ReceiveHas(r, y, P);
    case Compact(_, raw) => TakeHas(r, raw, P);
    case Campaign(_) => PointsHave(r.node.disk, SaveHardState(r.node.term + 1, r.node.id), P);
    case Offer(_, data) => PointsHave(r.node.disk, AppendEntries(Numbered(data, r.node.term, Last(r.node.log))), P);
    case Hear(_, t) => AdoptHas(r.node, t, P);
    case Collect(_) =>
    case Consume(_) =>
    case Refuse(_) =>
    case SendAppend(_, _, _) =>
    case SendSnapshot(_, _) =>
    case Resign(_) =>
  }

  lemma HasParts(r: Replica, P: Snap -> bool)
    requires AllHave(r, P)
    ensures NodeHas(r.node, P) && forall s :: Restore(s) in r.queue ==> P(s)
  {
    assert Has(r, r.node.disk.snap) && Has(r, r.node.cache);
    if r.node.pending.Some? { assert Has(r, r.node.pending.value); }
    forall s | Restore(s) in r.queue
      ensures P(s)
    {
      assert Has(r, s);
    }
  }

  lemma RebootHas(r: Replica, d: Disk, P: Snap -> bool)
    requires P(d.snap) && P(NO_SNAP)
    ensures AllHave(Rebooted(r, d), P)
  {
    hide Replay;
  }

  lemma StepHas(c: Cluster, e: Event, P: Snap -> bool)
    requires WfCluster(c) && Ready(c, e) && AllSnaps(c, P) && P(NO_SNAP)
    requires (e.Do? || e.CrashIn?) && e.a.Compact? ==> P(Taken(c.nodes[e.a.v], e.a.raw))
    ensures AllSnaps(Next(c, e), P)
  {
    hide EffectOf, Rebooted, AllHave, Taken;
    match e
    case Do(a) =>
      ActHas(c, a, P);
      FromParts(EffectOf(c, a).replica, P);
    case CrashIn(a, k) =>
      ActHas(c, a, P);
      RebootHas(c.nodes[Actor(a)], EffectOf(c, a).trail[k], P);
    case Crash(v) =>
      HasParts(c.nodes[v], P);
      RebootHas(c.nodes[v], c.nodes[v].node.disk, P);
  }

  lemma FromParts(r: Replica, P: Snap -> bool)
    requires NodeHas(r.node, P) && forall s :: Restore(s) in r.queue ==> P(s)
    ensures AllHave(r, P)
  {
  }

  // ---------------------------------------------------------------------------
  // The machines along a run
  // ---------------------------------------------------------------------------

  /** A run together with its events. */
  ghost predicate Follows(run: seq<Cluster>, es: seq<Event>)
  {
    |run| == |es| + 1 && Init(run[0]) && forall k :: 0 <= k < |es| ==> Moves(run[k], es[k], run[k + 1])
  }

  /** What an event makes of server `v`'s machine. `unpack` gives the state that bytes decode
      to. A restart begins with an empty machine. */
  ghost function MachineNext(c: Cluster, e: Event, unpack: seq<Byte> -> State, v: Id, m: State): State
    requires WfCluster(c) && Ready(c, e)
  {
    match e
    case Do(a) =>
      if a.Consume? && a.v == v then
        match c.nodes[v].queue[0]
        case Command(entry) => Consumed(m, entry)
        case Restore(s) => unpack(s.raw)
      else m
    case CrashIn(a, _) => if Actor(a) == v then EMPTY else m
    case Crash(w) => if w == v then EMPTY else m
  }

  /** What server `v`'s machine holds in state `k`. */
  ghost function Machine(run: seq<Cluster>, es: seq<Event>, unpack: seq<Byte> -> State, k: nat, v: Id): State
    requires Follows(run, es) && k < |run|
  {
    if k == 0 then EMPTY
    else
      assert Moves(run[k - 1], es[k - 1], run[k]);
      MachineNext(run[k - 1], es[k - 1], unpack, v, Machine(run, es, unpack, k - 1, v))
  }

  /** The bytes a server hands to Raft read back as the state its machine then had. */
  ghost predicate Packs(run: seq<Cluster>, es: seq<Event>, unpack: seq<Byte> -> State)
    requires Follows(run, es)
  {
    forall k :: 0 <= k < |es| ==> PacksAt(run, es, unpack, k)
  }

  ghost predicate PacksAt(run: seq<Cluster>, es: seq<Event>, unpack: seq<Byte> -> State, k: nat)
    requires Follows(run, es) && k < |es|
  {
    (es[k].Do? || es[k].CrashIn?) && es[k].a.Compact? ==>
      unpack(es[k].a.raw) == Machine(run, es, unpack, k, es[k].a.v)
  }

  lemma FollowsIsRun(run: seq<Cluster>, es: seq<Event>)
    requires Follows(run, es)
    ensures IsRun(run)
  {
    forall k | 0 <= k < |run| - 1
      ensures Step(run[k], run[k + 1])
    {
      assert Moves(run[k], es[k], run[k + 1]);
    }
  }

  /** A snapshot's bytes stand for the entries it was taken of. */
  ghost predicate Faithful(unpack: seq<Byte> -> State, s: Snap)
  {
    s.index > 0 ==> unpack(s.raw) == MachineOf(s.image)
  }

  lemma {:induction false} MachinesAndSnaps(run: seq<Cluster>, es: seq<Event>, unpack: seq<Byte> -> State, k: nat)
    requires Follows(run, es) && Packs(run, es, unpack) && k < |run|
    ensures AllSnaps(run[k], s => Faithful(unpack, s))
    ensures forall v :: v in run[k].nodes ==> Machine(run, es, unpack, k, v) == MachineOf(run[k].nodes[v].app)
    decreases k
  {
    hide MachineOf, Next, Init, Taken, AllSnaps, MachineNext;
    var P := s => Faithful(unpack, s);
    NothingApplied();
    FollowsIsRun(run, es);
    if k == 0 {
      InitSnaps(run[0], P);
    } else {
      var e := es[k - 1];
      MachinesAndSnaps(run, es, unpack, k - 1);
      assert Moves(run[k - 1], e, run[k]) && PacksAt(run, es, unpack, k - 1);
      if (e.Do? || e.CrashIn?) && e.a.Compact? {
        TakenImage(run[k - 1].nodes[e.a.v], e.a.raw);
      }
      StepHas(run[k - 1], e, P);
      forall v | v in run[k - 1].nodes
        ensures run[k].nodes.Keys == run[k - 1].nodes.Keys &&
          Machine(run, es, unpack, k, v) == MachineOf(run[k].nodes[v].app)
      {
        if run[k - 1].nodes[v].queue != [] {
          RaftSafety.DeliveryInOrder(run, k - 1, v);
        }
        MachineStep(run[k - 1], e, unpack, v);
      }
      KeysKept(run[k - 1], e);
    }
  }

  lemma NothingApplied()
    ensures MachineOf([]) == EMPTY
  {
  }

  lemma InitSnaps(c: Cluster, P: Snap -> bool)
    requires Init(c) && P(NO_SNAP)
    ensures AllSnaps(c, P) && forall v :: v in c.nodes ==> c.nodes[v].app == []
  {
    hide Replay;
  }

  lemma TakenImage(r: Replica, raw: seq<Byte>)
    requires Wf(r.node.log)
    ensures Taken(r, raw).image == r.app && Taken(r, raw).raw == raw
  {
  }

  lemma MachineStep(c: Cluster, e: Event, unpack: seq<Byte> -> State, v: Id)
    requires WfCluster(c) && Ready(c, e) && v in c.nodes && AllSnaps(c, s => Faithful(unpack, s)) &&
      MachineOf([]) == EMPTY
    requires var q := c.nodes[v].queue; q != [] && q[0].Restore? ==> q[0].snap.index > 0
    ensures Next(c, e).nodes.Keys == c.nodes.Keys
    ensures MachineNext(c, e, unpack, v, MachineOf(c.nodes[v].app)) == MachineOf(Next(c, e).nodes[v].app)
  {
    hide Consumed, MachineOf, EffectOf, Boot, AllSnaps;
    var r := c.nodes[v];
    match e
    case Do(a) =>
      if Actor(a) == v {
        AppAfter(c, a);
        if a.Consume? {
          if r.queue[0].Command? {
            MachineSnoc(r.app, r.queue[0].entry);
          } else {
            FirstIsFaithful(c, v, unpack);
          }
        }
      }
    case CrashIn(_, _) =>
    case Crash(_) =>
  }

  lemma FirstIsFaithful(c: Cluster, v: Id, unpack: seq<Byte> -> State)
    requires v in c.nodes && AllSnaps(c, s => Faithful(unpack, s)) && c.nodes[v].queue != [] &&
      c.nodes[v].queue[0].Restore?
    ensures Faithful(unpack, c.nodes[v].queue[0].snap)
  {
    var r := c.nodes[v];
    assert Restore(r.queue[0].snap) in r.queue;
    assert Has(r, r.queue[0].snap);
  }

  lemma MachineSnoc(es: seq<Entry>, e: Entry)
    ensures MachineOf(es + [e]) == Consumed(MachineOf(es), e)
  {
    assert (es + [e])[..|es|] == es;
  }

  /** Only consuming changes what the state machine contains. */
  lemma AppAfter(c: Cluster, a: Action)
    requires WfCluster(c) && Enabled(c, a)
    ensures var r := c.nodes[Actor(a)];
      EffectOf(c, a).replica.app == if a.Consume? then Fed(r.app, r.queue[0]) else r.app
  {
    hide HandleVote, HandleAppend, HandleSnapshot, OnVote, OnAppend, OnSnapshot, TakeSnapshot, Propose, StartElection,
      BuildAppend;
  }

  /** Every replica's machine is a plain fold over the entries its state machine contains. */
  lemma ReplicaIsFold(run: seq<Cluster>, es: seq<Event>, unpack: seq<Byte> -> State, k: nat, v: Id)
    requires Follows(run, es) && Packs(run, es, unpack) && k < |run| && v in run[k].nodes
    ensures Machine(run, es, unpack, k, v) == MachineOf(run[k].nodes[v].app)
  {
    hide Follows, Packs, Machine, MachineOf;
    MachinesAndSnaps(run, es, unpack, k);
  }

  /** Replica agreement: two machines that have consumed equally many entries, at whatever
      moments and by whatever mixture of commands and snapshots, are equal in data, table of
      requests, maxima and count. */
  lemma ReplicaAgreement(run: seq<Cluster>, es: seq<Event>, unpack: seq<Byte> -> State, i: nat, v: Id, j: nat, w: Id)
    requires Follows(run, es) && Packs(run, es, unpack)
    requires i < |run| && v in run[i].nodes && j < |run| && w in run[j].nodes
    requires |run[i].nodes[v].app| == |run[j].nodes[w].app|
    ensures Machine(run, es, unpack, i, v) == Machine(run, es, unpack, j, w)
  {
    hide Follows, Packs, Machine, MachineOf;
    ReplicaIsFold(run, es, unpack, i, v);
    ReplicaIsFold(run, es, unpack, j, w);
    FollowsIsRun(run, es);
    var a, b := run[i].nodes[v].app, run[j].nodes[w].app;
    forall x | 0 <= x < |a|
      ensures a[x] == b[x]
    {
      RaftSafety.StateMachineSafety(run, i, v, j, w, x);
    }
    assert a == b;
  }

  /** The fold continued from a state. */
  function MachineFrom(s: State, es: seq<Entry>): State
  {
    if es == [] then s else Consumed(MachineFrom(s, es[..|es| - 1]), es[|es| - 1])
  }

  lemma {:induction false} FoldSplits(a: seq<Entry>, b: seq<Entry>)
    ensures MachineOf(a + b) == MachineFrom(MachineOf(a), b)
    decreases |b|
  {
    if b == [] {
      assert a + b == a;
    } else {
      var init := b[..|b| - 1];
      FoldSplits(a, init);
      assert (a + b)[..|a + b| - 1] == a + init;
    }
  }

  /** What a local read returns. The index was sampled in state `i`, and the machine is read in
      state `r`, once it contains that many entries. What it then holds is what any machine held
      at the sampling moment or before, advanced by entries that come after. So a read sees every
      write answered before it began, and never less than an earlier read saw. */
  lemma ReadSeesLatest(run: seq<Cluster>, es: seq<Event>, unpack: seq<Byte> -> State, i: nat, v: Id, acks: set<Id>,
                       returned: nat, r: nat, m: nat, w: Id)
    requires Follows(run, es) && Packs(run, es, unpack)
    requires RaftSafety.At(run, i, v) && RaftSafety.At(run, r, v) && RaftSafety.At(run, m, w) && m <= i
    requires var n := RaftSafety.NodeAt(run, i, v);
      n.role == Leader && Wf(n.log) && RaftReads.OnlyOwnAbove(n) && acks <= Elems(n.peers) &&
      2 * (1 + |acks|) > 1 + |n.peers| && n.commit <= returned <= |run[r].nodes[v].app| &&
      forall x :: x in acks ==> exists j :: i <= j && RaftReads.Confirms(run, j, x, n.term)
    ensures var a, b := run[m].nodes[w].app, run[r].nodes[v].app;
      a <= b && Machine(run, es, unpack, r, v) == MachineFrom(Machine(run, es, unpack, m, w), b[|a|..])
  {
    hide Follows, Packs, Machine, MachineOf, MachineFrom, RaftReads.Confirms;
    FollowsIsRun(run, es);
    RaftReads.LocalReadSees(run, i, v, acks, returned, r, m, w);
    ReplicaIsFold(run, es, unpack, r, v);
    ReplicaIsFold(run, es, unpack, m, w);
    var a, b := run[m].nodes[w].app, run[r].nodes[v].app;
    FoldSplits(a, b[|a|..]);
    assert a + b[|a|..] == b;
  }

  /** So every replica's table of requests stays small, also across restores and restarts. */
  lemma ReplicaTableBound(run: seq<Cluster>, es: seq<Event>, unpack: seq<Byte> -> State, k: nat, v: Id,
                          clients: set<seq<Byte>>)
    requires Follows(run, es) && Packs(run, es, unpack) && k < |run| && v in run[k].nodes
    requires From(CommandsOf(run[k].nodes[v].app), clients) && |clients| * (WINDOW + 1) < HIGH_WATER
    ensures |Machine(run, es, unpack, k, v).applied| < HIGH_WATER + SWEEP_EVERY
  {
    hide Follows, Packs, Machine, MachineOf, CommandsOf, KvMachine.Run;
    ReplicaIsFold(run, es, unpack, k, v);
    MachineIsRun(run[k].nodes[v].app);
    TableBound(CommandsOf(run[k].nodes[v].app), clients);
  }

  /** Every replica holds the data of the plain store that executes each request once, as long
      as the repetitions it has consumed came in time. */
  lemma ReplicaIsPlain(run: seq<Cluster>, es: seq<Event>, unpack: seq<Byte> -> State, k: nat, v: Id)
    requires Follows(run, es) && Packs(run, es, unpack) && k < |run| && v in run[k].nodes
    requires Timely(CommandsOf(run[k].nodes[v].app))
    ensures Machine(run, es, unpack, k, v).data == Plain(Distinct(CommandsOf(run[k].nodes[v].app)))
  {
    hide Follows, Packs, Machine, MachineOf, CommandsOf, KvMachine.Run, Timely, Plain, Distinct;
    ReplicaIsFold(run, es, unpack, k, v);
    MachineIsRun(run[k].nodes[v].app);
    DataIsPlain(CommandsOf(run[k].nodes[v].app));
  }

  /** A replica that consumes a request it has not seen executes it. */
  lemma ReplicaTakesEffect(run: seq<Cluster>, es: seq<Event>, unpack: seq<Byte> -> State, k: nat, v: Id)
    requires Follows(run, es) && Packs(run, es, unpack) && k < |es| && es[k] == Do(Consume(v)) && v in run[k].nodes
    requires var r := run[k].nodes[v];
      r.queue != [] && r.queue[0].Command? && KvCommand.Decode(r.queue[0].entry.data).Some? &&
      var c := KvCommand.Decode(r.queue[0].entry.data).value;
      !(Tracked(c) && SeenIn(CommandsOf(r.app), Tag(c)))
    ensures var c := KvCommand.Decode(run[k].nodes[v].queue[0].entry.data).value;
      var m := Machine(run, es, unpack, k, v);
      Machine(run, es, unpack, k + 1, v).data == Execute(m.data, c).0 && Apply(m, c).result == Execute(m.data, c).1
  {
    hide Packs, MachineOf, CommandsOf, KvMachine.Run, Apply, KvCommand.Decode, SeenIn, Execute;
    var r := run[k].nodes[v];
    var cs, c := CommandsOf(r.app), KvCommand.Decode(r.queue[0].entry.data).value;
    ReplicaIsFold(run, es, unpack, k, v);
    MachineIsRun(r.app);
    FirstNext(cs, c);
    assert Moves(run[k], es[k], run[k + 1]);
  }

  lemma FirstNext(cs: seq<KvCommand.Command>, c: KvCommand.Command)
    requires !(Tracked(c) && SeenIn(cs, Tag(c)))
    ensures var o, (d, x) := Apply(KvMachine.Run(cs), c), Execute(KvMachine.Run(cs).data, c);
      o.state.data == d && o.result == x
  {
    hide Apply, KvMachine.Run, SeenIn, Execute;
    var more := cs + [c];
    assert more[..|cs|] == cs && more[..|cs| + 1] == more;
    RunStep(more, |cs|);
    TakesEffect(more, |cs|);
  }

  /** And every replica executes a request once: when it consumes an entry that repeats the
      request of command `i` within the window, its machine does not change, and answers with
      the first result, marked. */
  lemma ReplicaExactlyOnce(run: seq<Cluster>, es: seq<Event>, unpack: seq<Byte> -> State, k: nat, v: Id, i: nat)
    requires Follows(run, es) && Packs(run, es, unpack) && k < |es| && es[k] == Do(Consume(v)) && v in run[k].nodes
    requires var r := run[k].nodes[v];
      r.queue != [] && r.queue[0].Command? && KvCommand.Decode(r.queue[0].entry.data).Some? &&
      var cs, c := CommandsOf(r.app), KvCommand.Decode(r.queue[0].entry.data).value;
      i < |cs| && FirstAt(cs, i) && Tracked(c) && Tag(c) == Tag(cs[i]) &&
      c.request + WINDOW < WRAP && c.request + WINDOW >= MaxSeen(cs, c.client)
    ensures Machine(run, es, unpack, k + 1, v) == Machine(run, es, unpack, k, v)
    ensures var r := run[k].nodes[v];
      var cs, c := CommandsOf(r.app), KvCommand.Decode(r.queue[0].entry.data).value;
      Apply(Machine(run, es, unpack, k, v), c).result == ResultAt(cs, i).(duplicate := true)
  {
    hide Packs, MachineOf, CommandsOf, KvMachine.Run, Apply, KvCommand.Decode, FirstAt;
    var r := run[k].nodes[v];
    var cs, c := CommandsOf(r.app), KvCommand.Decode(r.queue[0].entry.data).value;
    ReplicaIsFold(run, es, unpack, k, v);
    MachineIsRun(r.app);
    RepeatedNext(cs, c, i);
    assert Moves(run[k], es[k], run[k + 1]);
  }

  lemma RepeatedNext(cs: seq<KvCommand.Command>, c: KvCommand.Command, i: nat)
    requires i < |cs| && FirstAt(cs, i) && Tracked(c) && Tag(c) == Tag(cs[i])
    requires c.request + WINDOW < WRAP && c.request + WINDOW >= MaxSeen(cs, c.client)
    ensures Apply(KvMachine.Run(cs), c) == Outcome(KvMachine.Run(cs), ResultAt(cs, i).(duplicate := true))
  {
    hide Apply, KvMachine.Run;
    var more := cs + [c];
    assert more[..|cs|] == cs && more[..i] == cs[..i] && more[i] == cs[i];
    ExactlyOnce(more, i, |cs|);
  }

  // ---------------------------------------------------------------------------
  // The apply loop of one server
  // ---------------------------------------------------------------------------

  /** Raft's state once it has been handed the bytes of a machine that contains `app`: nothing is
      handed over while more than `every` committed entries are still to come. */
  function Compacted(n: Node, every: nat, app: seq<Entry>, raw: seq<Byte>): Node
    requires Wf(n.log)
  {
    if n.commit > |app| + every then n else TakeSnapshot(n, |app|, app, raw).node
  }

  /** `app` lists the entries whose effect the machine contains; `pack` and `unpack` are the
      encoding of snapshots. */
  class KvNode {
    const raft: RaftNode.Server
    const machine: KvMachine.Machine
    const snapEvery: nat
    const pack: State -> seq<Byte>
    const unpack: seq<Byte> -> State
    var app: seq<Entry>
    var lastSnap: nat
    var halted: bool

    constructor (raft: RaftNode.Server, snapEvery: nat, pack: State -> seq<Byte>, unpack: seq<Byte> -> State)
      ensures this.raft == raft && this.pack == pack && this.unpack == unpack
      ensures this.snapEvery == (if snapEvery == 0 then 10_000 else snapEvery)
      ensures fresh(machine) && Consistent() && app == [] && lastSnap == 0 && !halted
    {
      this.raft, this.pack, this.unpack := raft, pack, unpack;
      this.snapEvery := if snapEvery == 0 then 10_000 else snapEvery;
      machine := new KvMachine.Machine();
      app, lastSnap, halted := [], 0, false;
    }

    /** What is packed reads back. */
    ghost predicate Lossless()
    {
      forall s :: unpack(pack(s)) == s
    }

    ghost predicate Consistent()
      reads this, machine
    {
      machine.Contents() == MachineOf(app)
    }

    /** One message from Raft. */
    method HandleApply(msg: ApplyMsg)
      requires Consistent() && !halted && Wf(raft.log.entries) && Lossless()
      requires msg.Restore? ==> unpack(msg.snap.raw) == MachineOf(msg.snap.image)
      requires msg.Command? ==> msg.entry.index == |app| + 1
      modifies this, machine, raft, raft.log, raft.persist
      ensures Consistent() && app == if halted then old(app) else Fed(old(app), msg)
      ensures halted <==> msg.Command? && KvCommand.Decode(msg.entry.data).None?
      ensures raft.State() ==
        if !halted && msg.Command? && snapEvery > 0 && |app| >= old(lastSnap) + snapEvery
        then Compacted(old(raft.State()), snapEvery, app, pack(MachineOf(app))) else old(raft.State())
      ensures msg.Restore? ==> lastSnap == msg.snap.index
    {
      hide TakeSnapshot, Apply, KvCommand.Decode;
      match msg
      case Restore(snap) =>
        machine.Restore(unpack(snap.raw));
        app := snap.image;
        lastSnap := snap.index;
      case Command(e) =>
        var cmd := KvCommand.DecodeCommand(e.data);
        if cmd.None? {
          halted := true;
          return;
        }
        MachineSnoc(app, e);
        var res := machine.ApplyCommand(cmd.value);
        app := app + [e];
        if snapEvery > 0 && e.index >= lastSnap + snapEvery {
          MaybeSnapshotAt(e.index);
        }
    }

    /** Hands the machine's state at the entry just applied to Raft, unless far behind. What it
        hands over reads back as the fold of the entries applied. The next turn counts from here
        unless Raft refuses, because it has not applied the entry or does not hold it. */
    method MaybeSnapshotAt(at: nat)
      requires Consistent() && Wf(raft.log.entries) && Lossless() && at == |app|
      modifies this`lastSnap, raft, raft.log, raft.persist
      ensures raft.State() == Compacted(old(raft.State()), snapEvery, app, pack(MachineOf(app)))
      ensures raft.cache == old(raft.cache) || unpack(raft.cache.raw) == MachineOf(raft.cache.image)
      ensures lastSnap ==
        if old(raft.commit) > at + snapEvery || Refuses(old(raft.State()), at) then old(lastSnap) else at
    {
      hide TakeSnapshot;
      if raft.commit > at + snapEvery {
        return;
      }
      var state := machine.Snapshot();
      var taken, failed := raft.Snapshot(at, app, pack(state));
      if failed {
        return;
      }
      lastSnap := at;
    }
  }
}
