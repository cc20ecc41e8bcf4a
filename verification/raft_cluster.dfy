/**
  A cluster of servers as a step system. One step is one critical section of one server.
  Requests may be lost, delayed, reordered and served any number of times; a vote reply is
  returned to its caller at most once. Timers may fire at any moment. A server may crash at
  any moment, also between two durable writes of one critical section, and comes back from
  what its disk holds then.
*/
module ClusterSpec {
  import opened RaftTypes
  import opened RaftLog
  import opened Persist
  import opened NodeSpec

  /** What a server passes to its state machine: a command, or a snapshot to start over from. */
  datatype ApplyMsg = Command(entry: Entry) | Restore(snap: Snap)

  /** A server, the messages on their way to its state machine, and the entries whose effect
      the state machine contains. */
  datatype Replica = Replica(node: Node, queue: seq<ApplyMsg>, app: seq<Entry>)

  datatype Request = AskVote(vote: VoteRequest) | AskAppend(append: AppendRequest) | AskInstall(install: SnapRequest)

  datatype Response = Voted(vote: VoteResponse) | Appended(append: AppendResponse) | Installed(install: SnapResponse)

  datatype Rpc = Rpc(from: Id, to: Id, req: Request)

  datatype Reply = Reply(rpc: Rpc, resp: Response)

  /** `open` holds the vote requests whose reply has not been returned yet. */
  datatype Cluster = Cluster(
    servers: set<Id>,
    nodes: map<Id, Replica>,
    sent: set<Rpc>,
    replies: set<Reply>,
    open: set<Rpc>)

  /** `Campaign` is what a successful pre-vote poll leads to; its answers count for followers only.
      `Hear` is an answer that reports a term: one some server has reached. */
  datatype Action =
    | Campaign(v: Id)
    | Serve(rpc: Rpc, recent: bool)
    | Refuse(rpc: Rpc)
    | Receive(reply: Reply)
    | SendAppend(v: Id, peer: Id, heartbeat: bool)
    | SendSnapshot(v: Id, peer: Id)
    | Offer(v: Id, data: seq<seq<Byte>>)
    | Hear(v: Id, term: nat)
    | Resign(v: Id)
    | Compact(v: Id, raw: seq<Byte>)
    | Collect(v: Id)
    | Consume(v: Id)

  datatype Event = Do(a: Action) | CrashIn(a: Action, k: nat) | Crash(v: Id)

  /** What one action does: the actor's new state, its durable states on the way, and the
      messages it puts on the network. */
  datatype Effect = Effect(replica: Replica, trail: seq<Disk>, rpcs: set<Rpc>, replies: set<Reply>)

  function Actor(a: Action): Id
  {
    match a
    case Campaign(v) => v
    case Serve(rpc, _) => rpc.to
    case Refuse(rpc) => rpc.to
    case Receive(reply) => reply.rpc.from
    case SendAppend(v, _, _) => v
    case SendSnapshot(v, _) => v
    case Offer(v, _) => v
    case Hear(v, _) => v
    case Resign(v) => v
    case Compact(v, _) => v
    case Collect(v) => v
    case Consume(v) => v
  }

  predicate WfCluster(c: Cluster)
  {
    c.nodes.Keys == c.servers && forall v :: v in c.nodes ==> Wf(c.nodes[v].node.log)
  }

  predicate Fits(req: Request, resp: Response)
  {
    (req.AskVote? <==> resp.Voted?) && (req.AskAppend? <==> resp.Appended?)
  }

  predicate Enabled(c: Cluster, a: Action)
    requires WfCluster(c)
  {
    Actor(a) in c.servers &&
    var r := c.nodes[Actor(a)];
    match a
    case Campaign(_) => r.node.role == Follower
    case Serve(rpc, _) => rpc in c.sent
    case Refuse(rpc) => rpc in c.sent
    case Receive(reply) => reply in c.replies && Fits(reply.rpc.req, reply.resp) &&
      (reply.rpc.req.AskVote? ==> reply.rpc in c.open)
    case SendAppend(_, p, _) => p in r.node.peers && CanAppendTo(r.node, p)
    case SendSnapshot(_, p) => p in r.node.peers && CanShipTo(r.node, p)
    case Offer(_, _) => true
    case Hear(_, t) => exists w :: w in c.servers && t <= c.nodes[w].node.term
    case Resign(_) => r.node.role == Leader
    case Compact(_, _) => true
    case Collect(_) => r.node.pending.Some? || BatchInLog(r.node)
    case Consume(_) => r.queue != []
  }

  // ---------------------------------------------------------------------------
  // Effects
  // ---------------------------------------------------------------------------

  /** A server that won stops asking; one that lost its candidacy had asked already. */
  function CampaignEffect(r: Replica): Effect
    requires Wf(r.node.log)
  {
    var o := StartElection(r.node);
    Effect(r.(node := o.node), o.trail,
           if o.node.role == Candidate then
             set p | p in o.node.peers :: Rpc(o.node.id, p, AskVote(VoteRequestOf(o.node)))
           else {}, {})
  }

  function ServeEffect(r: Replica, rpc: Rpc, recent: bool): Effect
    requires Wf(r.node.log)
  {
    match rpc.req
    case AskVote(q) =>
      var o := HandleVote(r.node, q, recent);
      Effect(r.(node := o.node), o.trail, {}, {Reply(rpc, Voted(o.resp))})
    case AskAppend(q) =>
      var o := HandleAppend(r.node, q);
      Effect(r.(node := o.node), o.trail, {}, {Reply(rpc, Appended(o.resp))})
    case AskInstall(q) =>
      var o := HandleSnapshot(r.node, q);
      Effect(r.(node := o.node), o.trail, {}, {Reply(rpc, Installed(o.resp))})
  }

  /** A server that is shutting down still answers, with its term and nothing else. */
  function RefuseEffect(r: Replica, rpc: Rpc): Effect
  {
    var t := r.node.term;
    var resp := match rpc.req
                case AskVote(_) => Voted(VoteResponse(t, false))
                case AskAppend(_) => Appended(AppendResponse(t, false, 0, 0))
                case AskInstall(_) => Installed(SnapResponse(t));
    Effect(r, [], {}, {Reply(rpc, resp)})
  }

  function ReceiveEffect(r: Replica, reply: Reply): Effect
    requires Wf(r.node.log) && Fits(reply.rpc.req, reply.resp)
  {
    var o := match reply.rpc.req
             case AskVote(q) => OnVote(r.node, q.term, reply.resp.vote)
             case AskAppend(q) => OnAppend(r.node, reply.rpc.to, q, reply.resp.append)
             case AskInstall(q) => OnSnapshot(r.node, reply.rpc.to, q, reply.resp.install);
    Effect(r.(node := o.node), o.trail, {}, {})
  }

  function Commands(es: seq<Entry>): seq<ApplyMsg>
  {
    seq(|es|, i requires 0 <= i < |es| => Command(es[i]))
  }

  /** The applier: a pending snapshot goes first, otherwise everything newly committed. */
  function CollectEffect(r: Replica): Replica
    requires Wf(r.node.log) && (r.node.pending.Some? || BatchInLog(r.node))
  {
    if r.node.pending.Some? then
      r.(node := r.node.(pending := None), queue := r.queue + [Restore(r.node.pending.value)])
    else r.(node := r.node.(applied := r.node.commit), queue := r.queue + Commands(Batch(r.node)))
  }

  function Fed(app: seq<Entry>, m: ApplyMsg): seq<Entry>
  {
    match m
    case Command(e) => app + [e]
    case Restore(s) => s.image
  }

  function ConsumeEffect(r: Replica): Replica
    requires r.queue != []
  {
    r.(app := Fed(r.app, r.queue[0]), queue := r.queue[1..])
  }

  function EffectOf(c: Cluster, a: Action): Effect
    requires WfCluster(c) && Enabled(c, a)
  {
    var r := c.nodes[Actor(a)];
    match a
    case Campaign(_) => CampaignEffect(r)
    case Serve(rpc, recent) => ServeEffect(r, rpc, recent)
    case Refuse(rpc) => RefuseEffect(r, rpc)
    case Receive(reply) => ReceiveEffect(r, reply)
    case SendAppend(v, p, hb) => Effect(r, [], {Rpc(v, p, AskAppend(BuildAppend(r.node, p, hb)))}, {})
    case SendSnapshot(v, p) =>
      var q := SnapRequest(r.node.term, r.node.id, Shipped(r.node));
      Effect(r.(node := Ship(r.node)), [], {Rpc(v, p, AskInstall(q))}, {})
    case Offer(_, data) => var o := Propose(r.node, data); Effect(r.(node := o.node), o.trail, {}, {})
    case Hear(_, t) => Effect(r.(node := Adopted(r.node, t)), AdoptTrail(r.node, t), {}, {})
    case Resign(_) => Effect(r.(node := StepDown(r.node)), [], {}, {})
    case Compact(_, raw) =>
      var o := TakeSnapshot(r.node, |r.app|, r.app, raw);
      Effect(r.(node := o.node), o.trail, {}, {})
    case Collect(_) => Effect(CollectEffect(r), [], {}, {})
    case Consume(_) => Effect(ConsumeEffect(r), [], {}, {})
  }

  function Rebooted(r: Replica, d: Disk): Replica
  {
    Replica(Boot(r.node.id, r.node.peers, r.node.retain, d), [], [])
  }

  // ---------------------------------------------------------------------------
  // Steps and runs
  // ---------------------------------------------------------------------------

  predicate Ready(c: Cluster, e: Event)
    requires WfCluster(c)
  {
    match e
    case Do(a) => Enabled(c, a)
    case CrashIn(a, k) => Enabled(c, a) && k < |EffectOf(c, a).trail|
    case Crash(v) => v in c.servers
  }

  function VoteRpcs(rpcs: set<Rpc>): set<Rpc> { set x | x in rpcs && x.req.AskVote? }

  function Next(c: Cluster, e: Event): Cluster
    requires WfCluster(c) && Ready(c, e)
  {
    match e
    case Do(a) =>
      var f := EffectOf(c, a);
      c.(nodes := c.nodes[Actor(a) := f.replica], sent := c.sent + f.rpcs, replies := c.replies + f.replies,
         open := c.open + VoteRpcs(f.rpcs) - (if a.Receive? then {a.reply.rpc} else {}))
    case CrashIn(a, k) =>
      c.(nodes := c.nodes[Actor(a) := Rebooted(c.nodes[Actor(a)], EffectOf(c, a).trail[k])])
    case Crash(v) => c.(nodes := c.nodes[v := Rebooted(c.nodes[v], c.nodes[v].node.disk)])
  }

  function Elems(s: seq<Id>): set<Id> { set p | p in s }

  /** The other servers, each once. */
  predicate PeersOf(peers: seq<Id>, v: Id, servers: set<Id>)
  {
    Elems(peers) == servers - {v} && forall i, j :: 0 <= i < j < |peers| ==> peers[i] != peers[j]
  }

  predicate Init(c: Cluster)
  {
    0 !in c.servers && c.servers != {} && c.nodes.Keys == c.servers && c.sent == {} && c.replies == {} &&
    c.open == {} &&
    forall v :: v in c.servers ==>
      var n := c.nodes[v].node;
      PeersOf(n.peers, v, c.servers) && c.nodes[v] == Replica(Boot(v, n.peers, n.retain, EMPTY_DISK), [], [])
  }

  ghost predicate Moves(c: Cluster, e: Event, d: Cluster)
  {
    WfCluster(c) && Ready(c, e) && d == Next(c, e)
  }

  ghost predicate Step(c: Cluster, d: Cluster) { exists e :: Moves(c, e, d) }

  /** A run: a sequence of states, each the result of an event in the one before. */
  ghost predicate IsRun(run: seq<Cluster>)
  {
    |run| > 0 && Init(run[0]) && forall i :: 0 <= i < |run| - 1 ==> Step(run[i], run[i + 1])
  }

  lemma KeysKept(c: Cluster, e: Event)
    requires WfCluster(c) && Ready(c, e)
    ensures Next(c, e).nodes.Keys == c.nodes.Keys
  {
    hide EffectOf, Rebooted;
  }

  lemma RunBegins(c: Cluster)
    requires Init(c)
    ensures IsRun([c])
  {
  }

  lemma RunGoesOn(run: seq<Cluster>, e: Event)
    requires |run| > 0 && IsRun(run) && WfCluster(run[|run| - 1]) && Ready(run[|run| - 1], e)
    ensures IsRun(run + [Next(run[|run| - 1], e)])
  {
    hide Next, Init, Ready;
    var d := Next(run[|run| - 1], e);
    var more := run + [d];
    assert Moves(run[|run| - 1], e, d);
    forall i | 0 <= i < |more| - 1
      ensures Step(more[i], more[i + 1])
    {
    }
  }

  lemma RunDoes(run: seq<Cluster>, a: Action) returns (more: seq<Cluster>)
    requires |run| > 0 && IsRun(run) && WfCluster(run[|run| - 1]) && Enabled(run[|run| - 1], a)
    ensures more == run + [Next(run[|run| - 1], Do(a))] && IsRun(more)
  {
    hide Next, IsRun, Enabled;
    RunGoesOn(run, Do(a));
    more := run + [Next(run[|run| - 1], Do(a))];
  }
}
