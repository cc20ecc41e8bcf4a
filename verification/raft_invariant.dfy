/** Every run of the cluster has a history that satisfies the invariant. */
module RunHistory {
  import opened RaftTypes
  import opened RaftLog
  import opened Persist
  import opened NodeSpec
  import opened ClusterSpec
  import opened History
  import opened HistorySteps
  import opened Relation
  import opened RelationVotes
  import opened RelationAppend
  import opened RelationSnapshot
  import opened RelationLeader
  import opened RelationApply

  // ---------------------------------------------------------------------------
  // One action
  // ---------------------------------------------------------------------------

  /** Everything an action leaves behind fits history `k`. */
  ghost predicate Fulfils(c: Cluster, h: Hist, a: Action, f: Effect, k: Hist, hs: seq<Hist>)
  {
    Arrives(h, k, Actor(a), f.replica) && Covers(h, Actor(a), f.trail, hs) &&
    (forall x :: x in f.rpcs ==> x.from == Actor(a) && RpcRel(x, k)) &&
    (forall y :: y in f.replies ==> y.rpc in c.sent && ReplyRel(y, k)) &&
    TallyRel(c.open + VoteRpcs(f.rpcs) - (if a.Receive? then {a.reply.rpc} else {}), f.replica.node, k, Actor(a))
  }

  lemma TallyKept(open: set<Rpc>, open': set<Rpc>, n: Node, n': Node, h: Hist, k: Hist, v: Id)
    requires Grows(h, k) && TallyRel(open, n, h, v) && (forall x :: x in open' && x.from == v ==> x in open)
    requires n'.role == Candidate ==> n.role == Candidate && n'.term == n.term && n'.votes == n.votes
    ensures TallyRel(open', n', k, v)
  {
    if n'.role == Candidate {
      var t :| Tally(open, n, h, v, t);
      assert Voters(h, n.term, v) <= Voters(k, n.term, v);
      assert Tally(open', n', k, v, t);
    }
  }

  lemma RelParts(c: Cluster, h: Hist, v: Id)
    requires Basic(h) && Rel(c, h) && v in c.servers
    ensures v in h.servers && c.servers == h.servers && c.nodes.Keys == h.servers && c.open <= c.sent
    ensures NodeRel(c.nodes[v], h, v) && TallyRel(c.open, c.nodes[v].node, h, v) && v != 0
  {
  }

  lemma RelRpc(c: Cluster, h: Hist, x: Rpc)
    requires Basic(h) && Rel(c, h) && x in c.sent
    ensures RpcRel(x, h)
  {
  }

  lemma RelReply(c: Cluster, h: Hist, y: Reply)
    requires Basic(h) && Rel(c, h) && y in c.replies
    ensures y.rpc in c.sent && ReplyRel(y, h)
  {
  }

  lemma RelOpen(c: Cluster, h: Hist)
    requires Basic(h) && Rel(c, h)
    ensures forall x :: x in c.open ==> RpcRel(x, h)
  {
  }

  lemma FromIsServer(c: Cluster, h: Hist, x: Rpc)
    requires Basic(h) && Rel(c, h) && x in c.sent
    ensures x.from != x.to && x.from in h.servers && x.from != 0 && x.to in h.servers
  {
    assert NodeRel(c.nodes[x.from], h, x.from);
  }

  /** An action that sends no request and at most answers one. */
  lemma Answered(c: Cluster, h: Hist, a: Action, f: Effect, k: Hist, hs: seq<Hist>)
    requires Basic(h) && Inv(h) && Rel(c, h) && Actor(a) in c.servers
    requires Arrives(h, k, Actor(a), f.replica) && Covers(h, Actor(a), f.trail, hs) && f.rpcs == {}
    requires forall y :: y in f.replies ==> y.rpc in c.sent && ReplyRel(y, k)
    requires Actor(a) in c.nodes && f.replica.node.role == Candidate ==>
      var n := c.nodes[Actor(a)].node;
      n.role == Candidate && f.replica.node.term == n.term && f.replica.node.votes == n.votes
    ensures Fulfils(c, h, a, f, k, hs)
  {
    hide Inv, Rel, NodeRel, TallyRel, Local, Grows, ReplyRel, Covers;
    var v := Actor(a);
    RelParts(c, h, v);
    LocalGrows(h, k, v);
    var gone := if a.Receive? then {a.reply.rpc} else {};
    TallyKept(c.open, c.open + VoteRpcs(f.rpcs) - gone, c.nodes[v].node, f.replica.node, h, k, v);
  }

  lemma ServeVoteAct(c: Cluster, h: Hist, rpc: Rpc, recent: bool) returns (k: Hist, hs: seq<Hist>)
    requires Basic(h) && Inv(h) && Rel(c, h) && WfCluster(c) && Enabled(c, Serve(rpc, recent)) && rpc.req.AskVote?
    ensures Fulfils(c, h, Serve(rpc, recent), EffectOf(c, Serve(rpc, recent)), k, hs)
  {
    hide Inv, Rel, NodeRel, TallyRel, Local, HandleVote, Grows, Fulfils, Covers;
    RelParts(c, h, rpc.to);
    RelRpc(c, h, rpc);
    FromIsServer(c, h, rpc);
    var r := c.nodes[rpc.to];
    k, hs := ServeVoteRel(r, h, rpc.to, rpc.from, rpc.req.vote, recent);
    VoteRole(r.node, rpc.req.vote, recent);
    Answered(c, h, Serve(rpc, recent), EffectOf(c, Serve(rpc, recent)), k, hs);
  }

  lemma VoteRole(n: Node, q: VoteRequest, recent: bool)
    requires |n.log| > 0
    ensures var m := HandleVote(n, q, recent).node;
      m.role == Candidate ==> n.role == Candidate && m.term == n.term && m.votes == n.votes
  {
  }

  lemma ServeAppendAct(c: Cluster, h: Hist, rpc: Rpc, recent: bool) returns (k: Hist, hs: seq<Hist>)
    requires Basic(h) && Inv(h) && Rel(c, h) && WfCluster(c) && Enabled(c, Serve(rpc, recent)) && rpc.req.AskAppend?
    ensures Fulfils(c, h, Serve(rpc, recent), EffectOf(c, Serve(rpc, recent)), k, hs)
  {
    hide Inv, Rel, NodeRel, TallyRel, Local, HandleAppend, Grows, AppendRpcRel, Fulfils, Covers;
    RelParts(c, h, rpc.to);
    RelRpc(c, h, rpc);
    var r := c.nodes[rpc.to];
    k, hs := ServeAppendRel(r, h, rpc.to, rpc.from, rpc.req.append);
    AppendRole(r.node, rpc.req.append);
    Answered(c, h, Serve(rpc, recent), EffectOf(c, Serve(rpc, recent)), k, hs);
  }

  lemma AppendRole(n: Node, q: AppendRequest)
    requires Wf(n.log)
    ensures var m := HandleAppend(n, q).node;
      m.role == Candidate ==> n.role == Candidate && m.term == n.term && m.votes == n.votes
  {
    hide FirstNew, ConflictHint;
  }

  lemma ServeInstallAct(c: Cluster, h: Hist, rpc: Rpc, recent: bool) returns (k: Hist, hs: seq<Hist>)
    requires Basic(h) && Inv(h) && Rel(c, h) && WfCluster(c) && Enabled(c, Serve(rpc, recent)) && rpc.req.AskInstall?
    ensures Fulfils(c, h, Serve(rpc, recent), EffectOf(c, Serve(rpc, recent)), k, hs)
  {
    hide Inv, Rel, NodeRel, TallyRel, Local, HandleSnapshot, Grows, InstallRpcRel, Fulfils, Covers;
    RelParts(c, h, rpc.to);
    RelRpc(c, h, rpc);
    var r := c.nodes[rpc.to];
    k, hs := ServeInstallRel(r, h, rpc.to, rpc.from, rpc.req.install);
    InstallRole(r.node, rpc.req.install);
    Answered(c, h, Serve(rpc, recent), EffectOf(c, Serve(rpc, recent)), k, hs);
  }

  lemma InstallRole(n: Node, q: SnapRequest)
    requires Wf(n.log)
    ensures var m := HandleSnapshot(n, q).node;
      m.role == Candidate ==> n.role == Candidate && m.term == n.term && m.votes == n.votes
  {
  }

  lemma RefuseAct(c: Cluster, h: Hist, rpc: Rpc)
    requires Basic(h) && Inv(h) && Rel(c, h) && WfCluster(c) && Enabled(c, Refuse(rpc))
    ensures Fulfils(c, h, Refuse(rpc), EffectOf(c, Refuse(rpc)), h, [])
  {
    hide Inv, Rel, NodeRel, TallyRel, Local, Fulfils;
    RelParts(c, h, rpc.to);
    Stays(h, rpc.to);
    Answered(c, h, Refuse(rpc), EffectOf(c, Refuse(rpc)), h, []);
  }

  lemma ReceiveVoteAct(c: Cluster, h: Hist, y: Reply) returns (k: Hist, hs: seq<Hist>)
    requires Basic(h) && Inv(h) && Rel(c, h) && WfCluster(c) && Enabled(c, Receive(y)) && y.rpc.req.AskVote?
    ensures Fulfils(c, h, Receive(y), EffectOf(c, Receive(y)), k, hs)
  {
    hide Inv, Rel, NodeRel, TallyRel, Local, RpcRel, ReplyRel, OnVote;
    RelParts(c, h, y.rpc.from);
    RelReply(c, h, y);
    RelRpc(c, h, y.rpc);
    RelOpen(c, h);
    k, hs := ReceiveVoteRel(c.nodes[y.rpc.from], h, y.rpc.from, c.open, y);
    assert c.open + VoteRpcs({}) - {y.rpc} == c.open - {y.rpc};
  }

  lemma PeerOf(r: Replica, h: Hist, v: Id, p: Id)
    requires Basic(h) && NodeRel(r, h, v) && p in h.servers && p != v
    ensures p in r.node.peers
  {
    assert p in Elems(r.node.peers);
  }

  lemma ReceiveAppendAct(c: Cluster, h: Hist, y: Reply) returns (k: Hist, hs: seq<Hist>)
    requires Basic(h) && Inv(h) && Rel(c, h) && WfCluster(c) && Enabled(c, Receive(y)) && y.rpc.req.AskAppend?
    ensures Fulfils(c, h, Receive(y), EffectOf(c, Receive(y)), k, hs)
  {
    hide Inv, Rel, NodeRel, TallyRel, Local, OnAppend, Grows, AppendRpcRel, CommittedUpTo, Fulfils, Covers;
    var v := y.rpc.from;
    RelParts(c, h, v);
    RelReply(c, h, y);
    RelRpc(c, h, y.rpc);
    var r := c.nodes[v];
    PeerOf(r, h, v, y.rpc.to);
    k, hs := ReceiveAppendRel(r, h, v, y.rpc.to, y.rpc.req.append, y.resp.append);
    OnAppendRole(r.node, y.rpc.to, y.rpc.req.append, y.resp.append);
    Answered(c, h, Receive(y), EffectOf(c, Receive(y)), k, hs);
  }

  lemma OnAppendRole(n: Node, p: Id, q: AppendRequest, a: AppendResponse)
    requires Wf(n.log)
    ensures var m := OnAppend(n, p, q, a).node;
      m.role == Candidate ==> n.role == Candidate && m.term == n.term && m.votes == n.votes
  {
    hide CommitScan, Backed, Raised;
  }

  lemma ReceiveInstallAct(c: Cluster, h: Hist, y: Reply) returns (k: Hist, hs: seq<Hist>)
    requires Basic(h) && Inv(h) && Rel(c, h) && WfCluster(c) && Enabled(c, Receive(y)) && y.rpc.req.AskInstall?
    ensures Fulfils(c, h, Receive(y), EffectOf(c, Receive(y)), k, hs)
  {
    hide Inv, Rel, NodeRel, TallyRel, Local, OnSnapshot, Grows, InstallRpcRel, Fulfils, Covers;
    var v := y.rpc.from;
    RelParts(c, h, v);
    RelReply(c, h, y);
    RelRpc(c, h, y.rpc);
    var r := c.nodes[v];
    k, hs := ReceiveInstallRel(r, h, v, y.rpc.to, y.rpc.req.install, y.resp.install);
    OnSnapshotRole(r.node, y.rpc.to, y.rpc.req.install, y.resp.install);
    Answered(c, h, Receive(y), EffectOf(c, Receive(y)), k, hs);
  }

  lemma OnSnapshotRole(n: Node, p: Id, q: SnapRequest, a: SnapResponse)
    ensures var m := OnSnapshot(n, p, q, a).node;
      m.role == Candidate ==> n.role == Candidate && m.term == n.term && m.votes == n.votes
  {
  }

  lemma CampaignAct(c: Cluster, h: Hist, v: Id) returns (k: Hist, hs: seq<Hist>)
    requires Basic(h) && Inv(h) && Rel(c, h) && WfCluster(c) && Enabled(c, Campaign(v))
    ensures Fulfils(c, h, Campaign(v), EffectOf(c, Campaign(v)), k, hs)
  {
    hide Inv, Rel, NodeRel, TallyRel, Local, RpcRel, CampaignEffect;
    RelParts(c, h, v);
    RelOpen(c, h);
    k, hs := CampaignRel(c.nodes[v], h, v, c.open);
    var f := CampaignEffect(c.nodes[v]);
    assert c.open + VoteRpcs(f.rpcs) - {} == c.open + VoteRpcs(f.rpcs);
    CampaignSilent(c.nodes[v]);
    SenderIs(c.nodes[v], h, v);
  }

  lemma CampaignSilent(r: Replica)
    requires Wf(r.node.log)
    ensures CampaignEffect(r).replies == {} && forall x :: x in CampaignEffect(r).rpcs ==> x.from == r.node.id
  {
  }

  lemma OfferAct(c: Cluster, h: Hist, v: Id, data: seq<seq<Byte>>) returns (k: Hist, hs: seq<Hist>)
    requires Basic(h) && Inv(h) && Rel(c, h) && WfCluster(c) && Enabled(c, Offer(v, data))
    ensures Fulfils(c, h, Offer(v, data), EffectOf(c, Offer(v, data)), k, hs)
  {
    hide Inv, Rel, NodeRel, TallyRel, Local, Grows, Done, Points, Numbered, Fulfils, Covers;
    RelParts(c, h, v);
    k, hs := OfferRel(c.nodes[v], h, v, data);
    Answered(c, h, Offer(v, data), EffectOf(c, Offer(v, data)), k, hs);
  }

  /** An action that only sends a request other than for a vote. */
  lemma Sends(c: Cluster, h: Hist, a: Action, f: Effect)
    requires Basic(h) && Inv(h) && Rel(c, h) && Actor(a) in c.servers && Arrives(h, h, Actor(a), f.replica)
    requires f.trail == [] && f.replies == {} && VoteRpcs(f.rpcs) == {} && !a.Receive?
    requires forall x :: x in f.rpcs ==> x.from == Actor(a) && RpcRel(x, h)
    requires Actor(a) in c.nodes && f.replica.node.role == Candidate ==>
      var n := c.nodes[Actor(a)].node;
      n.role == Candidate && f.replica.node.term == n.term && f.replica.node.votes == n.votes
    ensures Fulfils(c, h, a, f, h, [])
  {
    hide Inv, Rel, NodeRel, TallyRel, Local, Grows, RpcRel;
    var v := Actor(a);
    RelParts(c, h, v);
    Stays(h, v);
    LocalGrows(h, h, v);
    TallyKept(c.open, c.open + VoteRpcs(f.rpcs) - {}, c.nodes[v].node, f.replica.node, h, h, v);
  }

  lemma SendAppendAct(c: Cluster, h: Hist, v: Id, p: Id, hb: bool)
    requires Basic(h) && Inv(h) && Rel(c, h) && WfCluster(c) && Enabled(c, SendAppend(v, p, hb))
    ensures Fulfils(c, h, SendAppend(v, p, hb), EffectOf(c, SendAppend(v, p, hb)), h, [])
  {
    hide Inv, Rel, NodeRel, TallyRel, Local, RpcRel, BuildAppend, Fulfils;
    RelParts(c, h, v);
    Stays(h, v);
    BuildRel(c.nodes[v], h, v, p, hb);
    Sends(c, h, SendAppend(v, p, hb), EffectOf(c, SendAppend(v, p, hb)));
  }

  lemma SendSnapshotAct(c: Cluster, h: Hist, v: Id, p: Id)
    requires Basic(h) && Inv(h) && Rel(c, h) && WfCluster(c) && Enabled(c, SendSnapshot(v, p))
    ensures Fulfils(c, h, SendSnapshot(v, p), EffectOf(c, SendSnapshot(v, p)), h, [])
  {
    hide Inv, Rel, NodeRel, TallyRel, Local, RpcRel, Fulfils;
    RelParts(c, h, v);
    ShipRel(c.nodes[v], h, v, p);
    SenderIs(c.nodes[v], h, v);
    Sends(c, h, SendSnapshot(v, p), EffectOf(c, SendSnapshot(v, p)));
  }

  lemma HearAct(c: Cluster, h: Hist, v: Id, t: nat) returns (k: Hist, hs: seq<Hist>)
    requires Basic(h) && Inv(h) && Rel(c, h) && WfCluster(c) && Enabled(c, Hear(v, t))
    ensures Fulfils(c, h, Hear(v, t), EffectOf(c, Hear(v, t)), k, hs)
  {
    hide Inv, Rel, NodeRel, TallyRel, Local, Grows, Done, Points, Fulfils, Covers;
    RelParts(c, h, v);
    k := AdoptHist(h, v, c.nodes[v].node, t);
    hs := AdoptRel(c.nodes[v], h, v, t);
    Answered(c, h, Hear(v, t), EffectOf(c, Hear(v, t)), k, hs);
  }

  lemma ResignAct(c: Cluster, h: Hist, v: Id)
    requires Basic(h) && Inv(h) && Rel(c, h) && WfCluster(c) && Enabled(c, Resign(v))
    ensures Fulfils(c, h, Resign(v), EffectOf(c, Resign(v)), h, [])
  {
    hide Inv, Rel, NodeRel, TallyRel, Local, Fulfils;
    RelParts(c, h, v);
    Stays(h, v);
    FollowerRel(c.nodes[v], h, v, 0);
    Answered(c, h, Resign(v), EffectOf(c, Resign(v)), h, []);
  }

  lemma CollectAct(c: Cluster, h: Hist, v: Id)
    requires Basic(h) && Inv(h) && Rel(c, h) && WfCluster(c) && Enabled(c, Collect(v))
    ensures Fulfils(c, h, Collect(v), EffectOf(c, Collect(v)), h, [])
  {
    hide Inv, Rel, NodeRel, TallyRel, Local, Fulfils, Batch;
    RelParts(c, h, v);
    CollectRel(c.nodes[v], h, v);
    Answered(c, h, Collect(v), EffectOf(c, Collect(v)), h, []);
  }

  lemma ConsumeAct(c: Cluster, h: Hist, v: Id)
    requires Basic(h) && Inv(h) && Rel(c, h) && WfCluster(c) && Enabled(c, Consume(v))
    ensures Fulfils(c, h, Consume(v), EffectOf(c, Consume(v)), h, [])
  {
    hide Inv, Rel, NodeRel, TallyRel, Local, Fulfils;
    RelParts(c, h, v);
    ConsumeRel(c.nodes[v], h, v);
    Answered(c, h, Consume(v), EffectOf(c, Consume(v)), h, []);
  }

  lemma SenderIs(r: Replica, h: Hist, v: Id)
    requires Basic(h) && NodeRel(r, h, v)
    ensures r.node.id == v
  {
  }

  lemma CompactAct(c: Cluster, h: Hist, v: Id, raw: seq<Byte>) returns (hs: seq<Hist>)
    requires Basic(h) && Inv(h) && Rel(c, h) && WfCluster(c) && Enabled(c, Compact(v, raw))
    ensures Fulfils(c, h, Compact(v, raw), EffectOf(c, Compact(v, raw)), h, hs)
  {
    hide Inv, Rel, NodeRel, TallyRel, Local, Grows, TakeSnapshot, Fulfils, Covers;
    RelParts(c, h, v);
    Stays(h, v);
    hs := CompactRel(c.nodes[v], h, v, raw);
    TakeRole(c.nodes[v].node, |c.nodes[v].app|, c.nodes[v].app, raw);
    Answered(c, h, Compact(v, raw), EffectOf(c, Compact(v, raw)), h, hs);
  }

  lemma TakeRole(n: Node, i: nat, app: seq<Entry>, raw: seq<Byte>)
    requires Wf(n.log)
    ensures var m := TakeSnapshot(n, i, app, raw).node; m.role == n.role && m.term == n.term && m.votes == n.votes
  {
  }

  lemma ActRel(c: Cluster, h: Hist, a: Action) returns (k: Hist, hs: seq<Hist>)
    requires Basic(h) && Inv(h) && Rel(c, h) && WfCluster(c) && Enabled(c, a)
    ensures Fulfils(c, h, a, EffectOf(c, a), k, hs)
  {
    hide Inv, Rel, Fulfils, EffectOf;
    k := h;
    match a
    case Campaign(v) => k, hs := CampaignAct(c, h, v);
    case Serve(rpc, recent) =>
      match rpc.req {
        case AskVote(_) => k, hs := ServeVoteAct(c, h, rpc, recent);
        case AskAppend(_) => k, hs := ServeAppendAct(c, h, rpc, recent);
        case AskInstall(_) => k, hs := ServeInstallAct(c, h, rpc, recent);
      }
    case Refuse(rpc) => RefuseAct(c, h, rpc); hs := [];
    case Receive(y) =>
      match y.rpc.req {
        case AskVote(_) => k, hs := ReceiveVoteAct(c, h, y);
        case AskAppend(_) => k, hs := ReceiveAppendAct(c, h, y);
        case AskInstall(_) => k, hs := ReceiveInstallAct(c, h, y);
      }
    case Offer(v, data) => k, hs := OfferAct(c, h, v, data);
    case Compact(v, raw) => hs := CompactAct(c, h, v, raw);
    case SendAppend(v, p, hb) => SendAppendAct(c, h, v, p, hb); hs := [];
    case SendSnapshot(v, p) => SendSnapshotAct(c, h, v, p); hs := [];
    case Hear(v, t) => k, hs := HearAct(c, h, v, t);
    case Resign(v) => ResignAct(c, h, v); hs := [];
    case Collect(v) => CollectAct(c, h, v); hs := [];
    case Consume(v) => ConsumeAct(c, h, v); hs := [];
  }

  // ---------------------------------------------------------------------------
  // One event
  // ---------------------------------------------------------------------------

  lemma OthersFramed(c: Cluster, h: Hist, k: Hist, v: Id, open': set<Rpc>, w: Id)
    requires Basic(h) && Basic(k) && Rel(c, h) && Local(h, k, v) && w in h.servers && w != v
    requires forall x :: x in open' && x.from != v ==> x in c.open
    ensures w in c.nodes && w in k.servers && NodeRel(c.nodes[w], k, w) && TallyRel(open', c.nodes[w].node, k, w)
  {
    hide NodeRel, TallyRel, RpcRel, ReplyRel, Local, Grows;
    LocalGrows(h, k, v);
    GrowsServers(h, k);
    NodeFrame(c.nodes[w], h, k, v, w);
    TallyFrame(c.open, open', c.nodes[w].node, h, k, v, w);
  }

  lemma MovedMessages(c: Cluster, h: Hist, k: Hist, rpcs: set<Rpc>, replies: set<Reply>)
    requires Basic(h) && Basic(k) && Rel(c, h) && Grows(h, k)
    requires forall x :: x in rpcs ==> RpcRel(x, k)
    requires forall y :: y in replies ==> y.rpc in c.sent && ReplyRel(y, k)
    ensures forall x :: x in c.sent + rpcs ==> RpcRel(x, k)
    ensures forall y :: y in c.replies + replies ==> y.rpc in c.sent && ReplyRel(y, k)
  {
    hide NodeRel, TallyRel, RpcRel, ReplyRel, Grows;
    forall x | x in c.sent + rpcs
      ensures RpcRel(x, k)
    {
      if x in c.sent { RpcGrows(x, h, k); }
    }
    forall y | y in c.replies + replies
      ensures y.rpc in c.sent && ReplyRel(y, k)
    {
      if y in c.replies { ReplyGrows(y, h, k); }
    }
  }

  /** Server `v` moves to `r`; the others and all messages keep their place. */
  lemma RelMoves(c: Cluster, h: Hist, k: Hist, v: Id, r: Replica, rpcs: set<Rpc>, replies: set<Reply>, open': set<Rpc>)
    requires Basic(h) && Basic(k) && Rel(c, h) && Local(h, k, v) && v in h.servers && NodeRel(r, k, v)
    requires TallyRel(open', r.node, k, v) && open' <= c.open + rpcs
    requires forall x :: x in rpcs ==> x.from == v && RpcRel(x, k)
    requires forall y :: y in replies ==> y.rpc in c.sent && ReplyRel(y, k)
    ensures Rel(c.(nodes := c.nodes[v := r], sent := c.sent + rpcs, replies := c.replies + replies, open := open'), k)
  {
    hide NodeRel, TallyRel, RpcRel, ReplyRel, Local, Grows;
    LocalGrows(h, k, v);
    GrowsServers(h, k);
    MovedMessages(c, h, k, rpcs, replies);
    forall w | w in k.servers
      ensures NodeRel(c.nodes[v := r][w], k, w) && TallyRel(open', c.nodes[v := r][w].node, k, w)
    {
      if w != v { OthersFramed(c, h, k, v, open', w); }
    }
  }

  lemma DoRel(c: Cluster, h: Hist, a: Action) returns (k: Hist)
    requires Basic(h) && Inv(h) && Rel(c, h) && WfCluster(c) && Enabled(c, a)
    ensures Basic(k) && Inv(k) && Local(h, k, Actor(a)) && Rel(Next(c, Do(a)), k)
  {
    hide Inv, Rel, NodeRel, TallyRel, Local, EffectOf, RpcRel, ReplyRel, Covers;
    var hs;
    k, hs := ActRel(c, h, a);
    var f := EffectOf(c, a);
    var gone := if a.Receive? then {a.reply.rpc} else {};
    RelParts(c, h, Actor(a));
    RelMoves(c, h, k, Actor(a), f.replica, f.rpcs, f.replies, c.open + VoteRpcs(f.rpcs) - gone);
  }

  /** A crash with disk `d`, for which `m` is the history. */
  lemma RebootRel(c: Cluster, h: Hist, v: Id, d: Disk, m: Hist) returns (k: Hist)
    requires Basic(h) && Rel(c, h) && v in c.servers && Reaches(h, m, v, d)
    ensures Basic(k) && Inv(k) && Local(h, k, v) && Rel(c.(nodes := c.nodes[v := Rebooted(c.nodes[v], d)]), k)
  {
    hide Inv, Rel, NodeRel, TallyRel, Local, DurRel, PeersOf, Boot, LogRel, CursorRel, VoteRel, LeaderRel, CandidateRel;
    RelParts(c, h, v);
    var n := c.nodes[v].node;
    NodeParts(c.nodes[v], h, v);
    SameServers(h, m, v);
    BootRel(d, m, v, n.peers, n.retain);
    k := Learn(m, v, d.snap.image);
    InvBasic(k);
    LocalTrans(h, m, k, v);
    BootFollows(v, n.peers, n.retain, d);
    NoTally(c.open, Rebooted(c.nodes[v], d).node, k, v);
    RelMoves(c, h, k, v, Rebooted(c.nodes[v], d), {}, {}, c.open);
    assert c.sent + {} == c.sent && c.replies + {} == c.replies;
  }

  lemma SameServers(h: Hist, k: Hist, v: Id)
    requires Local(h, k, v)
    ensures h.servers == k.servers
  {
  }

  lemma BootFollows(v: Id, peers: seq<Id>, retain: nat, d: Disk)
    ensures Boot(v, peers, retain, d).role == Follower
  {
  }

  lemma NoTally(open: set<Rpc>, n: Node, k: Hist, v: Id)
    requires n.role == Follower
    ensures TallyRel(open, n, k, v)
  {
  }

  lemma NodeReaches(c: Cluster, h: Hist, v: Id)
    requires Basic(h) && Inv(h) && Rel(c, h) && v in c.servers
    ensures v in c.nodes && Reaches(h, h, v, c.nodes[v].node.disk)
  {
    hide Inv, Rel, NodeRel, TallyRel, Local, DurRel;
    RelParts(c, h, v);
    NodeParts(c.nodes[v], h, v);
    Stays(h, v);
  }

  lemma StepRel(c: Cluster, h: Hist, e: Event) returns (k: Hist)
    requires Basic(h) && Inv(h) && Rel(c, h) && WfCluster(c) && Ready(c, e)
    ensures Basic(k) && Inv(k) && Grows(h, k) && Rel(Next(c, e), k)
  {
    hide Inv, Rel, Local, Grows, EffectOf, Arrives, Reaches, RpcRel, ReplyRel, TallyRel;
    match e
    case Do(a) =>
      k := DoRel(c, h, a);
      LocalGrows(h, k, Actor(a));
    case CrashIn(a, i) =>
      var m, hs := ActRel(c, h, a);
      k := RebootRel(c, h, Actor(a), EffectOf(c, a).trail[i], hs[i]);
      LocalGrows(h, k, Actor(a));
    case Crash(v) =>
      NodeReaches(c, h, v);
      k := RebootRel(c, h, v, c.nodes[v].node.disk, h);
      LocalGrows(h, k, v);
  }

  lemma RelWf(c: Cluster, h: Hist)
    requires Basic(h) && Rel(c, h)
    ensures WfCluster(c)
  {
    hide TallyRel, RpcRel, ReplyRel, DurRel, CursorRel, VoteRel;
  }

  // ---------------------------------------------------------------------------
  // The beginning, and every run
  // ---------------------------------------------------------------------------

  ghost function Beginning(servers: set<Id>): Hist
  {
    Hist(servers, map v | v in servers :: 0, map v | v in servers :: [], map v | v in servers :: [],
         map[], map[], map[], map[], map[], map[])
  }

  lemma BeginningOk(servers: set<Id>)
    ensures Basic(Beginning(servers)) && Inv(Beginning(servers))
  {
  }

  lemma EmptyRecovers()
    ensures Recover(EMPTY_DISK) == Persisted(0, NO_VOTE, [], NO_SNAP)
  {
  }

  lemma InitNode(c: Cluster, v: Id)
    requires Init(c) && v in c.servers
    ensures Basic(Beginning(c.servers)) && NodeRel(c.nodes[v], Beginning(c.servers), v) &&
      c.nodes[v].node.role == Follower
  {
    hide Recover;
    EmptyRecovers();
  }

  lemma InitRel(c: Cluster)
    requires Init(c)
    ensures Basic(Beginning(c.servers)) && Rel(c, Beginning(c.servers))
  {
    hide NodeRel, Boot;
    var h := Beginning(c.servers);
    forall v | v in h.servers
      ensures Basic(h) && NodeRel(c.nodes[v], h, v) && TallyRel(c.open, c.nodes[v].node, h, v)
    {
      InitNode(c, v);
    }
  }

  /** State `c` has history `h`. */
  ghost predicate Explains(c: Cluster, h: Hist)
  {
    Basic(h) && Inv(h) && Rel(c, h) && WfCluster(c)
  }

  lemma {:induction false} RunHasHistory(run: seq<Cluster>) returns (hs: seq<Hist>)
    requires IsRun(run)
    ensures |hs| == |run| && forall i :: 0 <= i < |run| ==> Explains(run[i], hs[i])
    ensures forall i, j :: 0 <= i <= j < |run| ==> Grows(hs[i], hs[j])
    decreases |run|
  {
    hide Inv, Rel, Grows, Step, Init;
    var n := |run| - 1;
    if n == 0 {
      InitRel(run[0]);
      var h := Beginning(run[0].servers);
      BeginningOk(run[0].servers);
      RelWf(run[0], h);
      Stays(h, 0);
      LocalGrows(h, h, 0);
      hs := [h];
    } else {
      var init := run[..n];
      hs := RunHasHistory(init);
      assert Step(run[n - 1], run[n]);
      var k := OneStep(run[n - 1], run[n], hs[n - 1]);
      forall i | 0 <= i < n
        ensures Grows(hs[i], k)
      {
        GrowsTrans(hs[i], hs[n - 1], k);
      }
      Stays(k, 0);
      LocalGrows(k, k, 0);
      hs := hs + [k];
    }
  }

  lemma OneStep(c: Cluster, d: Cluster, h: Hist) returns (k: Hist)
    requires Explains(c, h) && Step(c, d)
    ensures Explains(d, k) && Grows(h, k)
  {
    hide Inv, Rel, Grows, Next;
    var e :| Moves(c, e, d);
    k := StepRel(c, h, e);
    RelWf(d, k);
  }
}
