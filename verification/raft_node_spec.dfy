/**
  What one server does, as functions of its state. Each function is one critical section of
  the server: an RPC handled, a request built, a reply processed. `trail` lists the durable
  states the section passes through, so that a crash may be placed inside it.
*/
module NodeSpec {
  import opened RaftTypes
  import opened RaftLog
  import opened Persist

  datatype Node = Node(
    id: Id,
    peers: seq<Id>,
    retain: nat,
    term: nat,
    vote: nat,
    log: seq<Entry>,
    role: Role,
    leaderId: nat,
    commit: nat,
    applied: nat,
    votes: nat,
    next: map<Id, nat>,
    matched: map<Id, nat>,
    pending: Option<Snap>,
    cache: Snap,
    disk: Disk)

  datatype Out<R> = Out(node: Node, resp: R, trail: seq<Disk>)

  /** How many entries one AppendEntries may carry. */
  const MAX_APPEND := 64

  function Majority(n: Node): nat { (|n.peers| + 1) / 2 + 1 }

  function Max(a: nat, b: nat): nat { if a < b then b else a }

  function Min(a: nat, b: nat): nat { if a < b then a else b }

  /** A server as it starts: recovered from disk, follower, cursors at the snapshot. */
  function Boot(id: Id, peers: seq<Id>, retain: nat, disk: Disk): Node
  {
    var p := Recover(disk);
    Node(id, peers, retain, p.term, p.vote, [Entry(p.snap.index, p.snap.term, [])] + p.entries, Follower, 0,
         p.snap.index, p.snap.index, 0, map[], map[],
         if p.snap.index > 0 then Some(p.snap) else None, NO_SNAP, disk)
  }

  // ---------------------------------------------------------------------------
  // Roles and terms
  // ---------------------------------------------------------------------------

  function BecomeFollower(n: Node, term: nat): Node
  {
    n.(term := term, role := Follower, vote := NO_VOTE, disk := Done(n.disk, SaveHardState(term, NO_VOTE)))
  }

  /** Every handler first adopts a higher term it sees. */
  function Adopted(n: Node, term: nat): Node { if term > n.term then BecomeFollower(n, term) else n }

  function AdoptTrail(n: Node, term: nat): seq<Disk>
  {
    if term > n.term then Points(n.disk, SaveHardState(term, NO_VOTE)) else []
  }

  function StepDown(n: Node): Node { n.(role := Follower, leaderId := 0) }

  /** One cursor per peer, all at `x`. */
  function Cursors(peers: seq<Id>, x: nat): map<Id, nat> { map p: Id | p in peers :: x }

  lemma CursorsNone(x: nat)
    ensures Cursors([], x) == map[]
  {
  }

  lemma CursorsSnoc(peers: seq<Id>, p: Id, x: nat)
    ensures Cursors(peers + [p], x) == Cursors(peers, x)[p := x]
  {
  }

  function BecomeLeader(n: Node): Node
    requires |n.log| > 0
  {
    n.(role := Leader, leaderId := n.id,
       next := Cursors(n.peers, Last(n.log) + 1), matched := Cursors(n.peers, 0))
  }

  function StartElection(n: Node): Out<()>
    requires |n.log| > 0
  {
    var c := SaveHardState(n.term + 1, n.id);
    var m := n.(role := Candidate, term := n.term + 1, vote := n.id, leaderId := 0, votes := 1,
      disk := Done(n.disk, c));
    Out(if 1 >= Majority(n) then BecomeLeader(m) else m, (), Points(n.disk, c))
  }

  function VoteRequestOf(n: Node): VoteRequest
    requires |n.log| > 0
  {
    VoteRequest(n.term, n.id, Last(n.log), LastLogTerm(n.log), false)
  }

  /** A vote comes back for the election of `term`. */
  function OnVote(n: Node, term: nat, resp: VoteResponse): Out<()>
    requires |n.log| > 0
  {
    if resp.term > n.term then Out(BecomeFollower(n, resp.term), (), AdoptTrail(n, resp.term))
    else if n.role != Candidate || n.term != term || !resp.granted then Out(n, (), [])
    else
      var m := n.(votes := n.votes + 1);
      Out(if m.votes == Majority(n) then BecomeLeader(m) else m, (), [])
  }

  // ---------------------------------------------------------------------------
  // RPC handlers
  // ---------------------------------------------------------------------------

  predicate AtLeastAsUpToDate(req: VoteRequest, log: seq<Entry>)
    requires |log| > 0
  {
    req.lastTerm > LastLogTerm(log) || (req.lastTerm == LastLogTerm(log) && req.lastIndex >= Last(log))
  }

  /** `recent`: the clock says the known leader was heard within the minimum election timeout. */
  function HandleVote(n: Node, req: VoteRequest, recent: bool): Out<VoteResponse>
    requires |n.log| > 0
  {
    var sticky := n.leaderId != 0 && recent;
    if req.preVote then
      Out(n, VoteResponse(n.term, req.term > n.term && !sticky && AtLeastAsUpToDate(req, n.log)), [])
    else if req.term > n.term && sticky then Out(n, VoteResponse(n.term, false), [])
    else
      var m := Adopted(n, req.term);
      var trail := AdoptTrail(n, req.term);
      if req.term < m.term || (m.vote != NO_VOTE && m.vote != req.candidate) || !AtLeastAsUpToDate(req, m.log) then
        Out(m, VoteResponse(m.term, false), trail)
      else
        var c := SaveHardState(m.term, req.candidate);
        Out(m.(vote := req.candidate, disk := Done(m.disk, c)), VoteResponse(m.term, true), trail + Points(m.disk, c))
  }

  /** Position of the first incoming entry that is neither compacted away nor already held. */
  function FirstNew(log: seq<Entry>, es: seq<Entry>): (i: nat)
    requires Wf(log)
    ensures i <= |es|
  {
    if es == [] then 0
    else if es[0].index <= First(log) || TermAt(log, es[0].index) == Some(es[0].term) then 1 + FirstNew(log, es[1..])
    else 0
  }

  /** The log and the disk after the incoming entries are taken over. */
  function Merged(n: Node, es: seq<Entry>): Node
    requires Wf(n.log)
  {
    var i := FirstNew(n.log, es);
    if i == |es| then n
    else if es[i].index <= Last(n.log) then
      var d := Done(n.disk, TruncateFrom(es[i].index));
      n.(log := TruncatedFrom(n.log, es[i].index) + es[i..], disk := Done(d, AppendEntries(es[i..])))
    else n.(log := n.log + es[i..], disk := Done(n.disk, AppendEntries(es[i..])))
  }

  function MergeTrail(n: Node, es: seq<Entry>): seq<Disk>
    requires Wf(n.log)
  {
    var i := FirstNew(n.log, es);
    if i == |es| then []
    else if es[i].index <= Last(n.log) then
      var d := Done(n.disk, TruncateFrom(es[i].index));
      Points(n.disk, TruncateFrom(es[i].index)) + Points(d, AppendEntries(es[i..]))
    else Points(n.disk, AppendEntries(es[i..]))
  }

  function ConflictHint(log: seq<Entry>, ourTerm: nat): nat
    requires |log| > 0
  {
    if FirstOfTerm(log, ourTerm) == 0 then First(log) + 1 else FirstOfTerm(log, ourTerm)
  }

  /** The consistency check: accepted, or refused with the hints for the leader. */
  function Checked(m: Node, req: AppendRequest): AppendResponse
    requires Wf(m.log)
  {
    if req.prevIndex > Last(m.log) then AppendResponse(m.term, false, Last(m.log) + 1, 0)
    else if req.prevIndex >= First(m.log) && TermAt(m.log, req.prevIndex) != Some(req.prevTerm) then
      var ourTerm := TermAt(m.log, req.prevIndex).value;
      AppendResponse(m.term, false, ConflictHint(m.log, ourTerm), ourTerm)
    else AppendResponse(m.term, true, 0, 0)
  }

  function HandleAppend(n: Node, req: AppendRequest): Out<AppendResponse>
    requires Wf(n.log)
  {
    var a := Adopted(n, req.term);
    var trail := AdoptTrail(n, req.term);
    if req.term < a.term then Out(a, AppendResponse(a.term, false, 0, 0), trail)
    else
      var m := a.(role := Follower, leaderId := req.leader);
      if !Checked(m, req).success then Out(m, Checked(m, req), trail)
      else
        var g := Merged(m, req.entries);
        var c := if req.leaderCommit > g.commit
                 then Min(req.leaderCommit, Max(req.prevIndex + |req.entries|, g.commit)) else g.commit;
        Out(g.(commit := c), Checked(m, req), trail + MergeTrail(m, req.entries))
  }

  function HandleSnapshot(n: Node, req: SnapRequest): Out<SnapResponse>
    requires Wf(n.log)
  {
    var a := Adopted(n, req.term);
    var trail := AdoptTrail(n, req.term);
    if req.term < a.term then Out(a, SnapResponse(a.term), trail)
    else
      var m := a.(role := Follower, leaderId := req.leader);
      if req.snap.index <= m.commit then Out(m, SnapResponse(m.term), trail)
      else
        var log := CompactedTo(m.log, req.snap.index, req.snap.term);
        var c := SaveSnapshot(req.snap, m.term, m.vote, log[1..]);
        Out(m.(log := log, disk := Done(m.disk, c), cache := req.snap, commit := req.snap.index,
               applied := req.snap.index, pending := Some(req.snap)),
            SnapResponse(m.term), trail + Points(m.disk, c))
  }

  // ---------------------------------------------------------------------------
  // The leader's side
  // ---------------------------------------------------------------------------

  function Numbered(data: seq<seq<Byte>>, term: nat, last: nat): seq<Entry>
  {
    seq(|data|, i requires 0 <= i < |data| => Entry(last + 1 + i, term, data[i]))
  }

  /** A batch of proposals enters the leader's log; anyone else refuses it. */
  function Propose(n: Node, data: seq<seq<Byte>>): Out<bool>
    requires |n.log| > 0
  {
    if n.role != Leader then Out(n, false, [])
    else
      var es := Numbered(data, n.term, Last(n.log));
      Out(n.(log := n.log + es, disk := Done(n.disk, AppendEntries(es))), true, Points(n.disk, AppendEntries(es)))
  }

  /** Map lookup with the zero default of the absent key. */
  function Get(m: map<Id, nat>, p: Id): nat { if p in m then m[p] else 0 }

  predicate CanAppendTo(n: Node, peer: Id)
    requires |n.log| > 0
  {
    n.role == Leader && Get(n.next, peer) > First(n.log)
  }

  /** The request for `peer`; a heartbeat carries no entries. */
  function BuildAppend(n: Node, peer: Id, heartbeat: bool): AppendRequest
    requires Wf(n.log) && CanAppendTo(n, peer)
  {
    var prev := Get(n.next, peer) - 1;
    var t := TermAt(n.log, prev);
    var es := Suffix(n.log, prev + 1);
    AppendRequest(n.term, n.id, prev, if t.Some? then t.value else 0,
                  if heartbeat then [] else if |es| > MAX_APPEND then es[..MAX_APPEND] else es, n.commit)
  }

  /** The snapshot a leader ships: the one in memory, or failing that the one on disk. */
  function Shipped(n: Node): Snap { if n.cache.index == 0 then n.disk.snap else n.cache }

  predicate CanShipTo(n: Node, peer: Id)
    requires |n.log| > 0
  {
    n.role == Leader && Get(n.next, peer) <= First(n.log) && Shipped(n).index != 0
  }

  /** Shipping keeps the image at hand for the next follower that needs it. */
  function Ship(n: Node): Node { n.(cache := Shipped(n)) }

  function Acked(n: Node, idx: nat): set<Id> { set p | p in n.peers && Get(n.matched, p) >= idx }

  /** The descending scan of the commit rule, from `idx` down. */
  function CommitScan(n: Node, idx: nat): nat
    requires Wf(n.log)
    decreases idx
  {
    if idx <= n.commit then n.commit
    else if TermAt(n.log, idx) != Some(n.term) then n.commit
    else if 1 + |Acked(n, idx)| >= Majority(n) then idx
    else CommitScan(n, idx - 1)
  }

  function AdvanceCommit(n: Node): Node
    requires Wf(n.log)
  {
    n.(commit := CommitScan(n, Last(n.log)))
  }

  function Raised(m: map<Id, nat>, peer: Id, to: nat): map<Id, nat>
  {
    if to > Get(m, peer) then m[peer := to] else m
  }

  /** Where to resume after a rejection. */
  function Backed(n: Node, peer: Id, resp: AppendResponse): nat
    requires |n.log| > 0
  {
    var to := if resp.conflictTerm != 0 then
                (if LastOfTerm(n.log, resp.conflictTerm) != 0 then LastOfTerm(n.log, resp.conflictTerm) + 1
                 else resp.conflictIndex)
              else if resp.conflictIndex != 0 then resp.conflictIndex
              else if Get(n.next, peer) > 1 then Get(n.next, peer) - 1 else Get(n.next, peer);
    if to < 1 then 1 else to
  }

  function OnAppend(n: Node, peer: Id, req: AppendRequest, resp: AppendResponse): Out<()>
    requires Wf(n.log)
  {
    if resp.term > n.term then Out(BecomeFollower(n, resp.term), (), AdoptTrail(n, resp.term))
    else if n.role != Leader || n.term != req.term then Out(n, (), [])
    else if resp.success then
      var m := req.prevIndex + |req.entries|;
      Out(AdvanceCommit(n.(matched := Raised(n.matched, peer, m), next := Raised(n.next, peer, m + 1))), (), [])
    else Out(n.(next := n.next[peer := Backed(n, peer, resp)]), (), [])
  }

  function OnSnapshot(n: Node, peer: Id, req: SnapRequest, resp: SnapResponse): Out<()>
  {
    if resp.term > n.term then Out(BecomeFollower(n, resp.term), (), AdoptTrail(n, resp.term))
    else if n.role != Leader || n.term != req.term then Out(n, (), [])
    else
      var s := req.snap.index;
      Out(n.(matched := Raised(n.matched, peer, s), next := Raised(n.next, peer, s + 1)), (), [])
  }

  // ---------------------------------------------------------------------------
  // Towards the state machine
  // ---------------------------------------------------------------------------

  /** The log a snapshot at `index` leaves behind: a tail of `retain` covered entries stays. */
  function Trimmed(n: Node, index: nat): (r: seq<Entry>)
    requires Wf(n.log)
    ensures Wf(r)
  {
    var cut := if n.retain > 0 then (if index > n.retain then index - n.retain else 0) else index;
    var t := TermAt(n.log, cut);
    if cut > First(n.log) && t.Some? then CompactedTo(n.log, cut, t.value) else n.log
  }

  /** A snapshot beyond what was applied, or of an index the log does not reach. */
  predicate Refuses(n: Node, index: nat)
    requires Wf(n.log)
  {
    index > First(n.log) && (index > n.applied || TermAt(n.log, index).None?)
  }

  /** The state machine hands over its state through `index`. */
  function TakeSnapshot(n: Node, index: nat, image: seq<Entry>, raw: seq<Byte>): Out<()>
    requires Wf(n.log)
  {
    if index <= First(n.log) || index > n.applied || TermAt(n.log, index).None? then Out(n, (), [])
    else
      var log := Trimmed(n, index);
      var snap := Snap(index, TermAt(n.log, index).value, image, raw);
      var c := SaveSnapshot(snap, n.term, n.vote, log[1..]);
      Out(n.(log := log, disk := Done(n.disk, c), cache := snap), (), Points(n.disk, c))
  }

  /** The entries the applier may collect: those above `applied` up to `commit`. */
  predicate BatchInLog(n: Node)
    requires |n.log| > 0
  {
    First(n.log) <= n.applied <= n.commit <= Last(n.log)
  }

  function Batch(n: Node): seq<Entry>
    requires Wf(n.log) && BatchInLog(n)
  {
    n.log[n.applied + 1 - First(n.log)..n.commit + 1 - First(n.log)]
  }
}
