/**
  The server object. Every method is one critical section; its contract says that the object
  moves exactly as the functions of `NodeSpec` say, and writes to disk in the same order.
*/
module RaftNode {
  import opened RaftTypes
  import opened RaftLog
  import opened Persist
  import Spec = NodeSpec

  class Server {
    const id: Id
    const peers: seq<Id>
    const retain: nat
    const log: Log
    const persist: Persister
    var term: nat
    var vote: nat
    var role: Role
    var leaderId: nat
    var commit: nat
    var applied: nat
    var votes: nat
    var next: map<Id, nat>
    var matched: map<Id, nat>
    var pending: Option<Snap>
    var cache: Snap

    ghost function State(): Spec.Node
      reads this, log, persist
    {
      Spec.Node(id, peers, retain, term, vote, log.entries, role, leaderId, commit, applied, votes, next, matched,
                pending, cache, persist.disk)
    }

    /** Startup: what the disk holds, follower, both cursors at the snapshot. */
    constructor (id: Id, peers: seq<Id>, retain: nat, persist: Persister)
      ensures State() == Spec.Boot(id, peers, retain, old(persist.disk)) && this.persist == persist && fresh(log)
    {
      var p := persist.Open();
      var l := new Log(p.snap.index, p.snap.term);
      l.Append(p.entries);
      this.id, this.peers, this.retain, this.persist, this.log := id, peers, retain, persist, l;
      term, vote, role, leaderId := p.term, p.vote, Follower, 0;
      commit, applied, votes, next, matched := p.snap.index, p.snap.index, 0, map[], map[];
      pending, cache := None, NO_SNAP;
      if p.snap.index > 0 {
        pending := Some(p.snap);
      }
    }

    // -------------------------------------------------------------------------
    // Roles and terms
    // -------------------------------------------------------------------------

    method BecomeFollower(t: nat)
      modifies this, persist
      ensures State() == Spec.BecomeFollower(old(State()), t)
      ensures persist.trail == old(persist.trail) + Points(old(persist.disk), SaveHardState(t, NO_VOTE))
    {
      term := t;
      role := Follower;
      vote := NO_VOTE;
      persist.SaveHard(term, vote);
    }

    method Adopt(t: nat)
      modifies this, persist
      ensures State() == Spec.Adopted(old(State()), t)
      ensures persist.trail == old(persist.trail) + Spec.AdoptTrail(old(State()), t)
    {
      if t > term {
        BecomeFollower(t);
      }
    }

    method StepDown()
      modifies this
      ensures State() == Spec.StepDown(old(State()))
    {
      role := Follower;
      leaderId := 0;
    }

    method BecomeLeader()
      requires |log.entries| > 0
      modifies this
      ensures State() == Spec.BecomeLeader(old(State()))
    {
      hide Spec.Cursors;
      Spec.CursorsNone(Last(log.entries) + 1);
      Spec.CursorsNone(0);
      role := Leader;
      leaderId := id;
      next, matched := map[], map[];
      var i := 0;
      while i < |peers|
        invariant i <= |peers|
        invariant next == Spec.Cursors(peers[..i], Last(log.entries) + 1) && matched == Spec.Cursors(peers[..i], 0)
        invariant State() == old(State()).(role := Leader, leaderId := id, next := next, matched := matched)
      {
        assert peers[..i + 1] == peers[..i] + [peers[i]];
        Spec.CursorsSnoc(peers[..i], peers[i], Last(log.entries) + 1);
        Spec.CursorsSnoc(peers[..i], peers[i], 0);
        next := next[peers[i] := Last(log.entries) + 1];
        matched := matched[peers[i] := 0];
        i := i + 1;
      }
      assert peers[..|peers|] == peers;
    }

    method Majority() returns (m: nat)
      ensures m == Spec.Majority(State())
    {
      m := (|peers| + 1) / 2 + 1;
    }

    method StartElection() returns (req: VoteRequest)
      requires |log.entries| > 0
      modifies this, persist
      ensures var o := Spec.StartElection(old(State()));
        State() == o.node && persist.trail == old(persist.trail) + o.trail
      ensures role == Candidate ==> req == Spec.VoteRequestOf(State())
    {
      hide Spec.Cursors, Done, Points;
      role := Candidate;
      term := term + 1;
      vote := id;
      leaderId := 0;
      persist.SaveHard(term, vote);
      req := VoteRequest(term, id, Last(log.entries), LastLogTerm(log.entries), false);
      votes := 1;
      var m := Majority();
      if votes >= m {
        BecomeLeader();
      }
    }

    /** A reply to the vote request of `asked`. */
    method OnVoteReply(asked: nat, resp: VoteResponse)
      requires |log.entries| > 0
      modifies this, persist
      ensures var o := Spec.OnVote(old(State()), asked, resp);
        State() == o.node && persist.trail == old(persist.trail) + o.trail
    {
      if resp.term > term {
        BecomeFollower(resp.term);
        return;
      }
      if role != Candidate || term != asked || !resp.granted {
        return;
      }
      votes := votes + 1;
      var m := Majority();
      if votes == m {
        BecomeLeader();
      }
    }

    // -------------------------------------------------------------------------
    // RPC handlers
    // -------------------------------------------------------------------------

    method HandleRequestVote(req: VoteRequest, recent: bool) returns (resp: VoteResponse)
      requires |log.entries| > 0
      modifies this, persist
      ensures var o := Spec.HandleVote(old(State()), req, recent);
        State() == o.node && resp == o.resp && persist.trail == old(persist.trail) + o.trail
    {
      hide Done, Points;
      var upToDate := req.lastTerm > LastLogTerm(log.entries) ||
                      (req.lastTerm == LastLogTerm(log.entries) && req.lastIndex >= Last(log.entries));
      var sticky := leaderId != 0 && recent;
      if req.preVote {
        resp := VoteResponse(term, req.term > term && !sticky && upToDate);
        return;
      }
      if req.term > term && sticky {
        resp := VoteResponse(term, false);
        return;
      }
      Adopt(req.term);
      resp := VoteResponse(term, false);
      if req.term < term {
        return;
      }
      if vote != NO_VOTE && vote != req.candidate {
        return;
      }
      if !upToDate {
        return;
      }
      vote := req.candidate;
      persist.SaveHard(term, vote);
      resp := VoteResponse(term, true);
    }

    /** Walks the incoming entries, truncates at the first conflict and appends the rest. */
    method Merge(es: seq<Entry>)
      requires Wf(log.entries)
      modifies log, persist
      ensures State() == Spec.Merged(old(State()), es)
      ensures persist.trail == old(persist.trail) + Spec.MergeTrail(old(State()), es)
    {
      var fresh' := es;
      var i := 0;
      while i < |es|
        invariant i <= |es| && fresh' == es[i..]
        invariant State() == old(State()) && persist.trail == old(persist.trail)
        invariant Spec.FirstNew(log.entries, es) == i + Spec.FirstNew(log.entries, es[i..])
      {
        var e := es[i];
        assert es[i..][1..] == es[i + 1..];
        if e.index <= First(log.entries) {
          fresh' := es[i + 1..];
        } else if e.index > Last(log.entries) {
          break;
        } else {
          var ours := TermAt(log.entries, e.index);
          if ours != Some(e.term) {
            log.TruncateFrom(e.index);
            persist.Truncate(e.index);
            break;
          }
          fresh' := es[i + 1..];
        }
        i := i + 1;
      }
      if |fresh'| > 0 {
        log.Append(fresh');
        persist.Append(fresh');
      }
    }

    /** The consistency check. A refusal carries the hints for the leader. */
    method Check(req: AppendRequest, none: AppendResponse) returns (resp: AppendResponse)
      requires Wf(log.entries) && none == AppendResponse(term, false, 0, 0)
      ensures resp == Spec.Checked(State(), req)
    {
      resp := none.(success := true);
      if req.prevIndex > Last(log.entries) {
        resp := none.(conflictIndex := Last(log.entries) + 1);
        return;
      }
      if req.prevIndex >= First(log.entries) {
        var ours := TermAt(log.entries, req.prevIndex);
        if ours != Some(req.prevTerm) {
          var hint := log.FirstIndexOfTerm(ours.value);
          if hint == 0 {
            hint := First(log.entries) + 1;
          }
          resp := none.(conflictTerm := ours.value, conflictIndex := hint);
        }
      }
    }

    method HandleAppendEntries(req: AppendRequest) returns (resp: AppendResponse)
      requires Wf(log.entries)
      modifies this, log, persist
      ensures var o := Spec.HandleAppend(old(State()), req);
        State() == o.node && resp == o.resp && persist.trail == old(persist.trail) + o.trail
    {
      hide Spec.Checked, Spec.Merged, Spec.MergeTrail, Points, Done;
      Adopt(req.term);
      resp := AppendResponse(term, false, 0, 0);
      if req.term < term {
        return;
      }
      role := Follower;
      leaderId := req.leader;
      resp := Check(req, resp);
      if !resp.success {
        return;
      }
      Merge(req.entries);
      if req.leaderCommit > commit {
        var lastNew := req.prevIndex + |req.entries|;
        commit := Spec.Min(req.leaderCommit, Spec.Max(lastNew, commit));
      }
    }

    method HandleInstallSnapshot(req: SnapRequest) returns (resp: SnapResponse)
      requires Wf(log.entries)
      modifies this, log, persist
      ensures var o := Spec.HandleSnapshot(old(State()), req);
        State() == o.node && resp == o.resp && persist.trail == old(persist.trail) + o.trail
    {
      hide CompactedTo, Done, Points;
      Adopt(req.term);
      resp := SnapResponse(term);
      if req.term < term {
        return;
      }
      role := Follower;
      leaderId := req.leader;
      if req.snap.index <= commit {
        return;
      }
      log.CompactTo(req.snap.index, req.snap.term);
      persist.Save(req.snap, term, vote, log.entries[1..]);
      cache := req.snap;
      commit := req.snap.index;
      applied := req.snap.index;
      pending := Some(req.snap);
    }

    // -------------------------------------------------------------------------
    // The leader's side
    // -------------------------------------------------------------------------

    /** A batch of proposals: one entry per command, one append to the disk for all. */
    method CommitBatch(data: seq<seq<Byte>>) returns (ok: bool)
      requires Wf(log.entries)
      modifies log, persist
      ensures var o := Spec.Propose(old(State()), data);
        State() == o.node && ok == o.resp && persist.trail == old(persist.trail) + o.trail
    {
      if role != Leader {
        return false;
      }
      ghost var es := Spec.Numbered(data, term, Last(log.entries));
      var entries: seq<Entry> := [];
      var i := 0;
      while i < |data|
        invariant i <= |data| && entries == es[..i] && log.entries == old(log.entries) + entries
        invariant Wf(log.entries) && Last(log.entries) == Last(old(log.entries)) + i
        invariant State() == old(State()).(log := log.entries) && persist.trail == old(persist.trail)
      {
        var entry := Entry(Last(log.entries) + 1, term, data[i]);
        log.Append([entry]);
        entries := entries + [entry];
        i := i + 1;
      }
      assert es[..|data|] == es;
      persist.Append(entries);
      return true;
    }

    method NextOf(peer: Id) returns (i: nat)
      ensures i == Spec.Get(next, peer)
    {
      i := if peer in next then next[peer] else 0;
    }

    /** The AppendEntries for `peer`, if the log still reaches back far enough. */
    method BuildAppend(peer: Id, heartbeat: bool) returns (req: Option<AppendRequest>)
      requires Wf(log.entries) && role == Leader
      ensures req == if Spec.CanAppendTo(State(), peer) then Some(Spec.BuildAppend(State(), peer, heartbeat)) else None
    {
      var i := NextOf(peer);
      if i <= First(log.entries) {
        return None;
      }
      var t := TermAt(log.entries, i - 1);
      var prevTerm := if t.Some? then t.value else 0;
      var entries: seq<Entry> := [];
      if !heartbeat {
        entries := Suffix(log.entries, i);
        if |entries| > Spec.MAX_APPEND {
          entries := entries[..Spec.MAX_APPEND];
        }
      }
      req := Some(AppendRequest(term, id, i - 1, prevTerm, entries, commit));
    }

    /** The InstallSnapshot for a peer the log no longer reaches; the image is kept in memory. */
    method BuildSnapshot() returns (req: Option<SnapRequest>)
      modifies this
      ensures var s := Spec.Shipped(old(State()));
        if s.index != 0 then req == Some(SnapRequest(term, id, s)) && State() == Spec.Ship(old(State()))
        else req == None && State() == old(State())
    {
      var snap := cache;
      if snap.index == 0 {
        snap := persist.disk.snap;
        if snap.index == 0 {
          return None;
        }
        cache := snap;
      }
      req := Some(SnapRequest(term, id, snap));
    }

    method Raise(peer: Id, match': nat)
      modifies this
      ensures State() == old(State()).(matched := Spec.Raised(old(matched), peer, match'),
                                       next := Spec.Raised(old(next), peer, match' + 1))
    {
      var m := if peer in matched then matched[peer] else 0;
      if match' > m {
        matched := matched[peer := match'];
      }
      var i := NextOf(peer);
      if match' + 1 > i {
        next := next[peer := match' + 1];
      }
    }

    method CountAcks(idx: nat) returns (count: nat)
      requires Distinct(peers)
      ensures count == 1 + |Spec.Acked(State(), idx)|
    {
      count := 1;
      var i := 0;
      while i < |peers|
        invariant i <= |peers| && count == 1 + |AckedIn(peers[..i], matched, idx)|
      {
        AckedSnoc(peers[..i], peers[i], matched, idx);
        assert peers[..i + 1] == peers[..i] + [peers[i]];
        var m := if peers[i] in matched then matched[peers[i]] else 0;
        if m >= idx {
          count := count + 1;
        }
        i := i + 1;
      }
      assert peers[..|peers|] == peers;
      assert AckedIn(peers, matched, idx) == Spec.Acked(State(), idx);
    }

    /** The commit rule: from the end of the log down to the first index it allows. */
    method AdvanceCommit()
      requires Wf(log.entries) && Distinct(peers)
      modifies this
      ensures State() == Spec.AdvanceCommit(old(State()))
    {
      var majority := Majority();
      var idx: nat := Last(log.entries);
      while idx > commit
        invariant idx <= Last(log.entries) && State() == old(State())
        invariant Spec.CommitScan(State(), idx) == Spec.CommitScan(State(), Last(log.entries))
      {
        if TermAt(log.entries, idx) != Some(term) {
          break;
        }
        var count := CountAcks(idx);
        if count >= majority {
          commit := idx;
          return;
        }
        idx := idx - 1;
      }
    }

    /** Fast backup: where to resume after a rejection. */
    method BackUp(peer: Id, resp: AppendResponse)
      requires |log.entries| > 0
      modifies this
      ensures State() == old(State()).(next := old(next)[peer := Spec.Backed(old(State()), peer, resp)])
    {
      var i := NextOf(peer);
      var to := i;
      if resp.conflictTerm != 0 {
        var last := log.LastIndexOfTerm(resp.conflictTerm);
        if last != 0 {
          to := last + 1;
        } else {
          to := resp.conflictIndex;
        }
      } else if resp.conflictIndex != 0 {
        to := resp.conflictIndex;
      } else if i > 1 {
        to := i - 1;
      }
      if to < 1 {
        to := 1;
      }
      next := next[peer := to];
    }

    /** The reply to an AppendEntries. `again` asks for another pass at once, `alive` says that
        this leadership goes on. */
    method OnAppendReply(peer: Id, req: AppendRequest, resp: AppendResponse) returns (again: bool, alive: bool)
      requires Wf(log.entries) && Distinct(peers)
      modifies this, persist
      ensures var o := Spec.OnAppend(old(State()), peer, req, resp);
        State() == o.node && persist.trail == old(persist.trail) + o.trail
      ensures alive <==> resp.term <= old(term) && old(role) == Leader && old(term) == req.term
      ensures again <==> alive && (resp.success ==> Spec.Get(next, peer) <= Last(log.entries))
    {
      if resp.term > term {
        BecomeFollower(resp.term);
        return false, false;
      }
      if role != Leader || term != req.term {
        return false, false;
      }
      if resp.success {
        Raise(peer, req.prevIndex + |req.entries|);
        AdvanceCommit();
        var i := NextOf(peer);
        return i <= Last(log.entries), true;
      }
      BackUp(peer, resp);
      return true, true;
    }

    method OnSnapshotReply(peer: Id, req: SnapRequest, resp: SnapResponse) returns (again: bool, alive: bool)
      modifies this, persist
      ensures var o := Spec.OnSnapshot(old(State()), peer, req, resp);
        State() == o.node && persist.trail == old(persist.trail) + o.trail
      ensures again == alive && (alive <==> resp.term <= old(term) && old(role) == Leader && old(term) == req.term)
    {
      if resp.term > term {
        BecomeFollower(resp.term);
        return false, false;
      }
      if role != Leader || term != req.term {
        return false, false;
      }
      Raise(peer, req.snap.index);
      return true, true;
    }

    // -------------------------------------------------------------------------
    // Reads and the state machine
    // -------------------------------------------------------------------------

    /** Counts the peers that confirmed the leadership, the leader included. */
    method Confirmed(oks: seq<bool>) returns (ok: bool)
      requires |oks| == |peers| && Distinct(peers)
      ensures ok <==> 2 * (1 + |Confirming(peers, oks)|) > 1 + |peers|
    {
      var acks := 1;
      var i := 0;
      while i < |peers|
        invariant i <= |peers| && acks == 1 + |Confirming(peers[..i], oks[..i])|
      {
        ConfirmingSnoc(peers[..i], oks[..i], peers[i], oks[i]);
        assert peers[..i + 1] == peers[..i] + [peers[i]] && oks[..i + 1] == oks[..i] + [oks[i]];
        if oks[i] {
          acks := acks + 1;
        }
        i := i + 1;
      }
      assert peers[..|peers|] == peers && oks[..|oks|] == oks;
      var m := Majority();
      ok := acks >= m;
    }

    /** After a confirmed round: the index sampled before it, or a later commit index of the
        same leadership. */
    method FinishRead(asked: nat, sampled: nat) returns (index: Option<nat>)
      ensures index.Some? <==> role == Leader && term == asked
      ensures index.Some? ==> sampled <= index.value && commit <= index.value && index.value in {sampled, commit}
    {
      if role != Leader || term != asked {
        return None;
      }
      index := Some(if commit > sampled then commit else sampled);
    }

    /** Discards the prefix a snapshot at `index` covers, but for the retained tail. */
    method Trim(index: nat)
      requires Wf(log.entries)
      modifies log
      ensures log.entries == Spec.Trimmed(old(State()), index)
    {
      var cut := index;
      if retain > 0 {
        if index > retain {
          cut := index - retain;
        } else {
          cut := 0;
        }
      }
      if cut > First(log.entries) {
        var cutTerm := TermAt(log.entries, cut);
        if cutTerm.Some? {
          log.CompactTo(cut, cutTerm.value);
        }
      }
    }

    /** Fails beyond what was applied; an index already compacted is no failure. */
    method Snapshot(index: nat, image: seq<Entry>, raw: seq<Byte>) returns (taken: bool, failed: bool)
      requires Wf(log.entries)
      modifies this, log, persist
      ensures var o := Spec.TakeSnapshot(old(State()), index, image, raw);
        State() == o.node && persist.trail == old(persist.trail) + o.trail
      ensures taken ==> !failed && cache == persist.disk.snap && cache.index == index
      ensures taken ==> cache.image == image && cache.raw == raw
      ensures !taken ==> State() == old(State())
      ensures !taken && !failed <==> index <= First(old(log.entries))
      ensures failed <==> Spec.Refuses(old(State()), index)
    {
      hide Spec.Trimmed;
      if index <= First(log.entries) {
        return false, false;
      }
      if index > applied {
        return false, true;
      }
      var snapTerm := TermAt(log.entries, index);
      if snapTerm.None? {
        return false, true;
      }
      Trim(index);
      var snap := Snap(index, snapTerm.value, image, raw);
      persist.Save(snap, term, vote, log.entries[1..]);
      cache := snap;
      return true, false;
    }

    /** The applier's turn: a pending snapshot, or the entries newly committed. */
    method Collect() returns (snap: Option<Snap>, batch: seq<Entry>)
      requires Wf(log.entries) && (pending.Some? || Spec.BatchInLog(State()))
      modifies this
      ensures snap == old(pending)
      ensures snap.Some? ==> batch == [] && State() == old(State()).(pending := None)
      ensures snap.None? ==> batch == Spec.Batch(old(State())) && State() == old(State()).(applied := commit)
    {
      snap, batch := pending, [];
      if snap.Some? {
        pending := None;
        return;
      }
      var i := applied + 1;
      while i <= commit
        invariant applied < i <= commit + 1
        invariant batch == log.entries[applied + 1 - First(log.entries)..i - First(log.entries)]
      {
        batch := batch + [log.entries[i - First(log.entries)]];
        i := i + 1;
      }
      applied := commit;
    }
  }

  predicate Distinct(s: seq<Id>)
  {
    forall i, j :: 0 <= i < j < |s| ==> s[i] != s[j]
  }

  function AckedIn(peers: seq<Id>, matched: map<Id, nat>, idx: nat): set<Id>
  {
    set p | p in peers && Spec.Get(matched, p) >= idx
  }

  lemma AckedSnoc(peers: seq<Id>, p: Id, matched: map<Id, nat>, idx: nat)
    requires p !in peers
    ensures |AckedIn(peers + [p], matched, idx)| ==
      |AckedIn(peers, matched, idx)| + if Spec.Get(matched, p) >= idx then 1 else 0
  {
    if Spec.Get(matched, p) >= idx {
      assert AckedIn(peers + [p], matched, idx) == AckedIn(peers, matched, idx) + {p};
    } else {
      assert AckedIn(peers + [p], matched, idx) == AckedIn(peers, matched, idx);
    }
  }

  /** The peers whose heartbeat came back in favour. */
  function Confirming(peers: seq<Id>, oks: seq<bool>): set<Id>
    requires |oks| == |peers|
  {
    set i | 0 <= i < |peers| && oks[i] :: peers[i]
  }

  lemma ConfirmingSnoc(peers: seq<Id>, oks: seq<bool>, p: Id, ok: bool)
    requires |oks| == |peers| && p !in peers
    ensures |Confirming(peers + [p], oks + [ok])| == |Confirming(peers, oks)| + if ok then 1 else 0
  {
    var a, b := Confirming(peers, oks), Confirming(peers + [p], oks + [ok]);
    forall x
      ensures x in b <==> x in a || (ok && x == p)
    {
      if x in a {
        var i :| 0 <= i < |peers| && oks[i] && peers[i] == x;
        assert (oks + [ok])[i] && (peers + [p])[i] == x;
      }
      if ok && x == p { assert (oks + [ok])[|oks|] && (peers + [p])[|oks|] == p; }
    }
    assert b == if ok then a + {p} else a;
  }
}
