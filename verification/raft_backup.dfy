/** Where fast backup resumes, in terms of the two logs, and that it skips nothing that agrees. */
module RaftBackup {
  import opened RaftTypes
  import opened RaftLog
  import opened NodeSpec
  import opened ClusterSpec
  import opened History
  import opened Relation
  import opened RelationAppend
  import opened RunHistory
  import opened RaftSafety
  import opened RaftProgress

  /** The server holds an entry of term `t` at `y`. */
  ghost predicate HoldsTerm(n: Node, y: nat, t: nat) { Holds(n, y) && EntryAt(n, y).term == t }

  ghost predicate LastHeld(n: Node, x: nat, t: nat)
  {
    HoldsTerm(n, x, t) && forall y: nat :: y > x ==> !HoldsTerm(n, y, t)
  }

  ghost predicate FirstHeld(n: Node, x: nat, t: nat)
  {
    HoldsTerm(n, x, t) && forall y: nat :: y < x ==> !HoldsTerm(n, y, t)
  }

  // ---------------------------------------------------------------------------
  // The searches, by what they find
  // ---------------------------------------------------------------------------

  lemma {:induction false} ScanLastFinds(es: seq<Entry>, t: nat) returns (k: nat)
    ensures k <= |es| && forall i :: k <= i < |es| ==> es[i].term != t
    ensures if k == 0 then ScanLast(es, t) == 0 else es[k - 1].term == t && ScanLast(es, t) == es[k - 1].index
  {
    k := |es|;
    if es != [] && es[|es| - 1].term != t { k := ScanLastFinds(es[..|es| - 1], t); }
  }

  lemma {:induction false} ScanFirstFinds(es: seq<Entry>, t: nat) returns (k: nat)
    ensures k <= |es| && forall i :: 0 <= i < k ==> es[i].term != t
    ensures if k == |es| then ScanFirst(es, t) == 0 else es[k].term == t && ScanFirst(es, t) == es[k].index
  {
    k := 0;
    if es != [] && es[0].term != t {
      k := ScanFirstFinds(es[1..], t);
      assert forall i :: 0 < i < |es| ==> es[i] == es[1..][i - 1];
      k := k + 1;
    }
  }

  lemma HeldAt(n: Node, i: nat)
    requires Wf(n.log) && 0 < i < |n.log|
    ensures n.log[i].index > 0 && Holds(n, n.log[i].index) && EntryAt(n, n.log[i].index) == n.log[i]
  {
  }

  lemma AtHeld(n: Node, y: nat) returns (i: nat)
    requires Wf(n.log) && Holds(n, y)
    ensures 0 < i < |n.log| && n.log[i].index == y && EntryAt(n, y) == n.log[i]
  {
    i := y - First(n.log);
  }

  lemma LastFound(n: Node, t: nat)
    requires Wf(n.log)
    ensures var x := ScanLast(n.log[1..], t);
      if x == 0 then forall y: nat :: !HoldsTerm(n, y, t) else LastHeld(n, x, t)
  {
    var es := n.log[1..];
    var k := ScanLastFinds(es, t);
    if k > 0 { HeldAt(n, k); }
    forall y: nat | Holds(n, y) && (k == 0 || y > es[k - 1].index)
      ensures !HoldsTerm(n, y, t)
    {
      var i := AtHeld(n, y);
      assert es[i - 1] == n.log[i];
    }
  }

  lemma FirstFound(n: Node, t: nat)
    requires Wf(n.log)
    ensures var x := ScanFirst(n.log[1..], t);
      if x == 0 then forall y: nat :: !HoldsTerm(n, y, t) else FirstHeld(n, x, t)
  {
    var es := n.log[1..];
    var k := ScanFirstFinds(es, t);
    if k < |es| { HeldAt(n, k + 1); }
    forall y: nat | Holds(n, y) && (k == |es| || y < es[k].index)
      ensures !HoldsTerm(n, y, t)
    {
      var i := AtHeld(n, y);
      assert es[i - 1] == n.log[i];
    }
  }

  // ---------------------------------------------------------------------------
  // Where the leader resumes
  // ---------------------------------------------------------------------------

  /** A rejected request, and the leader that processes the rejection, at once or later. */
  ghost predicate Rejected(run: seq<Cluster>, j: nat, k: nat, x: Rpc, v: Id, p: Id)
  {
    IsRun(run) && j <= k && At(run, j, p) && At(run, k, v) && IsAppend(x, v, p) && x in run[j].sent &&
    Wf(NodeAt(run, j, p).log) && NodeAt(run, j, p).term <= x.req.append.term &&
    !Accepts(NodeAt(run, j, p), x.req.append) &&
    NodeAt(run, k, v).role == Leader && NodeAt(run, k, v).term == x.req.append.term
  }

  ghost function Resumed(run: seq<Cluster>, j: nat, k: nat, x: Rpc, v: Id, p: Id): nat
    requires Rejected(run, j, k, x, v, p)
  {
    Backed(NodeAt(run, k, v), p, HandleAppend(NodeAt(run, j, p), x.req.append).resp)
  }

  /** What a follower objects to within its log is an entry it really holds. */
  lemma ObjectsToEntry(run: seq<Cluster>, j: nat, k: nat, x: Rpc, v: Id, p: Id)
    requires Rejected(run, j, k, x, v, p) && x.req.append.prevIndex <= Last(NodeAt(run, j, p).log)
    ensures var f, q := NodeAt(run, j, p), x.req.append;
      Holds(f, q.prevIndex) && EntryAt(f, q.prevIndex).term > 0 &&
      HandleAppend(f, q).resp.conflictTerm == EntryAt(f, q.prevIndex).term
  {
    hide IsRun, Inv, Rel, Grows, NodeRel, LogRel, CursorRel, Valid, Shape, Committed, HandleAppend, Accepts;
    var f, q := NodeAt(run, j, p), x.req.append;
    if q.prevIndex <= f.commit {
      AcceptedWhenCommitted(run, j, x, p);
    } else {
      CursorChain(run, j, p);
      Rejection(f, q);
      RealTerm(run, j, p, q.prevIndex);
    }
  }

  lemma RealTerm(run: seq<Cluster>, j: nat, p: Id, y: nat)
    requires IsRun(run) && At(run, j, p) && Holds(NodeAt(run, j, p), y)
    ensures EntryAt(NodeAt(run, j, p), y).term > 0
  {
    hide IsRun, Inv, Rel, Grows, NodeRel, LogRel, CursorRel, Valid, Committed;
    var h, g, top := TwoHistories(run, j, j);
    Explained(run[j], h, p);
    EntryIs(NodeAt(run, j, p), h.virt[p], h.cp[p], y);
  }

  /** The resume point: behind the follower's log if that was too short; otherwise behind the
      leader's own last entry of the term the follower has there, or, if the leader holds none of
      it, at the follower's first. */
  lemma ResumesExactly(run: seq<Cluster>, j: nat, k: nat, x: Rpc, v: Id, p: Id)
    requires Rejected(run, j, k, x, v, p)
    ensures var f, n, at := NodeAt(run, j, p), NodeAt(run, k, v), x.req.append.prevIndex;
      var b := Resumed(run, j, k, x, v, p);
      if at > Last(f.log) then b == Last(f.log) + 1
      else
        Holds(f, at) && var t := EntryAt(f, at).term;
        if exists y: nat :: HoldsTerm(n, y, t) then b > 0 && LastHeld(n, b - 1, t) else FirstHeld(f, b, t)
  {
    hide IsRun, HandleAppend, Accepts, HoldsTerm, LastHeld, FirstHeld, FirstOfTerm, LastOfTerm;
    var f, n, q := NodeAt(run, j, p), NodeAt(run, k, v), x.req.append;
    Rejection(f, q);
    RunsAreWellFormed(run, k);
    if q.prevIndex <= Last(f.log) {
      ObjectsToEntry(run, j, k, x, v, p);
      var t := EntryAt(f, q.prevIndex).term;
      HoldsIt(f, q.prevIndex);
      SearchesExact(run, j, p, t);
      SearchesExact(run, k, v, t);
      LastFound(n, t);
      FirstFound(f, t);
      LastIsHeld(n, LastOfTerm(n.log, t), t);
      FirstIsHeld(f, FirstOfTerm(f.log, t), t);
    }
  }

  lemma HoldsIt(n: Node, y: nat)
    requires Holds(n, y)
    ensures HoldsTerm(n, y, EntryAt(n, y).term)
  {
  }

  lemma LastIsHeld(n: Node, x: nat, t: nat)
    ensures LastHeld(n, x, t) ==> HoldsTerm(n, x, t) && x > 0
  {
  }

  lemma FirstIsHeld(n: Node, x: nat, t: nat)
    ensures FirstHeld(n, x, t) ==> HoldsTerm(n, x, t) && x > 0
  {
  }

  /** Along a log terms do not fall. */
  lemma TermsRise(run: seq<Cluster>, i: nat, v: Id, x: nat, y: nat)
    requires IsRun(run) && At(run, i, v) && Holds(NodeAt(run, i, v), x) && Holds(NodeAt(run, i, v), y) && x <= y
    ensures EntryAt(NodeAt(run, i, v), x).term <= EntryAt(NodeAt(run, i, v), y).term
  {
    hide IsRun, Inv, Rel, Grows, NodeRel, LogRel, CursorRel, Valid, Committed;
    var h, g, top := TwoHistories(run, i, i);
    Explained(run[i], h, v);
    EntryIs(NodeAt(run, i, v), h.virt[v], h.cp[v], x);
    EntryIs(NodeAt(run, i, v), h.virt[v], h.cp[v], y);
  }

  /** So nothing is skipped over that agrees: wherever both hold an entry from the resume point up
      to the rejected one, the entries differ in term. */
  lemma SkipsOnlyConflicts(run: seq<Cluster>, j: nat, k: nat, x: Rpc, v: Id, p: Id, y: nat)
    requires Rejected(run, j, k, x, v, p) && Resumed(run, j, k, x, v, p) <= y <= x.req.append.prevIndex
    requires Holds(NodeAt(run, j, p), y) && Holds(NodeAt(run, k, v), y)
    ensures EntryAt(NodeAt(run, j, p), y).term != EntryAt(NodeAt(run, k, v), y).term
  {
    hide IsRun, HandleAppend, Accepts, Backed;
    var f, n, at := NodeAt(run, j, p), NodeAt(run, k, v), x.req.append.prevIndex;
    ResumesExactly(run, j, k, x, v, p);
    var b := Resumed(run, j, k, x, v, p);
    if at <= Last(f.log) {
      var t := EntryAt(f, at).term;
      TermsRise(run, j, p, y, at);
      if exists z: nat :: HoldsTerm(n, z, t) {
        TermsRise(run, k, v, b - 1, y) by { assert HoldsTerm(n, b - 1, t); }
        assert !HoldsTerm(n, y, t);
      } else {
        assert HoldsTerm(f, b, t) && !HoldsTerm(n, y, t);
        TermsRise(run, j, p, b, y);
      }
    }
  }
}
