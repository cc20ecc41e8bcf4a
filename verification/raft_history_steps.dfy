/** The ten ways a history grows. Each keeps the invariant and is the act of one server. */
module HistorySteps {
  import opened RaftTypes
  import opened Quorums
  import opened History

  // ---------------------------------------------------------------------------
  // What carries over when the leader logs stand still
  // ---------------------------------------------------------------------------

  lemma CompleteKept(h: Hist, k: Hist)
    requires Complete(h) && Shrinks(h, k) && k.llog == h.llog
    ensures Complete(k)
  {
    forall T, U, c | T < U && U in k.llog && Possible(k, T, c)
      ensures Agree(k.llog[T], k.llog[U], c)
    {
      PossibleBefore(h, k, T, c);
    }
  }

  lemma LogsKept(h: Hist, k: Hist)
    requires Basic(h) && Basic(k) && LogsOk(h) && k.servers == h.servers
    requires k.llog == h.llog && k.virt == h.virt && k.cands == h.cands
    requires forall v :: v in h.servers ==> h.term[v] <= k.term[v]
    ensures LogsOk(k)
  {
    forall v | v in k.servers
      ensures Shape(k.virt[v]) && Valid(k, k.virt[v]) && TermsUpTo(k.virt[v], k.term[v])
    {
      assert Shape(h.virt[v]) && Valid(h, h.virt[v]) && TermsUpTo(h.virt[v], h.term[v]);
    }
    forall T | T in k.llog
      ensures Valid(k, k.llog[T])
    {
      assert Valid(h, h.llog[T]);
    }
    forall v, T | (v, T) in k.cands
      ensures Valid(k, k.cands[(v, T)])
    {
      assert Valid(h, h.cands[(v, T)]);
    }
  }

  lemma ElectionsKept(h: Hist, k: Hist)
    requires Basic(h) && Basic(k) && ElectionsOk(h) && k.servers == h.servers
    requires k.leader == h.leader && k.votes == h.votes && k.cands == h.cands
    requires forall v :: v in h.servers ==> h.term[v] <= k.term[v]
    ensures ElectionsOk(k)
  {
    forall T | T in k.llog
      ensures (k.leader[T], T) in k.cands && Majority(k.servers, Voters(k, T, k.leader[T]))
    {
      assert T in h.llog;
      assert Voters(k, T, k.leader[T]) == Voters(h, T, h.leader[T]);
    }
  }

  lemma AcksKept(h: Hist, k: Hist)
    requires Basic(h) && Basic(k) && AcksOk(h) && k.servers == h.servers && k.acks == h.acks
    requires forall T :: T in h.llog ==> T in k.llog && |h.llog[T]| <= |k.llog[T]|
    requires forall v :: v in h.servers ==> h.term[v] <= k.term[v]
    ensures AcksOk(k)
  {
  }

  lemma HeldKept(h: Hist, k: Hist)
    requires Basic(h) && Basic(k) && Held(h) && Shrinks(h, k) && k.llog == h.llog && k.acks == h.acks &&
      k.virt == h.virt
    ensures Held(k)
  {
    forall v, T, c | v in k.servers && Possible(k, T, c) && AckOf(k, v, T) >= c
      ensures Agree(k.llog[T], k.virt[v], c)
    {
      PossibleBefore(h, k, T, c);
      assert AckOf(h, v, T) >= c;
    }
  }

  lemma VotesSafeKept(h: Hist, k: Hist)
    requires Basic(h) && ElectionsOk(h) && VotesSafe(h) && Basic(k) && ElectionsOk(k)
    requires Shrinks(h, k) && k.llog == h.llog && k.acks == h.acks && k.votes == h.votes && k.cands == h.cands
    ensures VotesSafe(k)
  {
    hide Shrinks, Hopefuls;
    forall v, U, T, c | (v, U) in k.votes && T < U && Possible(k, T, c) && AckOf(k, v, T) >= c
      ensures Agree(k.llog[T], k.cands[(k.votes[(v, U)], U)], c)
    {
      PossibleBefore(h, k, T, c);
      assert AckOf(h, v, T) >= c;
    }
  }

  lemma CommitsKept(h: Hist, k: Hist)
    requires CommitsOk(h) && Grows(h, k) && k.commits == h.commits
    ensures CommitsOk(k)
  {
    forall T | T in k.commits
      ensures Slot(k, T, k.commits[T]) && Majority(k.servers, Holders(k, T, k.commits[T]))
    {
      var c := h.commits[T];
      assert Slot(h, T, c);
      forall v | v in Holders(h, T, c)
        ensures v in Holders(k, T, c)
      {
        assert AckOf(h, v, T) <= AckOf(k, v, T);
      }
      Widen(h.servers, Holders(h, T, c), Holders(k, T, c));
    }
  }

  lemma KnownKept(h: Hist, k: Hist)
    requires Basic(h) && Basic(k) && Known(h) && Grows(h, k) && k.cp == h.cp
    ensures Known(k)
  {
    forall v | v in k.servers
      ensures Committed(k, k.cp[v], k.term[v])
    {
      CommittedGrows(h, k, h.cp[v], h.term[v], k.term[v]);
    }
  }

  // ---------------------------------------------------------------------------
  // A server adopts a higher term
  // ---------------------------------------------------------------------------

  ghost function Bump(h: Hist, v: Id, t: nat): Hist { h.(term := h.term[v := t]) }

  lemma BumpOk(h: Hist, v: Id, t: nat)
    requires Inv(h) && v in h.servers && h.term[v] <= t
    ensures Inv(Bump(h, v, t)) && Local(h, Bump(h, v, t), v)
  {
    hide LogsOk, ElectionsOk, AcksOk, Complete, Held, VotesSafe, CommitsOk, Known, Grows, OthersRest, OthersLead,
      Shrinks;
    InvParts(h);
    var k := Bump(h, v, t);
    BumpLocal(h, v, t);
    LogsKept(h, k);
    ElectionsKept(h, k);
    AcksKept(h, k);
    CompleteKept(h, k);
    HeldKept(h, k);
    VotesSafeKept(h, k);
    CommitsKept(h, k);
    KnownKept(h, k);
  }

  lemma BumpLocal(h: Hist, v: Id, t: nat)
    requires Basic(h) && v in h.servers && h.term[v] <= t
    ensures Local(h, Bump(h, v, t), v) && Shrinks(h, Bump(h, v, t)) && Basic(Bump(h, v, t))
  {
    hide Local, Shrinks;
    QuietLocal(h, Bump(h, v, t), v);
  }

  /** A step that touches no more than server `v`'s term, log and committed prefix. */
  ghost predicate Quiet(h: Hist, k: Hist, v: Id)
  {
    k.servers == h.servers && k.llog == h.llog && k.leader == h.leader && k.votes == h.votes && k.cands == h.cands &&
    k.acks == h.acks && k.commits == h.commits && OthersRest(h, k, v) && v in h.term && v in k.term &&
    h.term[v] <= k.term[v]
  }

  lemma QuietGrows(h: Hist, k: Hist, v: Id)
    requires Quiet(h, k, v)
    ensures Grows(h, k)
  {
    forall w | w in h.term
      ensures w in k.term && h.term[w] <= k.term[w]
    {
      if w != v { assert k.term[w] == h.term[w]; }
    }
  }

  lemma QuietOthers(h: Hist, k: Hist, v: Id)
    requires Quiet(h, k, v)
    ensures OthersLead(h, k, v)
  {
    hide OthersRest;
  }

  lemma QuietShrinks(h: Hist, k: Hist, v: Id)
    requires Quiet(h, k, v)
    ensures Shrinks(h, k)
  {
    forall w
      ensures TermOf(h, w) <= TermOf(k, w)
    {
      if w != v && w in h.term { assert k.term[w] == h.term[w]; }
    }
  }

  lemma QuietLocal(h: Hist, k: Hist, v: Id)
    requires Quiet(h, k, v)
    ensures Local(h, k, v) && Shrinks(h, k)
  {
    QuietGrows(h, k, v);
    QuietOthers(h, k, v);
    QuietShrinks(h, k, v);
    hide Grows, OthersRest, OthersLead, Shrinks;
  }

  // ---------------------------------------------------------------------------
  // A server stands for election, or votes for a candidate
  // ---------------------------------------------------------------------------

  ghost function Stand(h: Hist, v: Id): Hist
    requires v in h.term && v in h.virt
  {
    h.(votes := h.votes[(v, h.term[v]) := v], cands := h.cands[(v, h.term[v]) := h.virt[v]])
  }

  lemma StandOk(h: Hist, v: Id)
    requires Inv(h) && v in h.servers && 1 <= h.term[v] && (v, h.term[v]) !in h.votes
    requires forall i :: 0 <= i < |h.virt[v]| ==> h.virt[v][i].term < h.term[v]
    ensures Inv(Stand(h, v)) && Local(h, Stand(h, v), v)
  {
    hide LogsOk, ElectionsOk, AcksOk, Complete, Held, VotesSafe, CommitsOk, Known, Grows, OthersRest, OthersLead,
      Shrinks;
    InvParts(h);
    var k := Stand(h, v);
    StandLocal(h, v);
    StandLogs(h, v);
    StandElections(h, v);
    AcksKept(h, k);
    CompleteKept(h, k);
    HeldKept(h, k);
    StandVotesSafe(h, v);
    CommitsKept(h, k);
    KnownKept(h, k);
  }

  lemma StandLocal(h: Hist, v: Id)
    requires Basic(h) && ElectionsOk(h) && v in h.servers && (v, h.term[v]) !in h.votes
    ensures Basic(Stand(h, v)) && Local(h, Stand(h, v), v) && Shrinks(h, Stand(h, v))
  {
    StandGrows(h, v);
    StandOthers(h, v);
    hide Grows, OthersRest, OthersLead, Shrinks, ElectionsOk;
  }

  lemma StandGrows(h: Hist, v: Id)
    requires Basic(h) && ElectionsOk(h) && v in h.servers && (v, h.term[v]) !in h.votes
    ensures Grows(h, Stand(h, v)) && Shrinks(h, Stand(h, v))
  {
    assert (v, h.term[v]) !in h.cands;
    hide ElectionsOk;
  }

  lemma StandOthers(h: Hist, v: Id)
    requires Basic(h) && v in h.servers
    ensures OthersRest(h, Stand(h, v), v) && OthersLead(h, Stand(h, v), v)
  {
  }

  lemma StandLogs(h: Hist, v: Id)
    requires Basic(h) && LogsOk(h) && v in h.servers && Basic(Stand(h, v))
    ensures LogsOk(Stand(h, v))
  {
    var k := Stand(h, v);
    LogsKept(h, k.(cands := h.cands));
    forall w, T | (w, T) in k.cands
      ensures Shape(k.cands[(w, T)]) && Valid(k, k.cands[(w, T)])
    {
      var L := k.cands[(w, T)];
      assert L == h.virt[v] || ((w, T) in h.cands && L == h.cands[(w, T)]);
      assert Shape(L) && Valid(h, L);
    }
    SameLogs(k.(cands := h.cands), k);
  }

  lemma SameLogs(h: Hist, k: Hist)
    requires Basic(h) && Basic(k) && LogsOk(h) && k.servers == h.servers && k.term == h.term
    requires k.llog == h.llog && k.virt == h.virt
    requires forall v, T :: (v, T) in k.cands ==> Shape(k.cands[(v, T)]) && Valid(k, k.cands[(v, T)])
    ensures LogsOk(k)
  {
    forall v | v in k.servers
      ensures Valid(k, k.virt[v])
    {
      assert Valid(h, h.virt[v]);
    }
    forall T | T in k.llog
      ensures Valid(k, k.llog[T])
    {
      assert Valid(h, h.llog[T]);
    }
  }

  lemma StandElections(h: Hist, v: Id)
    requires Basic(h) && ElectionsOk(h) && v in h.servers && Basic(Stand(h, v))
    requires 1 <= h.term[v] && (v, h.term[v]) !in h.votes
    requires forall i :: 0 <= i < |h.virt[v]| ==> h.virt[v][i].term < h.term[v]
    ensures ElectionsOk(Stand(h, v))
  {
    var k := Stand(h, v);
    forall T | T in k.llog
      ensures (k.leader[T], T) in k.cands && Majority(k.servers, Voters(k, T, k.leader[T]))
    {
      assert Voters(h, T, h.leader[T]) <= Voters(k, T, k.leader[T]);
      Widen(k.servers, Voters(h, T, h.leader[T]), Voters(k, T, k.leader[T]));
    }
  }

  lemma StandVotesSafe(h: Hist, v: Id)
    requires Basic(h) && ElectionsOk(h) && VotesSafe(h) && Held(h) && v in h.servers
    requires Basic(Stand(h, v)) && ElectionsOk(Stand(h, v)) && Shrinks(h, Stand(h, v))
    requires (v, h.term[v]) !in h.votes
    ensures VotesSafe(Stand(h, v))
  {
    var k := Stand(h, v);
    forall w, U, T, c | (w, U) in k.votes && T < U && Possible(k, T, c) && AckOf(k, w, T) >= c
      ensures Agree(k.llog[T], k.cands[(k.votes[(w, U)], U)], c)
    {
      PossibleBefore(h, k, T, c);
      assert AckOf(h, w, T) >= c;
      if (w, U) != (v, h.term[v]) {
        assert (w, U) in h.votes;
        assert (h.votes[(w, U)], U) in h.cands;
      }
    }
  }

  ghost function Vote(h: Hist, v: Id, w: Id): Hist
    requires v in h.term
  {
    h.(votes := h.votes[(v, h.term[v]) := w])
  }

  lemma VoteOk(h: Hist, v: Id, w: Id)
    requires Inv(h) && v in h.servers && (v, h.term[v]) !in h.votes && (w, h.term[v]) in h.cands
    requires UpToDate(LastTerm(h.cands[(w, h.term[v])]), |h.cands[(w, h.term[v])]|, h.virt[v])
    ensures Inv(Vote(h, v, w)) && Local(h, Vote(h, v, w), v)
  {
    hide LogsOk, ElectionsOk, AcksOk, Complete, Held, VotesSafe, CommitsOk, Known, Grows, OthersRest, OthersLead,
      Shrinks;
    InvParts(h);
    var k := Vote(h, v, w);
    VoteLocal(h, v, w);
    LogsKept(h, k);
    VoteElections(h, v, w);
    AcksKept(h, k);
    CompleteKept(h, k);
    HeldKept(h, k);
    VoteVotesSafe(h, v, w);
    CommitsKept(h, k);
    KnownKept(h, k);
  }

  lemma VoteLocal(h: Hist, v: Id, w: Id)
    requires Basic(h) && v in h.servers && (v, h.term[v]) !in h.votes
    ensures Basic(Vote(h, v, w)) && Local(h, Vote(h, v, w), v) && Shrinks(h, Vote(h, v, w))
  {
    VoteGrows(h, v, w);
    VoteOthers(h, v, w);
    hide Grows, OthersRest, OthersLead, Shrinks;
  }

  lemma VoteGrows(h: Hist, v: Id, w: Id)
    requires Basic(h) && v in h.servers && (v, h.term[v]) !in h.votes
    ensures Grows(h, Vote(h, v, w)) && Shrinks(h, Vote(h, v, w))
  {
  }

  lemma VoteOthers(h: Hist, v: Id, w: Id)
    requires Basic(h) && v in h.servers
    ensures OthersRest(h, Vote(h, v, w), v) && OthersLead(h, Vote(h, v, w), v)
  {
  }

  lemma VoteElections(h: Hist, v: Id, w: Id)
    requires Basic(h) && ElectionsOk(h) && v in h.servers && Basic(Vote(h, v, w))
    requires (v, h.term[v]) !in h.votes && (w, h.term[v]) in h.cands
    ensures ElectionsOk(Vote(h, v, w))
  {
    var k := Vote(h, v, w);
    forall T | T in k.llog
      ensures (k.leader[T], T) in k.cands && Majority(k.servers, Voters(k, T, k.leader[T]))
    {
      assert Voters(h, T, h.leader[T]) <= Voters(k, T, k.leader[T]);
      Widen(k.servers, Voters(h, T, h.leader[T]), Voters(k, T, k.leader[T]));
    }
  }

  /** The election restriction at work: a log at least as up to date as one that holds a
      possibly committed prefix holds that prefix too. */
  lemma UpToDateHolds(h: Hist, C: seq<Entry>, L: seq<Entry>, T: nat, c: nat)
    requires Complete(h) && Possible(h, T, c) && Shape(L) && Shape(C) && Valid(h, C)
    requires forall U :: U in h.llog ==> Shape(h.llog[U])
    requires Agree(h.llog[T], L, c) && UpToDate(LastTerm(C), |C|, L)
    ensures Agree(h.llog[T], C, c)
  {
    assert L[c - 1].term == T && T >= 1;
    var U := LastTerm(C);
    assert U >= LastTerm(L) >= T;
    assert U in h.llog && Agree(C, h.llog[U], |C|);
    if U > T {
      assert Agree(h.llog[T], h.llog[U], c);
      assert h.llog[U][c - 1].term == T && h.llog[U][|C| - 1].term == U;
    }
  }

  lemma VoteVotesSafe(h: Hist, v: Id, w: Id)
    requires Basic(h) && LogsOk(h) && ElectionsOk(h) && VotesSafe(h) && Held(h) && Complete(h) && v in h.servers
    requires Basic(Vote(h, v, w)) && ElectionsOk(Vote(h, v, w)) && Shrinks(h, Vote(h, v, w))
    requires (v, h.term[v]) !in h.votes && (w, h.term[v]) in h.cands
    requires UpToDate(LastTerm(h.cands[(w, h.term[v])]), |h.cands[(w, h.term[v])]|, h.virt[v])
    ensures VotesSafe(Vote(h, v, w))
  {
    hide Shrinks, Hopefuls;
    var k := Vote(h, v, w);
    forall x, U, T, c | (x, U) in k.votes && T < U && Possible(k, T, c) && AckOf(k, x, T) >= c
      ensures Agree(k.llog[T], k.cands[(k.votes[(x, U)], U)], c)
    {
      PossibleBefore(h, k, T, c);
      assert AckOf(h, x, T) >= c;
      if (x, U) == (v, h.term[v]) {
        UpToDateHolds(h, h.cands[(w, U)], h.virt[v], T, c);
      }
    }
  }

  // ---------------------------------------------------------------------------
  // A candidate wins
  // ---------------------------------------------------------------------------

  ghost function Win(h: Hist, w: Id): Hist
    requires w in h.term && w in h.virt
  {
    var t := h.term[w];
    h.(llog := h.llog[t := h.virt[w]], leader := h.leader[t := w], acks := h.acks[(w, t) := |h.virt[w]|])
  }

  ghost predicate CanWin(h: Hist, w: Id)
    requires Basic(h)
  {
    w in h.servers && (w, h.term[w]) in h.cands && h.cands[(w, h.term[w])] == h.virt[w] &&
    h.term[w] !in h.llog && Majority(h.servers, Voters(h, h.term[w], w))
  }

  lemma WinOk(h: Hist, w: Id)
    requires Inv(h) && CanWin(h, w)
    ensures Inv(Win(h, w)) && Local(h, Win(h, w), w)
    ensures h.cp[w] <= h.virt[w]
  {
    hide LogsOk, ElectionsOk, AcksOk, Complete, Held, VotesSafe, CommitsOk, Known, Grows, OthersRest, OthersLead,
      Shrinks;
    InvParts(h);
    var k := Win(h, w);
    WinLocal(h, w);
    WinLogs(h, w);
    WinElections(h, w);
    WinAcks(h, w);
    WinComplete(h, w);
    WinHeld(h, w);
    WinVotesSafe(h, w);
    CommitsKept(h, k);
    KnownKept(h, k);
    WinnerHasCommitted(h, w);
  }

  lemma WinLocal(h: Hist, w: Id)
    requires Basic(h) && AcksOk(h) && CanWin(h, w)
    ensures Basic(Win(h, w)) && Local(h, Win(h, w), w) && Shrinks(h, Win(h, w))
  {
    WinGrows(h, w);
    WinOthers(h, w);
    hide *;
  }

  lemma WinGrows(h: Hist, w: Id)
    requires Basic(h) && AcksOk(h) && CanWin(h, w)
    ensures Basic(Win(h, w)) && Grows(h, Win(h, w)) && Shrinks(h, Win(h, w))
  {
    var k := Win(h, w);
    assert (w, h.term[w]) !in h.acks;
    forall v, T
      ensures AckOf(h, v, T) <= AckOf(k, v, T)
    {
    }
  }

  lemma WinOthers(h: Hist, w: Id)
    requires Basic(h) && CanWin(h, w)
    ensures OthersRest(h, Win(h, w), w) && OthersLead(h, Win(h, w), w)
  {
  }

  lemma ValidGrows(h: Hist, k: Hist, L: seq<Entry>)
    requires Valid(h, L) && forall T :: T in h.llog ==> T in k.llog && h.llog[T] <= k.llog[T]
    ensures Valid(k, L)
  {
    forall i | 0 <= i < |L|
      ensures L[i].term in k.llog && Agree(L, k.llog[L[i].term], i + 1)
    {
      assert Agree(L, h.llog[L[i].term], i + 1);
    }
  }

  /** Logs stay valid when leader logs are added or extended; those that changed are shown valid apart. */
  lemma ValidKept(h: Hist, k: Hist)
    requires Basic(h) && Basic(k) && LogsOk(h) && k.servers == h.servers && k.term == h.term && k.cands == h.cands
    requires forall T :: T in h.llog ==> T in k.llog && h.llog[T] <= k.llog[T]
    requires forall T :: T in k.llog && (T !in h.llog || k.llog[T] != h.llog[T]) ==>
      Shape(k.llog[T]) && TermsUpTo(k.llog[T], T) && Valid(k, k.llog[T])
    requires forall v :: v in k.servers && k.virt[v] != h.virt[v] ==>
      Shape(k.virt[v]) && TermsUpTo(k.virt[v], k.term[v]) && Valid(k, k.virt[v])
    ensures LogsOk(k)
  {
    forall T | T in k.llog
      ensures Shape(k.llog[T]) && Valid(k, k.llog[T]) && TermsUpTo(k.llog[T], T)
    {
      if T in h.llog && k.llog[T] == h.llog[T] { ValidGrows(h, k, h.llog[T]); }
    }
    forall v | v in k.servers
      ensures Shape(k.virt[v]) && Valid(k, k.virt[v]) && TermsUpTo(k.virt[v], k.term[v])
    {
      if k.virt[v] == h.virt[v] { ValidGrows(h, k, h.virt[v]); }
    }
    forall v, T | (v, T) in k.cands
      ensures Shape(k.cands[(v, T)]) && Valid(k, k.cands[(v, T)])
    {
      ValidGrows(h, k, h.cands[(v, T)]);
    }
  }

  lemma WinLogs(h: Hist, w: Id)
    requires Basic(h) && LogsOk(h) && CanWin(h, w) && Basic(Win(h, w))
    ensures LogsOk(Win(h, w))
  {
    hide LogsOk, Shape, Valid, TermsUpTo;
    VirtShape(h, w);
    var k := Win(h, w);
    ValidGrows(h, k, h.virt[w]);
    ValidKept(h, k);
  }

  lemma WinElections(h: Hist, w: Id)
    requires Basic(h) && ElectionsOk(h) && CanWin(h, w) && Basic(Win(h, w))
    ensures ElectionsOk(Win(h, w))
  {
    var k := Win(h, w);
    forall T | T in k.llog
      ensures (k.leader[T], T) in k.cands && Majority(k.servers, Voters(k, T, k.leader[T]))
    {
      assert Voters(k, T, k.leader[T]) == Voters(h, T, k.leader[T]);
    }
  }

  lemma WinAcks(h: Hist, w: Id)
    requires Basic(h) && AcksOk(h) && CanWin(h, w) && Basic(Win(h, w))
    ensures AcksOk(Win(h, w))
  {
  }

  /** The new log has no entry of its own term yet, so nothing new becomes committable. */
  lemma WinPossible(h: Hist, w: Id, T: nat, c: nat)
    requires Basic(h) && ElectionsOk(h) && CanWin(h, w) && Shrinks(h, Win(h, w)) && Possible(Win(h, w), T, c)
    ensures T != h.term[w] && Possible(h, T, c)
  {
    assert forall i :: 0 <= i < |h.virt[w]| ==> h.virt[w][i].term < h.term[w];
    PossibleBefore(h, Win(h, w), T, c);
  }

  /** Leader Completeness is won in the election: the voters overlap every commit majority. */
  lemma WinnerHolds(h: Hist, w: Id, T: nat, c: nat)
    requires Basic(h) && ElectionsOk(h) && VotesSafe(h) && CanWin(h, w) && T < h.term[w] && Possible(h, T, c)
    ensures Agree(h.llog[T], h.virt[w], c)
  {
    var x := Overlap(h.servers, Hopefuls(h, T, c), Voters(h, h.term[w], w));
    assert (x, h.term[w]) in h.votes;
    assert AckOf(h, x, T) >= c;
  }

  lemma WinnerHasCommitted(h: Hist, w: Id)
    requires Basic(h) && ElectionsOk(h) && VotesSafe(h) && CommitsOk(h) && Known(h) && CanWin(h, w)
    ensures h.cp[w] <= h.virt[w]
  {
    hide VotesSafe, ElectionsOk, CommitsOk, Possible;
    assert Committed(h, h.cp[w], h.term[w]);
    if h.cp[w] != [] {
      var T: nat :| CommittedBy(h, h.cp[w], h.term[w], T);
      CommitsArePossible(h, T);
      WinnerHolds(h, w, T, h.commits[T]);
    }
  }

  lemma WinComplete(h: Hist, w: Id)
    requires Basic(h) && ElectionsOk(h) && VotesSafe(h) && Complete(h) && CanWin(h, w) && Shrinks(h, Win(h, w))
    ensures Complete(Win(h, w))
  {
    var k := Win(h, w);
    forall T, U, c | T < U && U in k.llog && Possible(k, T, c)
      ensures Agree(k.llog[T], k.llog[U], c)
    {
      WinPossible(h, w, T, c);
      if U == h.term[w] {
        WinnerHolds(h, w, T, c);
      }
    }
  }

  lemma WinHeld(h: Hist, w: Id)
    requires Basic(h) && ElectionsOk(h) && Held(h) && CanWin(h, w) && Shrinks(h, Win(h, w)) && Basic(Win(h, w))
    ensures Held(Win(h, w))
  {
    var k := Win(h, w);
    forall v, T, c | v in k.servers && Possible(k, T, c) && AckOf(k, v, T) >= c
      ensures Agree(k.llog[T], k.virt[v], c)
    {
      WinPossible(h, w, T, c);
      assert AckOf(h, v, T) >= c;
    }
  }

  lemma WinVotesSafe(h: Hist, w: Id)
    requires Basic(h) && ElectionsOk(h) && VotesSafe(h) && CanWin(h, w) && Shrinks(h, Win(h, w))
    requires Basic(Win(h, w)) && ElectionsOk(Win(h, w))
    ensures VotesSafe(Win(h, w))
  {
    var k := Win(h, w);
    forall v, U, T, c | (v, U) in k.votes && T < U && Possible(k, T, c) && AckOf(k, v, T) >= c
      ensures Agree(k.llog[T], k.cands[(k.votes[(v, U)], U)], c)
    {
      WinPossible(h, w, T, c);
      assert AckOf(h, v, T) >= c;
    }
  }

  // ---------------------------------------------------------------------------
  // A leader appends to its own log
  // ---------------------------------------------------------------------------

  ghost function Extend(h: Hist, w: Id, es: seq<Entry>): Hist
    requires w in h.term && w in h.virt
  {
    var t := h.term[w];
    var L := h.virt[w] + es;
    h.(llog := h.llog[t := L], virt := h.virt[w := L], acks := h.acks[(w, t) := |L|])
  }

  ghost predicate CanExtend(h: Hist, w: Id, es: seq<Entry>)
    requires Basic(h)
  {
    w in h.servers && h.term[w] in h.llog && h.leader[h.term[w]] == w && h.virt[w] == h.llog[h.term[w]] &&
    1 <= h.term[w] &&
    forall i :: 0 <= i < |es| ==> es[i].term == h.term[w] && es[i].index == |h.virt[w]| + i + 1
  }

  lemma ExtendOk(h: Hist, w: Id, es: seq<Entry>)
    requires Inv(h) && CanExtend(h, w, es)
    ensures Inv(Extend(h, w, es)) && Local(h, Extend(h, w, es), w)
  {
    hide LogsOk, ElectionsOk, AcksOk, Complete, Held, VotesSafe, CommitsOk, Known, Grows, OthersRest, OthersLead,
      Shrinks;
    InvParts(h);
    var k := Extend(h, w, es);
    ExtendLocal(h, w, es);
    ExtendLogs(h, w, es);
    ElectionsKept(h, k);
    ExtendAcks(h, w, es);
    ExtendComplete(h, w, es);
    ExtendHeld(h, w, es);
    ExtendVotesSafe(h, w, es);
    CommitsKept(h, k);
    KnownKept(h, k);
  }

  lemma ExtendLocal(h: Hist, w: Id, es: seq<Entry>)
    requires Basic(h) && AcksOk(h) && CanExtend(h, w, es)
    ensures Basic(Extend(h, w, es)) && Local(h, Extend(h, w, es), w) && Shrinks(h, Extend(h, w, es))
  {
    ExtendGrows(h, w, es);
    ExtendOthers(h, w, es);
    ExtendShrinks(h, w, es);
    hide Grows, OthersRest, OthersLead, Shrinks, AcksOk;
  }

  lemma ExtendGrows(h: Hist, w: Id, es: seq<Entry>)
    requires Basic(h) && AcksOk(h) && CanExtend(h, w, es)
    ensures Basic(Extend(h, w, es)) && Grows(h, Extend(h, w, es))
  {
    var k := Extend(h, w, es);
    assert k.leader.Keys == k.llog.Keys;
    forall v, T
      ensures AckOf(h, v, T) <= AckOf(k, v, T)
    {
    }
  }

  lemma ExtendOthers(h: Hist, w: Id, es: seq<Entry>)
    requires Basic(h) && CanExtend(h, w, es)
    ensures OthersRest(h, Extend(h, w, es), w) && OthersLead(h, Extend(h, w, es), w)
  {
  }

  lemma ExtendShrinks(h: Hist, w: Id, es: seq<Entry>)
    requires Basic(h) && CanExtend(h, w, es)
    ensures Shrinks(h, Extend(h, w, es))
  {
  }

  lemma ExtendedLog(h: Hist, w: Id, es: seq<Entry>)
    requires Basic(h) && LogsOk(h) && CanExtend(h, w, es)
    ensures Shape(h.virt[w] + es) && Valid(Extend(h, w, es), h.virt[w] + es) && TermsUpTo(h.virt[w] + es, h.term[w])
  {
    var L := h.virt[w] + es;
    var k := Extend(h, w, es);
    assert Shape(h.virt[w]) && Valid(h, h.virt[w]) && TermsUpTo(h.virt[w], h.term[w]);
    forall i | 0 <= i < |L|
      ensures L[i].term in k.llog && Agree(L, k.llog[L[i].term], i + 1)
    {
      if i < |h.virt[w]| {
        assert L[i] == h.virt[w][i];
        assert Agree(h.virt[w], h.llog[h.virt[w][i].term], i + 1);
      }
    }
  }

  lemma ExtendLogs(h: Hist, w: Id, es: seq<Entry>)
    requires Basic(h) && LogsOk(h) && CanExtend(h, w, es) && Basic(Extend(h, w, es))
    ensures LogsOk(Extend(h, w, es))
  {
    hide LogsOk, Shape, Valid, TermsUpTo;
    ExtendedLog(h, w, es);
    ValidKept(h, Extend(h, w, es));
  }

  lemma ExtendAcks(h: Hist, w: Id, es: seq<Entry>)
    requires Basic(h) && AcksOk(h) && CanExtend(h, w, es) && Basic(Extend(h, w, es))
    ensures AcksOk(Extend(h, w, es))
  {
  }

  /** Nothing a deposed leader adds can still be committed: a majority has moved past its term. */
  lemma ExtendTooLate(h: Hist, w: Id, es: seq<Entry>, U: nat, c: nat)
    requires Basic(h) && ElectionsOk(h) && AcksOk(h) && CanExtend(h, w, es) && U in h.llog && h.term[w] < U
    requires Possible(Extend(h, w, es), h.term[w], c)
    ensures c <= |h.virt[w]|
  {
    var k := Extend(h, w, es);
    var t := h.term[w];
    if c > |h.virt[w]| {
      var x := Overlap(h.servers, Hopefuls(k, t, c), Voters(h, U, h.leader[U]));
    }
  }

  lemma ExtendPossible(h: Hist, w: Id, es: seq<Entry>, T: nat, c: nat)
    requires Basic(h) && CanExtend(h, w, es) && Shrinks(h, Extend(h, w, es)) && Possible(Extend(h, w, es), T, c)
    requires T == h.term[w] ==> c <= |h.virt[w]|
    ensures Possible(h, T, c)
  {
    PossibleBefore(h, Extend(h, w, es), T, c);
  }

  lemma ExtendComplete(h: Hist, w: Id, es: seq<Entry>)
    requires Basic(h) && ElectionsOk(h) && AcksOk(h) && Complete(h)
    requires CanExtend(h, w, es) && Shrinks(h, Extend(h, w, es))
    ensures Complete(Extend(h, w, es))
  {
    var k := Extend(h, w, es);
    forall T, U, c | T < U && U in k.llog && Possible(k, T, c)
      ensures Agree(k.llog[T], k.llog[U], c)
    {
      if T == h.term[w] {
        ExtendTooLate(h, w, es, U, c);
      }
      ExtendPossible(h, w, es, T, c);
      assert Agree(h.llog[T], h.llog[U], c);
    }
  }

  lemma ExtendHeld(h: Hist, w: Id, es: seq<Entry>)
    requires Basic(h) && AcksOk(h) && Held(h)
    requires CanExtend(h, w, es) && Shrinks(h, Extend(h, w, es)) && Basic(Extend(h, w, es))
    ensures Held(Extend(h, w, es))
  {
    hide Shrinks, Hopefuls;
    var k := Extend(h, w, es);
    forall v, T, c | v in k.servers && Possible(k, T, c) && AckOf(k, v, T) >= c
      ensures Agree(k.llog[T], k.virt[v], c)
    {
      if (v, T) != (w, h.term[w]) {
        assert AckOf(h, v, T) >= c;
        ExtendPossible(h, w, es, T, c);
        assert Agree(h.llog[T], h.virt[v], c);
      }
    }
  }

  lemma ExtendVotesSafe(h: Hist, w: Id, es: seq<Entry>)
    requires Basic(h) && ElectionsOk(h) && AcksOk(h) && VotesSafe(h) && CanExtend(h, w, es)
    requires Shrinks(h, Extend(h, w, es)) && Basic(Extend(h, w, es)) && ElectionsOk(Extend(h, w, es))
    ensures VotesSafe(Extend(h, w, es))
  {
    hide Shrinks, Hopefuls;
    var k := Extend(h, w, es);
    forall v, U, T, c | (v, U) in k.votes && T < U && Possible(k, T, c) && AckOf(k, v, T) >= c
      ensures Agree(k.llog[T], k.cands[(k.votes[(v, U)], U)], c)
    {
      assert (v, T) != (w, h.term[w]);
      assert AckOf(h, v, T) >= c;
      ExtendPossible(h, w, es, T, c);
    }
  }

  // ---------------------------------------------------------------------------
  // A follower takes over a prefix of its leader's log
  // ---------------------------------------------------------------------------

  ghost function Adopt(h: Hist, v: Id, M: nat): Hist
    requires v in h.term && h.term[v] in h.llog && M <= |h.llog[h.term[v]]|
  {
    h.(virt := h.virt[v := h.llog[h.term[v]][..M]])
  }

  /** The new length covers everything the follower already shares with the leader. */
  ghost predicate CanAdopt(h: Hist, v: Id, M: nat)
    requires Basic(h)
  {
    v in h.servers && h.term[v] in h.llog && M <= |h.llog[h.term[v]]| &&
    forall c: nat :: Agree(h.virt[v], h.llog[h.term[v]], c) ==> c <= M
  }

  lemma AdoptOk(h: Hist, v: Id, M: nat)
    requires Inv(h) && CanAdopt(h, v, M)
    ensures Inv(Adopt(h, v, M)) && Local(h, Adopt(h, v, M), v)
  {
    hide LogsOk, ElectionsOk, AcksOk, Complete, Held, VotesSafe, CommitsOk, Known, Grows, OthersRest, OthersLead,
      Shrinks;
    InvParts(h);
    var k := Adopt(h, v, M);
    AdoptLocal(h, v, M);
    AdoptLogs(h, v, M);
    ElectionsKept(h, k);
    AcksKept(h, k);
    CompleteKept(h, k);
    AdoptHeld(h, v, M);
    VotesSafeKept(h, k);
    CommitsKept(h, k);
    KnownKept(h, k);
  }

  lemma AdoptLocal(h: Hist, v: Id, M: nat)
    requires Basic(h) && CanAdopt(h, v, M)
    ensures Basic(Adopt(h, v, M)) && Local(h, Adopt(h, v, M), v) && Shrinks(h, Adopt(h, v, M))
  {
    hide Local, Shrinks;
    QuietLocal(h, Adopt(h, v, M), v);
  }

  lemma AdoptLogs(h: Hist, v: Id, M: nat)
    requires Basic(h) && LogsOk(h) && CanAdopt(h, v, M) && Basic(Adopt(h, v, M))
    ensures LogsOk(Adopt(h, v, M))
  {
    var L := h.llog[h.term[v]];
    assert Shape(L) && Valid(h, L) && TermsUpTo(L, h.term[v]);
    VirtLogs(h, v, L[..M]);
  }

  lemma VirtLogs(h: Hist, v: Id, L: seq<Entry>)
    requires Basic(h) && LogsOk(h) && v in h.servers && Basic(h.(virt := h.virt[v := L]))
    requires Shape(L) && Valid(h, L) && TermsUpTo(L, h.term[v])
    ensures LogsOk(h.(virt := h.virt[v := L]))
  {
    var k := h.(virt := h.virt[v := L]);
    ValidGrows(h, k, L);
    ValidKept(h, k);
  }

  lemma AdoptHeld(h: Hist, v: Id, M: nat)
    requires Basic(h) && AcksOk(h) && Complete(h) && Held(h) && CanAdopt(h, v, M)
    requires Basic(Adopt(h, v, M)) && Shrinks(h, Adopt(h, v, M))
    ensures Held(Adopt(h, v, M))
  {
    hide Shrinks, Hopefuls;
    var k := Adopt(h, v, M);
    forall w, T, c | w in k.servers && Possible(k, T, c) && AckOf(k, w, T) >= c
      ensures Agree(k.llog[T], k.virt[w], c)
    {
      PossibleBefore(h, k, T, c);
      assert AckOf(h, w, T) >= c;
      assert Agree(h.llog[T], h.virt[w], c);
      if w == v {
        var U := h.term[v];
        assert T < U ==> Agree(h.llog[T], h.llog[U], c);
        assert Agree(h.virt[v], h.llog[U], c);
      }
    }
  }

  /** A follower acknowledges `M` entries to its leader. */
  ghost function Acknowledge(h: Hist, v: Id, M: nat): Hist
    requires v in h.term
  {
    var T := h.term[v];
    h.(acks := h.acks[(v, T) := if AckOf(h, v, T) >= M then AckOf(h, v, T) else M])
  }

  lemma AcknowledgeOk(h: Hist, v: Id, M: nat)
    requires Inv(h) && v in h.servers && h.term[v] in h.llog && Agree(h.llog[h.term[v]], h.virt[v], M)
    ensures Inv(Acknowledge(h, v, M)) && Local(h, Acknowledge(h, v, M), v)
    ensures AckOf(Acknowledge(h, v, M), v, h.term[v]) >= M
  {
    hide LogsOk, ElectionsOk, AcksOk, Complete, Held, VotesSafe, CommitsOk, Known, Grows, OthersRest, OthersLead,
      Shrinks;
    InvParts(h);
    var k := Acknowledge(h, v, M);
    AcknowledgeLocal(h, v, M);
    LogsKept(h, k);
    ElectionsKept(h, k);
    CompleteKept(h, k);
    AcknowledgeHeld(h, v, M);
    AcknowledgeVotesSafe(h, v, M);
    CommitsKept(h, k);
    KnownKept(h, k);
  }

  lemma AcknowledgeLocal(h: Hist, v: Id, M: nat)
    requires Basic(h) && AcksOk(h) && v in h.servers && h.term[v] in h.llog && M <= |h.llog[h.term[v]]|
    ensures Basic(Acknowledge(h, v, M)) && Local(h, Acknowledge(h, v, M), v) && Shrinks(h, Acknowledge(h, v, M))
    ensures AcksOk(Acknowledge(h, v, M)) && AckOf(Acknowledge(h, v, M), v, h.term[v]) >= M
  {
    AcknowledgeGrows(h, v, M);
    AcknowledgeOthers(h, v, M);
    hide Grows, OthersRest, OthersLead, Shrinks;
  }

  lemma AcknowledgeGrows(h: Hist, v: Id, M: nat)
    requires Basic(h) && v in h.servers
    ensures Grows(h, Acknowledge(h, v, M)) && Shrinks(h, Acknowledge(h, v, M))
  {
  }

  lemma AcknowledgeOthers(h: Hist, v: Id, M: nat)
    requires Basic(h) && v in h.servers
    ensures OthersRest(h, Acknowledge(h, v, M), v) && OthersLead(h, Acknowledge(h, v, M), v)
  {
  }

  lemma AcknowledgeHeld(h: Hist, v: Id, M: nat)
    requires Basic(h) && Held(h) && v in h.servers && h.term[v] in h.llog && Agree(h.llog[h.term[v]], h.virt[v], M)
    requires Basic(Acknowledge(h, v, M)) && Shrinks(h, Acknowledge(h, v, M))
    ensures Held(Acknowledge(h, v, M))
  {
    var k := Acknowledge(h, v, M);
    forall w, T: nat, c: nat | w in k.servers && Possible(k, T, c) && AckOf(k, w, T) >= c
      ensures Agree(k.llog[T], k.virt[w], c)
    {
      PossibleBefore(h, k, T, c);
      assert AckOf(h, w, T) >= c || (w == v && T == h.term[v] && c <= M);
    }
  }

  lemma AcknowledgeVotesSafe(h: Hist, v: Id, M: nat)
    requires Basic(h) && ElectionsOk(h) && VotesSafe(h) && v in h.servers
    requires Basic(Acknowledge(h, v, M)) && ElectionsOk(Acknowledge(h, v, M)) && Shrinks(h, Acknowledge(h, v, M))
    ensures VotesSafe(Acknowledge(h, v, M))
  {
    var k := Acknowledge(h, v, M);
    forall w, U, T, c | (w, U) in k.votes && T < U && Possible(k, T, c) && AckOf(k, w, T) >= c
      ensures Agree(k.llog[T], k.cands[(k.votes[(w, U)], U)], c)
    {
      PossibleBefore(h, k, T, c);
      assert AckOf(h, w, T) >= c;
    }
  }

  // ---------------------------------------------------------------------------
  // Commitment, and what servers learn of it
  // ---------------------------------------------------------------------------

  ghost function Commit(h: Hist, T: nat, c: nat): Hist { h.(commits := h.commits[T := c]) }

  lemma CommitOk(h: Hist, v: Id, T: nat, c: nat)
    requires Inv(h) && Slot(h, T, c) && h.leader[T] == v && Majority(h.servers, Holders(h, T, c))
    requires T in h.commits ==> h.commits[T] <= c
    ensures Inv(Commit(h, T, c)) && Local(h, Commit(h, T, c), v)
  {
    hide LogsOk, ElectionsOk, AcksOk, Complete, Held, VotesSafe, CommitsOk, Known, Grows, OthersRest, OthersLead,
      Shrinks;
    InvParts(h);
    var k := Commit(h, T, c);
    CommitLocal(h, v, T, c);
    LogsKept(h, k);
    ElectionsKept(h, k);
    AcksKept(h, k);
    CompleteKept(h, k);
    HeldKept(h, k);
    VotesSafeKept(h, k);
    CommitCommits(h, T, c);
    KnownKept(h, k);
  }

  lemma CommitLocal(h: Hist, v: Id, T: nat, c: nat)
    requires Basic(h) && T in h.llog && h.leader[T] == v && (T in h.commits ==> h.commits[T] <= c)
    ensures Basic(Commit(h, T, c)) && Local(h, Commit(h, T, c), v) && Shrinks(h, Commit(h, T, c))
  {
  }

  lemma CommitCommits(h: Hist, T: nat, c: nat)
    requires CommitsOk(h) && Slot(h, T, c) && Majority(h.servers, Holders(h, T, c))
    ensures CommitsOk(Commit(h, T, c))
  {
    var k := Commit(h, T, c);
    forall U | U in k.commits
      ensures Slot(k, U, k.commits[U]) && Majority(k.servers, Holders(k, U, k.commits[U]))
    {
      assert Holders(k, U, k.commits[U]) == Holders(h, U, k.commits[U]);
    }
  }

  /** A server takes `L` for its committed prefix. */
  ghost function Learn(h: Hist, v: Id, L: seq<Entry>): Hist { h.(cp := h.cp[v := L]) }

  lemma LearnOk(h: Hist, v: Id, L: seq<Entry>)
    requires Inv(h) && v in h.servers && Committed(h, L, h.term[v])
    ensures Inv(Learn(h, v, L)) && Local(h, Learn(h, v, L), v)
  {
    hide LogsOk, ElectionsOk, AcksOk, Complete, Held, VotesSafe, CommitsOk, Known, Grows, OthersRest, OthersLead,
      Shrinks;
    InvParts(h);
    var k := Learn(h, v, L);
    LearnLocal(h, v, L);
    LogsKept(h, k);
    ElectionsKept(h, k);
    AcksKept(h, k);
    CompleteKept(h, k);
    HeldKept(h, k);
    VotesSafeKept(h, k);
    CommitsKept(h, k);
    LearnKnown(h, v, L);
  }

  lemma LearnLocal(h: Hist, v: Id, L: seq<Entry>)
    requires Basic(h) && v in h.servers
    ensures Basic(Learn(h, v, L)) && Local(h, Learn(h, v, L), v) && Shrinks(h, Learn(h, v, L))
  {
    hide Local, Shrinks;
    QuietLocal(h, Learn(h, v, L), v);
  }

  lemma LearnKnown(h: Hist, v: Id, L: seq<Entry>)
    requires Basic(h) && Known(h) && v in h.servers && Committed(h, L, h.term[v])
    requires Basic(Learn(h, v, L)) && Grows(h, Learn(h, v, L))
    ensures Known(Learn(h, v, L))
  {
    var k := Learn(h, v, L);
    forall w | w in k.servers
      ensures Committed(k, k.cp[w], k.term[w])
    {
      CommittedGrows(h, k, k.cp[w], h.term[w], k.term[w]);
    }
  }

  /** A snapshot that covers the whole log takes its place. */
  ghost function Collapse(h: Hist, v: Id, L: seq<Entry>): Hist { h.(virt := h.virt[v := L]) }

  lemma CollapseOk(h: Hist, v: Id, L: seq<Entry>)
    requires Inv(h) && v in h.servers && Committed(h, L, h.term[v]) && |h.virt[v]| <= |L|
    ensures Inv(Collapse(h, v, L)) && Local(h, Collapse(h, v, L), v)
  {
    hide LogsOk, ElectionsOk, AcksOk, Complete, Held, VotesSafe, CommitsOk, Known, Grows, OthersRest, OthersLead,
      Shrinks;
    InvParts(h);
    var k := Collapse(h, v, L);
    CollapseLocal(h, v, L);
    CollapseLogs(h, v, L);
    ElectionsKept(h, k);
    AcksKept(h, k);
    CompleteKept(h, k);
    CollapseHeld(h, v, L);
    VotesSafeKept(h, k);
    CommitsKept(h, k);
    KnownKept(h, k);
  }

  lemma CollapseLocal(h: Hist, v: Id, L: seq<Entry>)
    requires Basic(h) && v in h.servers
    ensures Basic(Collapse(h, v, L)) && Local(h, Collapse(h, v, L), v) && Shrinks(h, Collapse(h, v, L))
  {
    hide Local, Shrinks;
    QuietLocal(h, Collapse(h, v, L), v);
  }

  /** A committed prefix has the shape of a log. */
  lemma CommittedShape(h: Hist, L: seq<Entry>, t: nat)
    requires Basic(h) && LogsOk(h) && Committed(h, L, t)
    ensures Shape(L) && Valid(h, L) && TermsUpTo(L, t)
  {
    if L != [] {
      var T: nat :| CommittedBy(h, L, t, T);
      assert Shape(h.llog[T]) && Valid(h, h.llog[T]) && TermsUpTo(h.llog[T], T);
    }
  }

  lemma CollapseLogs(h: Hist, v: Id, L: seq<Entry>)
    requires Basic(h) && LogsOk(h) && v in h.servers && Committed(h, L, h.term[v]) && Basic(Collapse(h, v, L))
    ensures LogsOk(Collapse(h, v, L))
  {
    CommittedShape(h, L, h.term[v]);
    VirtLogs(h, v, L);
  }

  lemma CollapseHeld(h: Hist, v: Id, L: seq<Entry>)
    requires Basic(h) && CommitsOk(h) && Complete(h) && Held(h) && v in h.servers
    requires Committed(h, L, h.term[v]) && |h.virt[v]| <= |L|
    requires Basic(Collapse(h, v, L)) && Shrinks(h, Collapse(h, v, L))
    ensures Held(Collapse(h, v, L))
  {
    var k := Collapse(h, v, L);
    forall w, T, c | w in k.servers && Possible(k, T, c) && AckOf(k, w, T) >= c
      ensures Agree(k.llog[T], k.virt[w], c)
    {
      PossibleBefore(h, k, T, c);
      assert AckOf(h, w, T) >= c;
      assert Agree(h.llog[T], h.virt[w], c);
      if w == v {
        CollapseKeeps(h, L, h.term[v], T, c);
      }
    }
  }

  /** What may be committed and what is committed do not disagree. */
  lemma CollapseKeeps(h: Hist, L: seq<Entry>, t: nat, T: nat, c: nat)
    requires CommitsOk(h) && Complete(h) && Committed(h, L, t) && Possible(h, T, c) && c <= |L|
    ensures Agree(h.llog[T], L, c)
  {
    var U: nat :| CommittedBy(h, L, t, U);
    CommitsArePossible(h, U);
    if T < U {
      assert Agree(h.llog[T], h.llog[U], c);
    } else if U < T {
      assert Agree(h.llog[U], h.llog[T], h.commits[U]);
    }
  }
}
