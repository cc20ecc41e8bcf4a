/**
  The history a Raft run leaves behind, and why it is safe.

  A `Hist` is never stored by a server. It is rebuilt beside each run, one small step at
  a time, and holds what the safety argument speaks about: each server's term, votes per
  term, the log every leader had, which server acknowledged how much to which leader, and
  what each leader committed.

  Two sequences stand for a server's log. `virt[v]` is the log as its terms present it
  (the election restriction compares its last entry). `cp[v]` is the prefix the server
  knows to be committed. After an InstallSnapshot the two may disagree: the suffix kept
  above the snapshot is the old one, whatever the snapshot says about the entries below.
*/
module History {
  import opened RaftTypes
  import opened Quorums

  datatype Hist = Hist(
    servers: set<Id>,
    term: map<Id, nat>,
    virt: map<Id, seq<Entry>>,
    cp: map<Id, seq<Entry>>,
    llog: map<nat, seq<Entry>>,
    leader: map<nat, Id>,
    votes: map<(Id, nat), Id>,
    cands: map<(Id, nat), seq<Entry>>,
    acks: map<(Id, nat), nat>,
    commits: map<nat, nat>)

  // ---------------------------------------------------------------------------
  // Vocabulary
  // ---------------------------------------------------------------------------

  /** `a` and `b` share their first `c` entries. */
  ghost predicate Agree(a: seq<Entry>, b: seq<Entry>, c: nat)
  {
    c <= |a| && c <= |b| && forall i :: 0 <= i < c ==> a[i] == b[i]
  }

  ghost function TermOf(h: Hist, v: Id): nat { if v in h.term then h.term[v] else 0 }

  ghost function AckOf(h: Hist, v: Id, T: nat): nat { if (v, T) in h.acks then h.acks[(v, T)] else 0 }

  /** The servers that acknowledged `c` entries to the leader of `T`. */
  ghost function Holders(h: Hist, T: nat, c: nat): set<Id>
  {
    set v | v in h.servers && AckOf(h, v, T) >= c
  }

  /** The servers that did, or that have not left `T` behind and so still may. */
  ghost function Hopefuls(h: Hist, T: nat, c: nat): set<Id>
  {
    set v | v in h.servers && (AckOf(h, v, T) >= c || TermOf(h, v) <= T)
  }

  ghost function Voters(h: Hist, T: nat, w: Id): set<Id>
  {
    set v | v in h.servers && (v, T) in h.votes && h.votes[(v, T)] == w
  }

  /** Index `c` of the leader log of `T` was created in `T` itself. */
  ghost predicate Slot(h: Hist, T: nat, c: nat)
  {
    T in h.llog && 1 <= c <= |h.llog[T]| && h.llog[T][c - 1].term == T
  }

  /** `c` has been, or may yet be, committed by the leader of `T`. */
  ghost predicate Possible(h: Hist, T: nat, c: nat)
  {
    Slot(h, T, c) && Majority(h.servers, Hopefuls(h, T, c))
  }

  /** `L` is a prefix of what some leader of a term up to `t` committed. */
  ghost predicate Committed(h: Hist, L: seq<Entry>, t: nat)
  {
    L == [] || exists T :: CommittedBy(h, L, t, T)
  }

  ghost predicate CommittedBy(h: Hist, L: seq<Entry>, t: nat, T: nat)
  {
    T in h.commits && T in h.llog && T <= t && |L| <= h.commits[T] && Agree(L, h.llog[T], |L|)
  }

  /** Indices count from 1 and terms never decrease. */
  ghost predicate Shape(L: seq<Entry>)
  {
    (forall i :: 0 <= i < |L| ==> L[i].index == i + 1 && 1 <= L[i].term) &&
    (forall i, j :: 0 <= i < j < |L| ==> L[i].term <= L[j].term)
  }

  ghost predicate TermsUpTo(L: seq<Entry>, t: nat)
  {
    forall i :: 0 <= i < |L| ==> L[i].term <= t
  }

  /** Log Matching, said once and for all: a log ending in an entry of term `t` is what the
      leader of `t` had up to that entry. */
  ghost predicate Valid(h: Hist, L: seq<Entry>)
  {
    forall i :: 0 <= i < |L| ==> L[i].term in h.llog && Agree(L, h.llog[L[i].term], i + 1)
  }

  ghost function LastTerm(L: seq<Entry>): nat { if L == [] then 0 else L[|L| - 1].term }

  /** The election restriction of section 5.4.1 of the Raft paper. */
  ghost predicate UpToDate(lastTerm: nat, lastIndex: nat, L: seq<Entry>)
  {
    lastTerm > LastTerm(L) || (lastTerm == LastTerm(L) && lastIndex >= |L|)
  }

  // ---------------------------------------------------------------------------
  // The invariant
  // ---------------------------------------------------------------------------

  ghost predicate Basic(h: Hist)
  {
    h.term.Keys == h.servers && h.virt.Keys == h.servers && h.cp.Keys == h.servers &&
    h.leader.Keys == h.llog.Keys
  }

  ghost predicate LogsOk(h: Hist)
    requires Basic(h)
  {
    (forall T :: T in h.llog ==> Shape(h.llog[T]) && Valid(h, h.llog[T]) && TermsUpTo(h.llog[T], T)) &&
    (forall v :: v in h.servers ==> Shape(h.virt[v]) && Valid(h, h.virt[v]) && TermsUpTo(h.virt[v], h.term[v])) &&
    (forall v, T :: (v, T) in h.cands ==> Shape(h.cands[(v, T)]) && Valid(h, h.cands[(v, T)]))
  }

  ghost predicate ElectionsOk(h: Hist)
    requires Basic(h)
  {
    (forall v, T :: (v, T) in h.votes ==> v in h.servers && T <= h.term[v] && (h.votes[(v, T)], T) in h.cands) &&
    (forall w, T :: (w, T) in h.cands ==>
      w in h.servers && 1 <= T <= h.term[w] && (w, T) in h.votes && h.votes[(w, T)] == w &&
      forall i :: 0 <= i < |h.cands[(w, T)]| ==> h.cands[(w, T)][i].term < T) &&
    (forall T :: T in h.llog ==>
      (h.leader[T], T) in h.cands && Majority(h.servers, Voters(h, T, h.leader[T])))
  }

  ghost predicate AcksOk(h: Hist)
    requires Basic(h)
  {
    forall v, T :: (v, T) in h.acks ==>
      v in h.servers && T in h.llog && h.acks[(v, T)] <= |h.llog[T]| && T <= h.term[v]
  }

  /** Leader Completeness, for everything that may still be committed. */
  ghost predicate Complete(h: Hist)
  {
    forall T, U, c :: T < U && U in h.llog && Possible(h, T, c) ==> Agree(h.llog[T], h.llog[U], c)
  }

  /** A server keeps what it acknowledged for as long as that may matter. */
  ghost predicate Held(h: Hist)
    requires Basic(h)
  {
    forall v, T, c :: v in h.servers && Possible(h, T, c) && AckOf(h, v, T) >= c ==> Agree(h.llog[T], h.virt[v], c)
  }

  /** A candidate holds everything that its voters had acknowledged before they voted. */
  ghost predicate VotesSafe(h: Hist)
    requires Basic(h) && ElectionsOk(h)
  {
    forall v, U, T, c ::
      (v, U) in h.votes && T < U && Possible(h, T, c) && AckOf(h, v, T) >= c ==>
      Agree(h.llog[T], h.cands[(h.votes[(v, U)], U)], c)
  }

  ghost predicate CommitsOk(h: Hist)
  {
    forall T :: T in h.commits ==> Slot(h, T, h.commits[T]) && Majority(h.servers, Holders(h, T, h.commits[T]))
  }

  ghost predicate Known(h: Hist)
    requires Basic(h)
  {
    forall v :: v in h.servers ==> Committed(h, h.cp[v], h.term[v])
  }

  ghost predicate Inv(h: Hist)
  {
    Basic(h) && LogsOk(h) && ElectionsOk(h) && AcksOk(h) && Complete(h) && Held(h) && VotesSafe(h) &&
    CommitsOk(h) && Known(h)
  }

  lemma InvBasic(h: Hist)
    requires Inv(h)
    ensures Basic(h)
  {
  }

  lemma InvParts(h: Hist)
    requires Inv(h)
    ensures Basic(h) && LogsOk(h) && ElectionsOk(h) && AcksOk(h) && Complete(h) && Held(h) && VotesSafe(h)
    ensures CommitsOk(h) && Known(h)
  {
  }

  lemma VirtShape(h: Hist, v: Id)
    requires Basic(h) && LogsOk(h) && v in h.servers
    ensures Shape(h.virt[v]) && Valid(h, h.virt[v]) && TermsUpTo(h.virt[v], h.term[v])
  {
  }

  // ---------------------------------------------------------------------------
  // How histories grow
  // ---------------------------------------------------------------------------

  /** What later histories keep, whoever acts. */
  ghost predicate Grows(h: Hist, k: Hist)
  {
    k.servers == h.servers &&
    (forall v :: v in h.term ==> v in k.term && h.term[v] <= k.term[v]) &&
    (forall T :: T in h.llog ==> T in k.llog && h.llog[T] <= k.llog[T]) &&
    (forall T, i :: T in h.llog && T in k.llog && |h.llog[T]| <= i < |k.llog[T]| ==> k.llog[T][i].term == T) &&
    (forall T :: T in h.leader ==> T in k.leader && k.leader[T] == h.leader[T]) &&
    (forall v, T :: (v, T) in h.votes ==> (v, T) in k.votes && k.votes[(v, T)] == h.votes[(v, T)]) &&
    (forall v, T :: (v, T) in h.cands ==> (v, T) in k.cands && k.cands[(v, T)] == h.cands[(v, T)]) &&
    (forall v, T :: AckOf(h, v, T) <= AckOf(k, v, T)) &&
    (forall T :: T in h.commits ==> T in k.commits && h.commits[T] <= k.commits[T])
  }

  /** Only server `v` acted between `h` and `k`. */
  ghost predicate Local(h: Hist, k: Hist, v: Id)
  {
    Grows(h, k) && OthersRest(h, k, v) && OthersLead(h, k, v)
  }

  ghost predicate OthersRest(h: Hist, k: Hist, v: Id)
  {
    k.term.Keys == h.term.Keys && k.virt.Keys == h.virt.Keys && k.cp.Keys == h.cp.Keys &&
    (forall w :: w in h.term && w != v ==> k.term[w] == h.term[w]) &&
    (forall w :: w in h.virt && w != v ==> k.virt[w] == h.virt[w]) &&
    (forall w :: w in h.cp && w != v ==> k.cp[w] == h.cp[w])
  }

  ghost predicate OthersLead(h: Hist, k: Hist, v: Id)
  {
    (forall T :: T in k.llog && T !in h.llog ==> T in k.leader && k.leader[T] == v) &&
    (forall T :: T in h.llog && T in h.leader && h.leader[T] != v ==> T in k.llog && k.llog[T] == h.llog[T]) &&
    (forall w, T :: (w, T) in k.votes && w != v ==> (w, T) in h.votes) &&
    (forall w, T :: (w, T) in k.cands && w != v ==> (w, T) in h.cands) &&
    (forall T :: T in k.commits && (T !in h.commits || k.commits[T] != h.commits[T]) ==>
      T in k.leader && k.leader[T] == v)
  }

  lemma GrowsTrans(a: Hist, b: Hist, c: Hist)
    requires Grows(a, b) && Grows(b, c)
    ensures Grows(a, c)
  {
    TermsAndLogsGrow(a, b, c);
    VotesAndAcksGrow(a, b, c);
  }

  lemma TermsAndLogsGrow(a: Hist, b: Hist, c: Hist)
    requires Grows(a, b) && Grows(b, c)
    ensures forall v :: v in a.term ==> v in c.term && a.term[v] <= c.term[v]
    ensures forall T :: T in a.llog ==> T in c.llog && a.llog[T] <= c.llog[T]
    ensures forall T, i :: T in a.llog && T in c.llog && |a.llog[T]| <= i < |c.llog[T]| ==> c.llog[T][i].term == T
    ensures forall T :: T in a.leader ==> T in c.leader && c.leader[T] == a.leader[T]
  {
    hide AckOf;
  }

  lemma VotesAndAcksGrow(a: Hist, b: Hist, c: Hist)
    requires Grows(a, b) && Grows(b, c)
    ensures forall v, T :: (v, T) in a.votes ==> (v, T) in c.votes && c.votes[(v, T)] == a.votes[(v, T)]
    ensures forall v, T :: (v, T) in a.cands ==> (v, T) in c.cands && c.cands[(v, T)] == a.cands[(v, T)]
    ensures forall v, T :: AckOf(a, v, T) <= AckOf(c, v, T)
    ensures forall T :: T in a.commits ==> T in c.commits && a.commits[T] <= c.commits[T]
  {
    hide AckOf;
    forall v, T
      ensures AckOf(a, v, T) <= AckOf(c, v, T)
    {
      assert AckOf(a, v, T) <= AckOf(b, v, T) <= AckOf(c, v, T);
    }
  }

  lemma LocalTrans(a: Hist, b: Hist, c: Hist, v: Id)
    requires Local(a, b, v) && Local(b, c, v)
    ensures Local(a, c, v)
  {
    GrowsTrans(a, b, c);
    OthersRestTrans(a, b, c, v);
    OthersLeadTrans(a, b, c, v);
    hide *;
  }

  lemma OthersRestTrans(a: Hist, b: Hist, c: Hist, v: Id)
    requires OthersRest(a, b, v) && OthersRest(b, c, v)
    ensures OthersRest(a, c, v)
  {
  }

  lemma OthersLeadTrans(a: Hist, b: Hist, c: Hist, v: Id)
    requires Grows(a, b) && Grows(b, c) && OthersLead(a, b, v) && OthersLead(b, c, v)
    ensures OthersLead(a, c, v)
  {
  }

  lemma CommittedGrows(h: Hist, k: Hist, L: seq<Entry>, t: nat, u: nat)
    requires Grows(h, k) && Committed(h, L, t) && t <= u
    ensures Committed(k, L, u)
  {
    if L != [] {
      var T: nat :| CommittedBy(h, L, t, T);
      assert CommittedBy(k, L, u, T);
    }
  }

  lemma CommittedPrefix(h: Hist, L: seq<Entry>, t: nat, n: nat)
    requires Committed(h, L, t) && n <= |L|
    ensures Committed(h, L[..n], t)
  {
    if n > 0 {
      var T: nat :| CommittedBy(h, L, t, T);
      assert CommittedBy(h, L[..n], t, T);
    }
  }

  /** Nobody becomes hopeful again: terms only rise, and only a server still in `T` acknowledges `T`. */
  ghost predicate Shrinks(h: Hist, k: Hist)
  {
    k.servers == h.servers &&
    (forall v :: v in h.servers ==> TermOf(h, v) <= TermOf(k, v)) &&
    (forall v, T :: v in h.servers && AckOf(k, v, T) > AckOf(h, v, T) ==> TermOf(h, v) <= T)
  }

  lemma PossibleBefore(h: Hist, k: Hist, T: nat, c: nat)
    requires Shrinks(h, k) && Possible(k, T, c) && Slot(h, T, c)
    ensures Possible(h, T, c)
  {
    assert Hopefuls(k, T, c) <= Hopefuls(h, T, c);
    Widen(h.servers, Hopefuls(k, T, c), Hopefuls(h, T, c));
  }

  lemma CommitsArePossible(h: Hist, T: nat)
    requires CommitsOk(h) && T in h.commits
    ensures Possible(h, T, h.commits[T])
  {
    Widen(h.servers, Holders(h, T, h.commits[T]), Hopefuls(h, T, h.commits[T]));
  }

  // ---------------------------------------------------------------------------
  // Consequences of the invariant
  // ---------------------------------------------------------------------------

  /** Whatever was committed in a term up to `U` is in the log of the leader of `U`. */
  lemma LeaderHasCommitted(h: Hist, L: seq<Entry>, t: nat, U: nat)
    requires CommitsOk(h) && Complete(h) && Committed(h, L, t) && t <= U && U in h.llog
    ensures Agree(L, h.llog[U], |L|)
  {
    if L != [] {
      var T: nat :| CommittedBy(h, L, t, T);
      CommitsArePossible(h, T);
      if T < U {
        assert Agree(h.llog[T], h.llog[U], h.commits[T]);
      }
    }
  }

  /** Two committed prefixes never disagree. */
  lemma CommittedAgree(h: Hist, L: seq<Entry>, t: nat, M: seq<Entry>, u: nat)
    requires CommitsOk(h) && Complete(h) && Committed(h, L, t) && Committed(h, M, u) && |L| <= |M|
    ensures L <= M
  {
    if L != [] {
      var T: nat :| CommittedBy(h, L, t, T);
      var U: nat :| CommittedBy(h, M, u, U);
      var top := if T <= U then U else T;
      LeaderHasCommitted(h, L, T, top) by { assert CommittedBy(h, L, T, T); }
      LeaderHasCommitted(h, M, U, top) by { assert CommittedBy(h, M, U, U); }
    }
  }

  /** Logs that hold an entry of the same index and term are equal up to it. */
  lemma LogMatching(h: Hist, a: seq<Entry>, b: seq<Entry>, i: nat)
    requires Valid(h, a) && Valid(h, b) && i < |a| && i < |b| && a[i].term == b[i].term
    ensures Agree(a, b, i + 1)
  {
    assert Agree(a, h.llog[a[i].term], i + 1);
    assert Agree(b, h.llog[b[i].term], i + 1);
  }
}
