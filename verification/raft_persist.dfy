/**
  What a server has on disk, and what recovery makes of it.

  The disk is a write-ahead log of records beside one snapshot file. Records are added at
  the end one by one; the snapshot file and the whole log are each replaced by a rename.
  A crash may fall between any two of these.
*/
module Persist {
  import opened RaftTypes

  datatype Record = HardState(term: nat, vote: nat) | Put(entry: Entry) | Cut(from: nat)

  datatype Disk = Disk(wal: seq<Record>, snap: Snap)

  /** What replaying the log yields, before the snapshot is considered. */
  datatype Replayed = Replayed(term: nat, vote: nat, entries: seq<Entry>)

  /** What recovery hands to the server. */
  datatype Persisted = Persisted(term: nat, vote: nat, entries: seq<Entry>, snap: Snap)

  const EMPTY_DISK := Disk([], NO_SNAP)

  /** Drop every trailing entry with index at least `from`. */
  function DropTail(es: seq<Entry>, from: nat): (r: seq<Entry>)
    ensures r <= es
  {
    if |es| > 0 && es[|es| - 1].index >= from then DropTail(es[..|es| - 1], from) else es
  }

  /** Drop every leading entry with index at most `k`. */
  function DropHead(es: seq<Entry>, k: nat): seq<Entry>
  {
    if |es| > 0 && es[0].index <= k then DropHead(es[1..], k) else es
  }

  function ReplayOne(st: Replayed, r: Record): Replayed
  {
    match r
    case HardState(t, v) => st.(term := t, vote := v)
    case Put(e) => st.(entries := st.entries + [e])
    case Cut(from) => st.(entries := DropTail(st.entries, from))
  }

  function Replay(wal: seq<Record>): Replayed
  {
    if wal == [] then Replayed(0, NO_VOTE, [])
    else ReplayOne(Replay(wal[..|wal| - 1]), wal[|wal| - 1])
  }

  function Recover(d: Disk): Persisted
  {
    var st := Replay(d.wal);
    Persisted(st.term, st.vote, if d.snap.index > 0 then DropHead(st.entries, d.snap.index) else st.entries, d.snap)
  }

  /** Entries with consecutive indices from `k + 1` on. */
  predicate Consecutive(es: seq<Entry>, k: nat)
  {
    forall i :: 0 <= i < |es| ==> es[i].index == k + 1 + i
  }

  function Puts(es: seq<Entry>): seq<Record> { seq(|es|, i requires 0 <= i < |es| => Put(es[i])) }

  /** The part of consecutive entries from `k + 1` on that lies above `m`. */
  function Above(es: seq<Entry>, k: nat, m: nat): seq<Entry>
    requires k <= m
  {
    if m - k <= |es| then es[m - k..] else []
  }

  // ---------------------------------------------------------------------------
  // The persister's calls, and every durable state each passes through
  // ---------------------------------------------------------------------------

  datatype Call =
    | SaveHardState(term: nat, vote: nat)
    | AppendEntries(entries: seq<Entry>)
    | TruncateFrom(from: nat)
    | SaveSnapshot(snap: Snap, hardTerm: nat, hardVote: nat, keep: seq<Entry>)

  function AddRecord(d: Disk, r: Record): Disk { d.(wal := d.wal + [r]) }

  function AddEntries(d: Disk, es: seq<Entry>): Disk { d.(wal := d.wal + Puts(es)) }

  /** The durable states a call passes through, in order. Entries of one batch reach the disk
      one after the other; a snapshot is renamed into place before the rewritten log is. */
  function Points(d: Disk, c: Call): (r: seq<Disk>)
    ensures |r| == Steps(c)
  {
    match c
    case SaveHardState(t, v) => [AddRecord(d, HardState(t, v))]
    case AppendEntries(es) => seq(|es|, i requires 0 <= i < |es| => AddEntries(d, es[..i + 1]))
    case TruncateFrom(from) => [AddRecord(d, Cut(from))]
    case SaveSnapshot(snap, t, v, keep) => [d.(snap := snap), Disk([HardState(t, v)] + Puts(keep), snap)]
  }

  function Steps(c: Call): nat
  {
    match c
    case SaveHardState(_, _) => 1
    case AppendEntries(es) => |es|
    case TruncateFrom(_) => 1
    case SaveSnapshot(_, _, _, _) => 2
  }

  function Done(d: Disk, c: Call): Disk
  {
    if Points(d, c) == [] then d else Points(d, c)[|Points(d, c)| - 1]
  }

  // ---------------------------------------------------------------------------
  // What recovery makes of it
  // ---------------------------------------------------------------------------

  lemma ReplaySnoc(wal: seq<Record>, r: Record)
    ensures Replay(wal + [r]) == ReplayOne(Replay(wal), r)
  {
    assert (wal + [r])[..|wal|] == wal;
  }

  lemma {:induction false} ReplayPuts(wal: seq<Record>, es: seq<Entry>)
    ensures Replay(wal + Puts(es)) == Replay(wal).(entries := Replay(wal).entries + es)
  {
    if es == [] {
      assert wal + Puts(es) == wal;
    } else {
      var init := es[..|es| - 1];
      ReplayPuts(wal, init);
      ReplaySnoc(wal + Puts(init), Put(es[|es| - 1]));
      assert wal + Puts(es) == wal + Puts(init) + [Put(es[|es| - 1])];
      assert es == init + [es[|es| - 1]];
      assert Replay(wal).entries + es == Replay(wal).entries + init + [es[|es| - 1]];
    }
  }

  lemma {:induction false} DropHeadAppend(es: seq<Entry>, fs: seq<Entry>, k: nat)
    requires forall i :: 0 <= i < |fs| ==> fs[i].index > k
    ensures DropHead(es + fs, k) == DropHead(es, k) + fs
  {
    if es == [] {
      assert es + fs == fs;
    } else if es[0].index <= k {
      DropHeadAppend(es[1..], fs, k);
      assert (es + fs)[1..] == es[1..] + fs;
    }
  }

  lemma {:induction false} DropHeadTwice(es: seq<Entry>, k: nat, m: nat)
    requires k <= m
    ensures DropHead(DropHead(es, k), m) == DropHead(es, m)
  {
    if es != [] && es[0].index <= k {
      DropHeadTwice(es[1..], k, m);
    }
  }

  lemma {:induction false} DropHeadConsecutive(es: seq<Entry>, k: nat, m: nat)
    requires Consecutive(es, k) && k <= m
    ensures DropHead(es, m) == Above(es, k, m)
    decreases |es|
  {
    if es != [] && k < m {
      DropHeadConsecutive(es[1..], k + 1, m);
    }
  }

  /** A truncation above the snapshot reaches only live entries. */
  lemma {:induction false} DropTailLive(raw: seq<Entry>, k: nat, from: nat)
    requires Consecutive(DropHead(raw, k), k) && from > k
    ensures DropHead(DropTail(raw, from), k) ==
      if from - k - 1 <= |DropHead(raw, k)| then DropHead(raw, k)[..from - k - 1] else DropHead(raw, k)
    decreases |raw|
  {
    if raw != [] {
      var init := raw[..|raw| - 1];
      var e := raw[|raw| - 1];
      assert raw == init + [e];
      if e.index >= from {
        DropHeadAppend(init, [e], k);
        assert DropHead(raw, k) == DropHead(init, k) + [e];
        assert forall i :: 0 <= i < |DropHead(init, k)| ==> DropHead(init, k)[i] == DropHead(raw, k)[i];
        DropTailLive(init, k, from);
        assert DropHead(raw, k)[|DropHead(init, k)|] == e;
      } else {
        DropTailShort(raw, k, from);
      }
    }
  }

  lemma DropTailShort(raw: seq<Entry>, k: nat, from: nat)
    requires Consecutive(DropHead(raw, k), k) && raw != [] && raw[|raw| - 1].index < from && from > k
    ensures |DropHead(raw, k)| <= from - k - 1
  {
    DropHeadEnd(raw, k);
  }

  lemma {:induction false} DropHeadEnd(es: seq<Entry>, k: nat)
    ensures DropHead(es, k) == [] || (es != [] && DropHead(es, k)[|DropHead(es, k)| - 1] == es[|es| - 1])
  {
    if es != [] && es[0].index <= k {
      DropHeadEnd(es[1..], k);
    }
  }

  lemma {:induction false} DropHeadNone(es: seq<Entry>)
    requires forall i :: 0 <= i < |es| ==> es[i].index > 0
    ensures DropHead(es, 0) == es
  {
  }

  // ---------------------------------------------------------------------------
  // Recovery refinement
  // ---------------------------------------------------------------------------

  /** The recovered log runs on consecutively from the snapshot. */
  predicate Sound(p: Persisted)
  {
    Consecutive(p.entries, p.snap.index)
  }

  function LastIndex(p: Persisted): nat { p.snap.index + |p.entries| }

  /** What the node guarantees of a call, given what is durable. */
  predicate Legal(p: Persisted, c: Call)
  {
    match c
    case SaveHardState(_, _) => true
    case AppendEntries(es) => Consecutive(es, LastIndex(p))
    case TruncateFrom(from) => from > p.snap.index
    case SaveSnapshot(snap, t, v, keep) =>
      snap.index > 0 && snap.index >= p.snap.index && t == p.term && v == p.vote &&
      DropHead(keep, snap.index) == Above(p.entries, p.snap.index, snap.index)
  }

  /** The state to recover after the first `i` durable steps of a call: an interrupted batch
      leaves a prefix, and a snapshot counts from its own rename on. */
  function Outcome(p: Persisted, c: Call, i: nat): Persisted
    requires Legal(p, c)
  {
    if i == 0 then p else
    match c
    case SaveHardState(t, v) => p.(term := t, vote := v)
    case AppendEntries(es) => p.(entries := p.entries + if i <= |es| then es[..i] else es)
    case TruncateFrom(from) =>
      p.(entries := if from - p.snap.index - 1 <= |p.entries| then p.entries[..from - p.snap.index - 1] else p.entries)
    case SaveSnapshot(snap, _, _, _) => p.(snap := snap, entries := Above(p.entries, p.snap.index, snap.index))
  }

  /** The raw replay, seen through the snapshot. */
  lemma RecoverEntries(d: Disk)
    requires Sound(Recover(d))
    ensures Recover(d).entries == DropHead(Replay(d.wal).entries, d.snap.index)
  {
    if d.snap.index == 0 {
      DropHeadNone(Replay(d.wal).entries);
    }
  }

  lemma RecoverHardState(d: Disk, t: nat, v: nat)
    ensures Recover(AddRecord(d, HardState(t, v))) == Recover(d).(term := t, vote := v)
  {
    ReplaySnoc(d.wal, HardState(t, v));
  }

  lemma RecoverAppend(d: Disk, es: seq<Entry>)
    requires Sound(Recover(d)) && Consecutive(es, LastIndex(Recover(d)))
    ensures Recover(AddEntries(d, es)) == Recover(d).(entries := Recover(d).entries + es)
  {
    ReplayPuts(d.wal, es);
    RecoverEntries(d);
    DropHeadAppend(Replay(d.wal).entries, es, d.snap.index);
  }

  lemma RecoverTruncate(d: Disk, from: nat)
    requires Sound(Recover(d)) && from > d.snap.index
    ensures Recover(AddRecord(d, Cut(from))) == Outcome(Recover(d), TruncateFrom(from), 1)
  {
    ReplaySnoc(d.wal, Cut(from));
    RecoverEntries(d);
    var raw := Replay(d.wal).entries;
    DropTailLive(raw, d.snap.index, from);
    if d.snap.index == 0 {
      assert forall i :: 0 <= i < |DropTail(raw, from)| ==> DropTail(raw, from)[i] == raw[i];
      DropHeadNone(raw);
      DropHeadNone(DropTail(raw, from));
    }
  }

  lemma RecoverSnap(d: Disk, snap: Snap)
    requires Sound(Recover(d)) && snap.index > 0 && snap.index >= d.snap.index
    ensures Recover(d.(snap := snap)) ==
      Recover(d).(snap := snap, entries := Above(Recover(d).entries, d.snap.index, snap.index))
  {
    RecoverEntries(d);
    DropHeadTwice(Replay(d.wal).entries, d.snap.index, snap.index);
    DropHeadConsecutive(Recover(d).entries, d.snap.index, snap.index);
  }

  lemma RecoverRewrite(snap: Snap, t: nat, v: nat, keep: seq<Entry>)
    requires snap.index > 0
    ensures Recover(Disk([HardState(t, v)] + Puts(keep), snap)) == Persisted(t, v, DropHead(keep, snap.index), snap)
  {
    ReplayPuts([HardState(t, v)], keep);
    assert Replay([HardState(t, v)]) == Replayed(t, v, []) by {
      ReplaySnoc([], HardState(t, v));
      assert [] + [HardState(t, v)] == [HardState(t, v)];
    }
    assert [] + keep == keep;
  }

  lemma RecoverBatch(d: Disk, es: seq<Entry>, i: nat)
    requires Sound(Recover(d)) && Consecutive(es, LastIndex(Recover(d))) && 0 < i <= |es|
    ensures Recover(Points(d, AppendEntries(es))[i - 1]) == Outcome(Recover(d), AppendEntries(es), i)
    ensures Sound(Outcome(Recover(d), AppendEntries(es), i))
  {
    RecoverAppend(d, es[..i]);
  }

  lemma RecoverSave(d: Disk, snap: Snap, t: nat, v: nat, keep: seq<Entry>, i: nat)
    requires Sound(Recover(d)) && Legal(Recover(d), SaveSnapshot(snap, t, v, keep)) && 0 < i <= 2
    ensures var c := SaveSnapshot(snap, t, v, keep); Recover(Points(d, c)[i - 1]) == Outcome(Recover(d), c, i)
    ensures Sound(Outcome(Recover(d), SaveSnapshot(snap, t, v, keep), i))
  {
    RecoverSnap(d, snap);
    RecoverRewrite(snap, t, v, keep);
  }

  /** One call, interrupted after any number of its durable steps. */
  lemma RecoverCall(d: Disk, c: Call, i: nat)
    requires Sound(Recover(d)) && Legal(Recover(d), c) && i <= Steps(c)
    ensures Recover(if i == 0 then d else Points(d, c)[i - 1]) == Outcome(Recover(d), c, i)
    ensures Sound(Outcome(Recover(d), c, i))
  {
    if i > 0 {
      hide Recover;
      match c
      case SaveHardState(t, v) => RecoverHardState(d, t, v);
      case AppendEntries(es) => RecoverBatch(d, es, i);
      case TruncateFrom(from) => RecoverTruncate(d, from);
      case SaveSnapshot(snap, t, v, keep) => RecoverSave(d, snap, t, v, keep, i);
    }
  }

  function Run(d: Disk, cs: seq<Call>): Disk
    decreases |cs|
  {
    if cs == [] then d else Run(Done(d, cs[0]), cs[1..])
  }

  function Spec(p: Persisted, cs: seq<Call>): Persisted
    requires AllLegal(p, cs)
    decreases |cs|
  {
    if cs == [] then p else Spec(Outcome(p, cs[0], Steps(cs[0])), cs[1..])
  }

  predicate AllLegal(p: Persisted, cs: seq<Call>)
    decreases |cs|
  {
    cs == [] || (Legal(p, cs[0]) && AllLegal(Outcome(p, cs[0], Steps(cs[0])), cs[1..]))
  }

  /** For every sequence of calls, and a crash inside any further call, recovery returns the
      last durable term and vote and exactly the log above the snapshot. */
  lemma {:induction false} RecoveryRefines(d: Disk, cs: seq<Call>, last: Call, i: nat)
    requires Sound(Recover(d)) && AllLegal(Recover(d), cs) && Legal(Spec(Recover(d), cs), last)
    requires i <= Steps(last)
    ensures Recover(if i == 0 then Run(d, cs) else Points(Run(d, cs), last)[i - 1])
         == Outcome(Spec(Recover(d), cs), last, i)
    decreases |cs|
  {
    if cs == [] {
      RecoverCall(d, last, i);
    } else {
      RecoverCall(d, cs[0], Steps(cs[0]));
      RecoveryRefines(Done(d, cs[0]), cs[1..], last, i);
    }
  }

  // ---------------------------------------------------------------------------
  // The persister itself
  // ---------------------------------------------------------------------------

  /** `trail` collects the durable states passed through, for the crashes that may follow. */
  class Persister {
    var disk: Disk
    ghost var trail: seq<Disk>

    constructor (d: Disk)
      ensures disk == d && trail == []
    {
      disk, trail := d, [];
    }

    method Write(r: Record)
      modifies this
      ensures disk == AddRecord(old(disk), r) && trail == old(trail) + [disk]
    {
      disk := disk.(wal := disk.wal + [r]);
      trail := trail + [disk];
    }

    method SaveHard(term: nat, vote: nat)
      modifies this
      ensures disk == Done(old(disk), SaveHardState(term, vote))
      ensures trail == old(trail) + Points(old(disk), SaveHardState(term, vote))
    {
      Write(HardState(term, vote));
    }

    method Append(entries: seq<Entry>)
      modifies this
      ensures disk == Done(old(disk), AppendEntries(entries))
      ensures trail == old(trail) + Points(old(disk), AppendEntries(entries))
    {
      var i := 0;
      assert AddEntries(disk, entries[..0]) == disk;
      while i < |entries|
        invariant i <= |entries|
        invariant disk == AddEntries(old(disk), entries[..i])
        invariant trail == old(trail) + Points(old(disk), AppendEntries(entries))[..i]
      {
        Write(Put(entries[i]));
        assert Puts(entries[..i + 1]) == Puts(entries[..i]) + [Put(entries[i])];
        assert disk.wal == old(disk).wal + Puts(entries[..i + 1]);
        i := i + 1;
      }
    }

    method Truncate(from: nat)
      modifies this
      ensures disk == Done(old(disk), TruncateFrom(from))
      ensures trail == old(trail) + Points(old(disk), TruncateFrom(from))
    {
      Write(Cut(from));
    }

    method Save(snap: Snap, term: nat, vote: nat, keep: seq<Entry>)
      modifies this
      ensures disk == Done(old(disk), SaveSnapshot(snap, term, vote, keep))
      ensures trail == old(trail) + Points(old(disk), SaveSnapshot(snap, term, vote, keep))
    {
      disk := disk.(snap := snap);
      trail := trail + [disk];
      var fresh' := [HardState(term, vote)];
      var i := 0;
      while i < |keep|
        invariant i <= |keep|
        invariant fresh' == [HardState(term, vote)] + Puts(keep[..i])
      {
        fresh' := fresh' + [Put(keep[i])];
        assert Puts(keep[..i + 1]) == Puts(keep[..i]) + [Put(keep[i])];
        i := i + 1;
      }
      assert keep[..|keep|] == keep;
      disk := disk.(wal := fresh');
      trail := trail + [disk];
    }

    /** Startup: load the snapshot, replay the log, drop what the snapshot covers. */
    method Open() returns (p: Persisted)
      ensures p == Recover(disk)
    {
      var term, vote, entries := 0, NO_VOTE, [];
      var i := 0;
      while i < |disk.wal|
        invariant i <= |disk.wal|
        invariant Replayed(term, vote, entries) == Replay(disk.wal[..i])
      {
        ReplaySnoc(disk.wal[..i], disk.wal[i]);
        assert disk.wal[..i + 1] == disk.wal[..i] + [disk.wal[i]];
        match disk.wal[i] {
          case HardState(t, v) => term, vote := t, v;
          case Put(e) => entries := entries + [e];
          case Cut(from) =>
            ghost var before := entries;
            while |entries| > 0 && entries[|entries| - 1].index >= from
              invariant DropTail(entries, from) == DropTail(before, from)
              decreases |entries|
            {
              entries := entries[..|entries| - 1];
            }
        }
        i := i + 1;
      }
      assert disk.wal[..|disk.wal|] == disk.wal;
      if disk.snap.index > 0 {
        var live := 0;
        while live < |entries| && entries[live].index <= disk.snap.index
          invariant live <= |entries|
          invariant DropHead(entries[live..], disk.snap.index) == DropHead(entries, disk.snap.index)
        {
          assert entries[live..][1..] == entries[live + 1..];
          live := live + 1;
        }
        entries := entries[live..];
      }
      p := Persisted(term, vote, entries, disk.snap);
    }
  }
}
