/**
  The in-memory log. Position 0 always holds a sentinel that records the index and term of
  the last compacted entry; real entries follow with consecutive indices.
*/
module RaftLog {
  import opened RaftTypes

  predicate Wf(es: seq<Entry>)
  {
    |es| > 0 && forall i :: 0 <= i < |es| ==> es[i].index == es[0].index + i
  }

  function First(es: seq<Entry>): nat
    requires |es| > 0
  {
    es[0].index
  }

  function Last(es: seq<Entry>): nat
    requires |es| > 0
  {
    es[|es| - 1].index
  }

  function LastLogTerm(es: seq<Entry>): nat
    requires |es| > 0
  {
    es[|es| - 1].term
  }

  /** The term at index `i`; the sentinel answers for the compaction point. */
  function TermAt(es: seq<Entry>, i: nat): Option<nat>
    requires Wf(es)
  {
    if i < First(es) || i > Last(es) then None else Some(es[i - First(es)].term)
  }

  function Suffix(es: seq<Entry>, from: nat): seq<Entry>
    requires Wf(es)
  {
    if from <= First(es) || from > Last(es) then [] else es[from - First(es)..]
  }

  function TruncatedFrom(es: seq<Entry>, i: nat): (r: seq<Entry>)
    requires Wf(es) && i <= Last(es) + 1
    ensures Wf(r)
  {
    if i <= First(es) then es[..1] else es[..i - First(es)]
  }

  function CompactedTo(es: seq<Entry>, index: nat, term: nat): (r: seq<Entry>)
    requires Wf(es)
    ensures Wf(r)
  {
    if index <= First(es) then es
    else if index < Last(es) then [Entry(index, term, [])] + es[index - First(es) + 1..]
    else [Entry(index, term, [])]
  }

  /** The condition handed to the binary search: term at least `t`, or above it. */
  predicate Reached(e: Entry, t: nat, above: bool)
  {
    if above then e.term > t else e.term >= t
  }

  /** Binary search between `lo` and `hi`, on any sequence, sorted or not. */
  function Search(es: seq<Entry>, t: nat, above: bool, lo: nat, hi: nat): nat
    requires lo <= hi <= |es|
    ensures lo <= Search(es, t, above, lo, hi) <= hi
    decreases hi - lo
  {
    if lo == hi then lo
    else
      var mid := (lo + hi) / 2;
      if Reached(es[mid], t, above) then Search(es, t, above, lo, mid) else Search(es, t, above, mid + 1, hi)
  }

  /** Smallest retained index of term `t`, 0 if the search meets none. */
  function FirstOfTerm(es: seq<Entry>, t: nat): nat
    requires |es| > 0
  {
    var reals := es[1..];
    var i := Search(reals, t, false, 0, |reals|);
    if i < |reals| && reals[i].term == t then reals[i].index else 0
  }

  /** Largest retained index of term `t`, 0 if the search meets none. */
  function LastOfTerm(es: seq<Entry>, t: nat): nat
    requires |es| > 0
  {
    var reals := es[1..];
    var i := Search(reals, t, true, 0, |reals|);
    if i > 0 && reals[i - 1].term == t then reals[i - 1].index else 0
  }

  predicate Sorted(es: seq<Entry>)
  {
    forall i, j :: 0 <= i < j < |es| ==> es[i].term <= es[j].term
  }

  lemma {:induction false} SearchSplits(es: seq<Entry>, t: nat, above: bool, lo: nat, hi: nat)
    requires Sorted(es) && lo <= hi <= |es|
    requires forall i :: 0 <= i < lo ==> !Reached(es[i], t, above)
    requires forall i :: hi <= i < |es| ==> Reached(es[i], t, above)
    ensures forall i :: 0 <= i < Search(es, t, above, lo, hi) ==> !Reached(es[i], t, above)
    ensures forall i :: Search(es, t, above, lo, hi) <= i < |es| ==> Reached(es[i], t, above)
    decreases hi - lo
  {
    if lo < hi {
      var mid := (lo + hi) / 2;
      if Reached(es[mid], t, above) {
        SearchSplits(es, t, above, lo, mid);
      } else {
        SearchSplits(es, t, above, mid + 1, hi);
      }
    }
  }

  /** A linear scan from the front. */
  function ScanFirst(es: seq<Entry>, t: nat): nat
  {
    if es == [] then 0 else if es[0].term == t then es[0].index else ScanFirst(es[1..], t)
  }

  /** A linear scan from the back. */
  function ScanLast(es: seq<Entry>, t: nat): nat
  {
    if es == [] then 0
    else if es[|es| - 1].term == t then es[|es| - 1].index
    else ScanLast(es[..|es| - 1], t)
  }

  lemma {:induction false} ScanFirstAt(es: seq<Entry>, t: nat, k: nat)
    requires k <= |es| && forall i :: 0 <= i < k ==> es[i].term != t
    requires k < |es| ==> es[k].term == t || forall i :: k <= i < |es| ==> es[i].term != t
    ensures ScanFirst(es, t) == if k < |es| && es[k].term == t then es[k].index else 0
  {
    if es != [] && es[0].term != t {
      if k > 0 {
        ScanFirstAt(es[1..], t, k - 1);
      } else {
        ScanFirstAt(es[1..], t, 0);
      }
    }
  }

  lemma {:induction false} ScanLastAt(es: seq<Entry>, t: nat, k: nat)
    requires k <= |es| && forall i :: k <= i < |es| ==> es[i].term != t
    requires k > 0 ==> es[k - 1].term == t || forall i :: 0 <= i < k ==> es[i].term != t
    ensures ScanLast(es, t) == if k > 0 && es[k - 1].term == t then es[k - 1].index else 0
  {
    if es != [] && es[|es| - 1].term != t {
      ScanLastAt(es[..|es| - 1], t, if k == |es| then k - 1 else k);
    }
  }

  /** On logs whose real entries are sorted by term, both searches equal a linear scan. */
  lemma SearchesAreScans(es: seq<Entry>, t: nat)
    requires |es| > 0 && Sorted(es[1..])
    ensures FirstOfTerm(es, t) == ScanFirst(es[1..], t)
    ensures LastOfTerm(es, t) == ScanLast(es[1..], t)
  {
    var reals := es[1..];
    SearchSplits(reals, t, false, 0, |reals|);
    ScanFirstAt(reals, t, Search(reals, t, false, 0, |reals|));
    SearchSplits(reals, t, true, 0, |reals|);
    ScanLastAt(reals, t, Search(reals, t, true, 0, |reals|));
  }

  /** The log object a server owns. */
  class Log {
    var entries: seq<Entry>

    constructor (index: nat, term: nat)
      ensures entries == [Entry(index, term, [])] && Wf(entries)
    {
      entries := [Entry(index, term, [])];
    }

    method Append(es: seq<Entry>)
      modifies this
      ensures entries == old(entries) + es
    {
      entries := entries + es;
    }

    method TruncateFrom(at: nat)
      requires Wf(entries) && at <= Last(entries) + 1
      modifies this
      ensures entries == TruncatedFrom(old(entries), at) && Wf(entries)
    {
      var i := at;
      if i <= First(entries) {
        i := First(entries) + 1;
      }
      entries := entries[..i - First(entries)];
    }

    method CompactTo(index: nat, term: nat)
      requires Wf(entries)
      modifies this
      ensures entries == CompactedTo(old(entries), index, term) && Wf(entries)
    {
      if index <= First(entries) {
        return;
      }
      if index < Last(entries) {
        var keep := entries[index - First(entries) + 1..];
        entries := [Entry(index, term, [])] + keep;
        return;
      }
      entries := [Entry(index, term, [])];
    }

    method SortSearch(t: nat, above: bool) returns (i: nat)
      requires |entries| > 0
      ensures i == Search(entries[1..], t, above, 0, |entries| - 1)
    {
      var reals := entries[1..];
      i := 0;
      var j := |reals|;
      while i < j
        invariant i <= j <= |reals|
        invariant Search(reals, t, above, i, j) == Search(reals, t, above, 0, |reals|)
      {
        var mid := (i + j) / 2;
        if !Reached(reals[mid], t, above) {
          i := mid + 1;
        } else {
          j := mid;
        }
      }
    }

    method FirstIndexOfTerm(t: nat) returns (r: nat)
      requires |entries| > 0
      ensures r == FirstOfTerm(entries, t)
      ensures Sorted(entries[1..]) ==> r == ScanFirst(entries[1..], t)
    {
      var i := SortSearch(t, false);
      if i < |entries| - 1 && entries[1..][i].term == t {
        r := entries[1..][i].index;
      } else {
        r := 0;
      }
      if Sorted(entries[1..]) { SearchesAreScans(entries, t); }
    }

    method LastIndexOfTerm(t: nat) returns (r: nat)
      requires |entries| > 0
      ensures r == LastOfTerm(entries, t)
      ensures Sorted(entries[1..]) ==> r == ScanLast(entries[1..], t)
    {
      var i := SortSearch(t, true);
      if i > 0 && entries[1..][i - 1].term == t {
        r := entries[1..][i - 1].index;
      } else {
        r := 0;
      }
      if Sorted(entries[1..]) { SearchesAreScans(entries, t); }
    }
  }
}
