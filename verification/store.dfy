/**
  The durable key-value store: a map in memory, a snapshot file and a write-ahead log. A run
  is a sequence of writes, compactions and crashes at any byte of a write or any stage of a
  compaction; what the store opens with is always the fold of the commands that landed.
*/
module Store {
  import opened Bytes
  import opened RaftTypes
  import opened StoreRecord
  import opened Wal

  type Data = map<seq<Byte>, seq<Byte>>

  function Apply(m: Data, c: Command): Data
  {
    if c.op == OP_PUT then m[c.key := c.value] else if c.op == OP_DELETE then m - {c.key} else m
  }

  function Fold(m: Data, cs: seq<Command>): Data
  {
    if cs == [] then m else Apply(Fold(m, cs[..|cs| - 1]), cs[|cs| - 1])
  }

  /** What a crash leaves: the last snapshot renamed into place, and the log. */
  datatype Files = Files(snap: Option<Data>, wal: seq<Byte>)

  datatype State = State(files: Files, data: Data)

  function Base(f: Files): Data { if f.snap.Some? then f.snap.value else map[] }

  predicate Readable(p: seq<Byte>) { |p| < 0x1_0000_0000 && Decode(p).Some? }

  predicate AllReadable(payloads: seq<seq<Byte>>)
  {
    forall i :: 0 <= i < |payloads| ==> Readable(payloads[i])
  }

  function Commands(payloads: seq<seq<Byte>>): (r: seq<Command>)
    requires AllReadable(payloads)
    ensures |r| == |payloads|
  {
    seq(|payloads|, i requires 0 <= i < |payloads| => Decode(payloads[i]).value)
  }

  lemma ReplayAccepts(crc: Checksum, bytes: seq<Byte>)
    ensures AllReadable(Replay(crc, Readable, bytes).payloads)
  {
    hide Readable, Replay, Stream, Begins;
    ReplayExact(crc, Readable, bytes);
  }

  /** Opening: snapshot first, the log on top of it, then the torn tail is cut off. None
      stands for the error of a whole frame that holds no command. */
  function Opened(crc: Checksum, f: Files): Option<State>
  {
    var r := Replay(crc, Readable, f.wal);
    if r.failed then None
    else
      ReplayAccepts(crc, f.wal);
      Some(State(f.(wal := f.wal[..r.offset]), Fold(Base(f), Commands(r.payloads))))
  }

  /** Opening whatever bytes the log holds: the commands of the whole frames at its front are
      applied and the rest is cut off, or opening fails, and then because the next frame is whole
      and holds no command. A damaged frame is not whole, so it is cut off and fails nothing. */
  lemma OpenedExact(crc: Checksum, f: Files) returns (payloads: seq<seq<Byte>>)
    ensures AllReadable(payloads) && Stream(crc, payloads) <= f.wal
    ensures var rest := f.wal[|Stream(crc, payloads)|..];
      match Opened(crc, f)
      case Some(s) =>
        s == State(f.(wal := Stream(crc, payloads)), Fold(Base(f), Commands(payloads))) &&
        forall p :: !Begins(crc, p, rest)
      case None => exists p :: Begins(crc, p, rest) && !Readable(p)
  {
    hide Readable, Replay, Stream, Begins;
    payloads := Replay(crc, Readable, f.wal).payloads;
    ReplayAccepts(crc, f.wal);
    ReplayExact(crc, Readable, f.wal);
  }

  // ---------------------------------------------------------------------------
  // Runs
  // ---------------------------------------------------------------------------

  datatype Event =
    | Write(c: Command)
    | CrashInWrite(c: Command, landed: nat)
    | Compact
    | CrashInCompact(stage: nat)
    | Restart

  /** The files as a write goes along, `landed` bytes of the new frame being on disk. */
  function Landed(crc: Checksum, f: Files, c: Command, landed: nat): Files
    requires landed <= |Frame(crc, Encode(c))|
  {
    f.(wal := f.wal + Frame(crc, Encode(c))[..landed])
  }

  /** The files as a compaction goes along: untouched, renamed, truncated. */
  function Stage(s: State, stage: nat): Files
  {
    if stage == 0 then s.files else if stage == 1 then s.files.(snap := Some(s.data)) else Files(Some(s.data), [])
  }

  /** Commands whose records stay under the 4 GiB the frame header can express. */
  predicate Fits(c: Command) { |Encode(c)| < 0x1_0000_0000 }

  predicate Possible(crc: Checksum, e: Event)
  {
    match e
    case Write(c) => Fits(c)
    case CrashInWrite(c, k) => Fits(c) && k <= |Frame(crc, Encode(c))|
    case _ => true
  }

  function Next(crc: Checksum, s: State, e: Event): Option<State>
    requires Possible(crc, e)
  {
    match e
    case Write(c) => Some(State(s.files.(wal := s.files.wal + Frame(crc, Encode(c))), Apply(s.data, c)))
    case CrashInWrite(c, k) => Opened(crc, Landed(crc, s.files, c, k))
    case Compact => Some(State(Stage(s, 2), s.data))
    case CrashInCompact(i) => Opened(crc, Stage(s, i))
    case Restart => Opened(crc, s.files)
  }

  /** From the empty directory. */
  function After(crc: Checksum, es: seq<Event>): Option<State>
    requires forall e :: e in es ==> Possible(crc, e)
  {
    if es == [] then Some(State(Files(None, []), map[]))
    else
      var s := After(crc, es[..|es| - 1]);
      if s.None? then None else Next(crc, s.value, es[|es| - 1])
  }

  /** The commands that landed: every acknowledged one, and one interrupted by a crash if its
      whole frame had reached the disk. */
  function LandedCommands(crc: Checksum, es: seq<Event>): seq<Command>
  {
    if es == [] then []
    else
      var before := LandedCommands(crc, es[..|es| - 1]);
      match es[|es| - 1]
      case Write(c) => before + [c]
      case CrashInWrite(c, k) => if k == |Frame(crc, Encode(c))| then before + [c] else before
      case _ => before
  }

  // ---------------------------------------------------------------------------
  // Replaying a log over its own result
  // ---------------------------------------------------------------------------

  /** The maps agree on every key outside `keys`. */
  ghost predicate SameOutside(a: Data, b: Data, keys: set<seq<Byte>>)
  {
    forall k :: k !in keys ==> (k in a <==> k in b) && (k in a ==> a[k] == b[k])
  }

  predicate Writes(c: Command) { c.op == OP_PUT || c.op == OP_DELETE }

  function Written(cs: seq<Command>): set<seq<Byte>>
  {
    set i | 0 <= i < |cs| && Writes(cs[i]) :: cs[i].key
  }

  lemma WrittenSnoc(cs: seq<Command>, n: nat)
    requires n < |cs|
    ensures Written(cs[..n + 1]) == Written(cs[..n]) + (if Writes(cs[n]) then {cs[n].key} else {})
    ensures Written(cs[..n]) <= Written(cs)
  {
    var a, b := cs[..n], cs[..n + 1];
    forall k | k in Written(b)
      ensures k in Written(a) || (Writes(cs[n]) && k == cs[n].key)
    {
      var i :| 0 <= i < |b| && Writes(b[i]) && b[i].key == k;
      if i < n { assert a[i] == b[i]; }
    }
    forall k | k in Written(a)
      ensures k in Written(b) && k in Written(cs)
    {
      var i :| 0 <= i < |a| && Writes(a[i]) && a[i].key == k;
      assert b[i] == a[i] && cs[i] == a[i];
    }
    assert b[n] == cs[n];
  }

  /** The first `n` commands settle the keys they write, whatever was there before. */
  lemma {:induction false} FoldSettles(a: Data, b: Data, cs: seq<Command>, n: nat)
    requires n <= |cs| && SameOutside(a, b, Written(cs))
    ensures SameOutside(Fold(a, cs[..n]), Fold(b, cs[..n]), Written(cs) - Written(cs[..n]))
  {
    if n > 0 {
      FoldSettles(a, b, cs, n - 1);
      WrittenSnoc(cs, n - 1);
      assert cs[..n][..n - 1] == cs[..n - 1];
    }
  }

  lemma {:induction false} FoldLeaves(m: Data, cs: seq<Command>, n: nat)
    requires n <= |cs|
    ensures SameOutside(Fold(m, cs[..n]), m, Written(cs[..n]))
  {
    if n > 0 {
      FoldLeaves(m, cs, n - 1);
      WrittenSnoc(cs, n - 1);
      assert cs[..n][..n - 1] == cs[..n - 1];
    }
  }

  /** Replaying a log over the result of any of its own prefixes gives the same state. */
  lemma ReplayOverOwnResult(m: Data, cs: seq<Command>, i: nat)
    requires i <= |cs|
    ensures Fold(Fold(m, cs[..i]), cs) == Fold(m, cs)
  {
    hide Fold, Written;
    FoldLeaves(m, cs, i);
    if i < |cs| { WrittenSnoc(cs, i); }
    assert cs[..|cs|] == cs;
    FoldSettles(Fold(m, cs[..i]), m, cs, |cs|);
    SameEverywhere(Fold(Fold(m, cs[..i]), cs), Fold(m, cs), Written(cs) - Written(cs[..|cs|]));
  }

  lemma SameEverywhere(a: Data, b: Data, keys: set<seq<Byte>>)
    requires SameOutside(a, b, keys) && keys == {}
    ensures a == b
  {
  }

  // ---------------------------------------------------------------------------
  // Every run
  // ---------------------------------------------------------------------------

  function Payloads(cs: seq<Command>): (r: seq<seq<Byte>>)
    ensures |r| == |cs|
  {
    seq(|cs|, i requires 0 <= i < |cs| => Encode(cs[i]))
  }

  ghost predicate AllFit(cs: seq<Command>)
  {
    forall i :: 0 <= i < |cs| ==> Fits(cs[i])
  }

  /** Where a state comes from: the log holds `cs`, the snapshot covers `i` of them over some
      `base`, and memory holds the outcome of all. */
  ghost predicate Explains(crc: Checksum, s: State, base: Data, cs: seq<Command>, i: nat)
  {
    i <= |cs| && AllFit(cs) && s.files.wal == Stream(crc, Payloads(cs)) &&
    Base(s.files) == Fold(base, cs[..i]) && s.data == Fold(base, cs)
  }

  lemma PayloadsRead(cs: seq<Command>)
    requires AllFit(cs)
    ensures Small(Payloads(cs)) && AllAccepted(Readable, Payloads(cs)) && AllReadable(Payloads(cs))
    ensures Commands(Payloads(cs)) == cs
  {
    hide Encode, Decode;
    forall i | 0 <= i < |cs|
      ensures Readable(Payloads(cs)[i]) && Decode(Payloads(cs)[i]) == Some(cs[i])
    {
      assert Fits(cs[i]);
      DecodeEncode(cs[i]);
    }
  }

  /** Opening files whose log was cut anywhere behind the first `n` of its commands. */
  lemma OpensTorn(crc: Checksum, f: Files, base: Data, cs: seq<Command>, i: nat, k: nat, n: nat)
    requires AllFit(cs) && i <= n <= |cs| && Base(f) == Fold(base, cs[..i])
    requires k <= |Stream(crc, Payloads(cs))| && f.wal == Stream(crc, Payloads(cs))[..k]
    requires FitsIn(crc, Payloads(cs), n, k)
    ensures Opened(crc, f).Some? && Explains(crc, Opened(crc, f).value, base, cs[..n], i)
  {
    hide Fold, Replay, Stream, Encode, Decode, Fits;
    PayloadsRead(cs);
    PayloadsRead(cs[..n]);
    assert Payloads(cs)[..n] == Payloads(cs[..n]);
    TornTail(crc, Readable, Payloads(cs), k, n);
    StreamConcat(crc, Payloads(cs)[..n], Payloads(cs)[n..]);
    assert Payloads(cs) == Payloads(cs)[..n] + Payloads(cs)[n..];
    ReplayOverOwnResult(base, cs[..n], i);
    assert cs[..n][..i] == cs[..i];
  }

  lemma OpensWhole(crc: Checksum, f: Files, base: Data, cs: seq<Command>, i: nat)
    requires AllFit(cs) && i <= |cs| && Base(f) == Fold(base, cs[..i]) && f.wal == Stream(crc, Payloads(cs))
    ensures Opened(crc, f).Some? && Explains(crc, Opened(crc, f).value, base, cs, i)
  {
    hide Fold, Replay, Stream, Encode, Decode, Fits, Opened;
    var all := Payloads(cs);
    assert all[..|all|] == all && cs[..|cs|] == cs && f.wal[..|f.wal|] == f.wal;
    OpensTorn(crc, f, base, cs, i, |f.wal|, |cs|);
  }

  lemma WalGrows(crc: Checksum, cs: seq<Command>, c: Command)
    ensures Stream(crc, Payloads(cs + [c])) == Stream(crc, Payloads(cs)) + Frame(crc, Encode(c))
  {
    hide Encode, Frame;
    assert Payloads(cs + [c]) == Payloads(cs) + [Encode(c)];
    StreamConcat(crc, Payloads(cs), [Encode(c)]);
    assert Stream(crc, [Encode(c)]) == Frame(crc, Encode(c)) + Stream(crc, []);
  }

  lemma OpensInterrupted(crc: Checksum, s: State, base: Data, cs: seq<Command>, i: nat, c: Command, k: nat)
    requires Explains(crc, s, base, cs, i) && Fits(c) && k <= |Frame(crc, Encode(c))|
    ensures var o := Opened(crc, Landed(crc, s.files, c, k));
      o.Some? && Explains(crc, o.value, base, if k == |Frame(crc, Encode(c))| then cs + [c] else cs, i)
  {
    hide Fold, Replay, Stream, Encode, Frame, Opened, Fits;
    WalGrows(crc, cs, c);
    var more := cs + [c];
    var f := Landed(crc, s.files, c, k);
    assert more[..|cs|] == cs && more[..|more|] == more && more[..i] == cs[..i];
    assert Payloads(more)[..|cs|] == Payloads(cs) && Payloads(more)[..|more|] == Payloads(more);
    OpensTorn(crc, f, base, more, i, |s.files.wal| + k, if k == |Frame(crc, Encode(c))| then |more| else |cs|);
  }

  lemma WriteExplained(crc: Checksum, s: State, c: Command, base: Data, cs: seq<Command>, i: nat)
    requires Fits(c) && Explains(crc, s, base, cs, i)
    ensures Explains(crc, Next(crc, s, Write(c)).value, base, cs + [c], i)
  {
    hide Stream, Encode, Frame, Fits;
    WalGrows(crc, cs, c);
    assert (cs + [c])[..i] == cs[..i] && (cs + [c])[..|cs|] == cs;
  }

  lemma CompactExplained(crc: Checksum, s: State, stage: nat, base: Data, cs: seq<Command>, i: nat)
    returns (base': Data, cs': seq<Command>, i': nat)
    requires Explains(crc, s, base, cs, i)
    ensures var o := Opened(crc, Stage(s, stage));
      o.Some? && Explains(crc, o.value, base', cs', i') && o.value.data == s.data
  {
    hide Replay, Stream, Fold, Opened, Payloads, AllFit;
    base', cs', i' := base, cs, i;
    assert cs[..|cs|] == cs;
    if stage == 0 {
      OpensWhole(crc, s.files, base, cs, i);
    } else if stage == 1 {
      OpensWhole(crc, Stage(s, 1), base, cs, |cs|);
      i' := |cs|;
    } else {
      Compacted(crc, s);
      base', cs', i' := s.data, [], 0;
      OpensWhole(crc, Stage(s, 2), base', [], 0);
    }
  }

  /** What one event adds to the commands that landed. */
  lemma Added(crc: Checksum, e: Event)
    ensures LandedCommands(crc, [e]) ==
      match e {
        case Write(c) => [c]
        case CrashInWrite(c, k) => if k == |Frame(crc, Encode(c))| then [c] else []
        case _ => []
      }
  {
    hide Frame, Encode;
    assert [e][..0] == [];
    assert LandedCommands(crc, []) == [];
  }

  lemma FoldOne(m: Data, c: Command)
    ensures Fold(m, [c]) == Apply(m, c) && Fold(m, []) == m
  {
    assert [c][..0] == [];
  }

  lemma StepExplained(crc: Checksum, s: State, e: Event, base: Data, cs: seq<Command>, i: nat)
    returns (base': Data, cs': seq<Command>, i': nat)
    requires Possible(crc, e) && Explains(crc, s, base, cs, i)
    ensures Next(crc, s, e).Some? && Explains(crc, Next(crc, s, e).value, base', cs', i')
    ensures var added := LandedCommands(crc, [e]);
      Next(crc, s, e).value.data == Fold(s.data, added) && |added| <= 1
  {
    hide Replay, Stream, Encode, Decode, Frame, Opened, Fits, Fold, LandedCommands, Payloads, AllFit, Apply;
    base', cs', i' := base, cs, i;
    Added(crc, e);
    FoldOne(s.data, Command(0, [], []));
    match e
    case Write(c) =>
      WriteExplained(crc, s, c, base, cs, i);
      FoldOne(s.data, c);
      cs' := cs + [c];
    case CrashInWrite(c, k) =>
      OpensInterrupted(crc, s, base, cs, i, c, k);
      FoldOne(s.data, c);
      FoldAppend(base, cs, [c]);
      cs' := if k == |Frame(crc, Encode(c))| then cs + [c] else cs;
    case Compact =>
      Compacted(crc, s);
      base', cs', i' := s.data, [], 0;
    case CrashInCompact(stage) => base', cs', i' := CompactExplained(crc, s, stage, base, cs, i);
    case Restart => OpensWhole(crc, s.files, base, cs, i);
  }

  lemma Compacted(crc: Checksum, s: State)
    ensures Explains(crc, State(Stage(s, 2), s.data), s.data, [], 0)
  {
  }

  /** Store recovery: after every history of writes, compactions, restarts and crashes, a
      crash inside a write or between the rename and the truncation included, the store opens,
      and holds exactly the fold of the commands that landed. */
  lemma {:induction false} StoreRecovers(crc: Checksum, es: seq<Event>) returns (base: Data, cs: seq<Command>, i: nat)
    requires forall e :: e in es ==> Possible(crc, e)
    ensures After(crc, es).Some? && After(crc, es).value.data == Fold(map[], LandedCommands(crc, es))
    ensures Explains(crc, After(crc, es).value, base, cs, i)
    decreases |es|
  {
    hide Next, Fold, Stream, Encode;
    if es == [] {
      base, cs, i := map[], [], 0;
      Empty(crc);
    } else {
      var n := |es| - 1;
      base, cs, i := StoreRecovers(crc, es[..n]);
      var s := After(crc, es[..n]).value;
      base, cs, i := StepExplained(crc, s, es[n], base, cs, i);
      LandedSnoc(crc, es);
      FoldAppend(map[], LandedCommands(crc, es[..n]), LandedCommands(crc, [es[n]]));
    }
  }

  lemma Empty(crc: Checksum)
    ensures Explains(crc, State(Files(None, []), map[]), map[], [], 0) && Fold(map[], []) == map[]
  {
  }

  lemma LandedSnoc(crc: Checksum, es: seq<Event>)
    requires es != []
    ensures LandedCommands(crc, es) == LandedCommands(crc, es[..|es| - 1]) + LandedCommands(crc, [es[|es| - 1]])
  {
    hide Frame, Encode;
    var e := es[|es| - 1];
    assert [e][..0] == [];
    assert LandedCommands(crc, []) == [];
  }

  lemma FoldAppend(m: Data, a: seq<Command>, b: seq<Command>)
    requires |b| <= 1
    ensures Fold(m, a + b) == Fold(Fold(m, a), b)
  {
    if b == [] { assert a + b == a; } else { assert (a + b)[..|a|] == a && b[..0] == []; }
  }

  /** Once more in terms of what survives: reopening after any history finds the same data. */
  lemma RestartChangesNothing(crc: Checksum, es: seq<Event>)
    requires forall e :: e in es ==> Possible(crc, e)
    ensures After(crc, es).Some? && Opened(crc, After(crc, es).value.files) == After(crc, es)
  {
    hide After, Opened, Fold, Stream, Payloads, AllFit, LandedCommands;
    var base, cs, i := StoreRecovers(crc, es);
    var s := After(crc, es).value;
    OpensWhole(crc, s.files, base, cs, i);
    OpenKeepsSnap(crc, s.files);
  }

  lemma OpenKeepsSnap(crc: Checksum, f: Files)
    requires Opened(crc, f).Some?
    ensures Opened(crc, f).value.files.snap == f.snap
  {
  }

  // ---------------------------------------------------------------------------
  // The store object
  // ---------------------------------------------------------------------------

  class KvStore {
    var data: Data
    var snap: Option<Data>
    const file: LogFile
    ghost var stages: seq<Files>

    ghost function Contents(): State
      reads this, file
    {
      State(Files(snap, file.synced), data)
    }

    constructor (data: Data, snap: Option<Data>, file: LogFile)
      ensures this.data == data && this.snap == snap && this.file == file && stages == []
    {
      this.data, this.snap, this.file, stages := data, snap, file, [];
    }

    /** Recovery, in the order snapshot, log, truncation. */
    static method Open(crc: Checksum, f: Files) returns (s: KvStore?)
      ensures s == null <==> Opened(crc, f).None?
      ensures s != null ==> fresh(s) && fresh(s.file) && s.file.crc == crc && s.file.buffered == [] &&
                            Some(s.Contents()) == Opened(crc, f)
    {
      hide Replay, Decode, Readable;
      var data: Data := map[];
      if f.snap.Some? {
        data := f.snap.value;
      }
      var file := new LogFile(crc, f.wal);
      var r := file.ReadBack(Readable);
      if r.failed {
        return null;
      }
      ReplayAccepts(crc, f.wal);
      ghost var cs := Commands(r.payloads);
      var i := 0;
      while i < |r.payloads|
        invariant i <= |r.payloads| && data == Fold(Base(f), cs[..i])
        invariant file.synced == f.wal && file.buffered == []
      {
        ReadableHere(r.payloads[i]);
        var c := Decode(r.payloads[i]).value;
        assert cs[..i + 1][..i] == cs[..i] && cs[..i + 1][i] == c;
        data := Apply(data, c);
        i := i + 1;
      }
      assert cs[..|cs|] == cs;
      file.Truncate(r.offset);
      s := new KvStore(data, f.snap, file);
    }

    /** Log first, then memory. `landings` shows every content the log file goes through. */
    method LogAndApply(c: Command)
      requires file.buffered == [] && Fits(c)
      modifies this, file
      ensures file.buffered == [] && Some(Contents()) == Next(file.crc, old(Contents()), Write(c))
      ensures file.landings == old(file.landings) + Landing(old(file.synced), Frame(file.crc, Encode(c)))
    {
      hide Encode, Frame;
      var payload := EncodeCommand(c);
      file.Append(payload[..]);
      assert file.buffered == Frame(file.crc, Encode(c));
      file.Sync();
      if c.op == OP_PUT {
        data := data[c.key := c.value];
      } else if c.op == OP_DELETE {
        data := data - {c.key};
      }
    }

    method Put(key: seq<Byte>, value: seq<Byte>)
      requires file.buffered == [] && Fits(Command(OP_PUT, key, value))
      modifies this, file
      ensures file.buffered == [] &&
        Some(Contents()) == Next(file.crc, old(Contents()), Write(Command(OP_PUT, key, value)))
      ensures data == old(data)[key := value]
    {
      LogAndApply(Command(OP_PUT, key, value));
    }

    method Delete(key: seq<Byte>)
      requires file.buffered == [] && Fits(Command(OP_DELETE, key, []))
      modifies this, file
      ensures file.buffered == [] &&
        Some(Contents()) == Next(file.crc, old(Contents()), Write(Command(OP_DELETE, key, [])))
      ensures data == old(data) - {key}
    {
      LogAndApply(Command(OP_DELETE, key, []));
    }

    method Get(key: seq<Byte>) returns (r: Option<seq<Byte>>)
      ensures r == if key in data then Some(data[key]) else None
    {
      if key in data {
        return Some(data[key]);
      }
      return None;
    }

    /** Compaction: rename the image into place, then empty the log. */
    method Snapshot()
      requires file.buffered == []
      modifies this, file
      ensures file.buffered == [] && Some(Contents()) == Next(file.crc, old(Contents()), Compact)
      ensures stages == old(stages) + [Stage(old(Contents()), 1), Stage(old(Contents()), 2)]
    {
      var image := data;
      snap := Some(image);
      stages := stages + [Files(snap, file.synced)];
      file.Truncate(0);
      stages := stages + [Files(snap, file.synced)];
    }
  }

  lemma ReadableHere(p: seq<Byte>)
    requires Readable(p)
    ensures |p| < 0x1_0000_0000 && Decode(p).Some?
  {
  }
}
