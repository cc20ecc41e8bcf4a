/**
  How the Raft log records stand in the write-ahead log file, byte by byte. An append that a
  crash cuts anywhere comes back as a prefix of its records, which is what the record-level
  model of the disk assumes.
*/
module RaftRecords {
  import opened Bytes
  import opened RaftTypes
  import opened Persist
  import opened Wal

  const REC_HARD_STATE: Byte := 1
  const REC_ENTRY: Byte := 2
  const REC_TRUNCATE: Byte := 3

  /** The serialisation of entries; all that is assumed of it is that it loses nothing. */
  datatype Proto = Proto(marshal: Entry -> seq<Byte>, unmarshal: seq<Byte> -> Option<Entry>)

  ghost predicate Lossless(p: Proto) { forall e :: p.unmarshal(p.marshal(e)) == Some(e) }

  function EncodeRecord(p: Proto, r: Record): seq<Byte>
  {
    match r
    case HardState(term, vote) => [REC_HARD_STATE] + PutU64(term) + PutU64(vote)
    case Put(e) => [REC_ENTRY] + p.marshal(e)
    case Cut(from) => [REC_TRUNCATE] + PutU64(from)
  }

  function DecodeRecord(p: Proto, b: seq<Byte>): Option<Record>
  {
    if |b| < 1 then None
    else if b[0] == REC_HARD_STATE then
      if |b| != 17 then None else Some(HardState(GetU64(b[1..9]), GetU64(b[9..17])))
    else if b[0] == REC_ENTRY then
      var e := p.unmarshal(b[1..]);
      if e.None? then None else Some(Put(e.value))
    else if b[0] == REC_TRUNCATE then
      if |b| != 9 then None else Some(Cut(GetU64(b[1..9])))
    else None
  }

  /** Numbers fit 64 bits, and the record a frame. */
  ghost predicate Fits(p: Proto, r: Record)
  {
    |EncodeRecord(p, r)| < 0x1_0000_0000 &&
    match r
    case HardState(term, vote) => term < 0x1_0000_0000_0000_0000 && vote < 0x1_0000_0000_0000_0000
    case Put(_) => true
    case Cut(from) => from < 0x1_0000_0000_0000_0000
  }

  lemma DecodeEncode(p: Proto, r: Record)
    requires Lossless(p) && Fits(p, r)
    ensures DecodeRecord(p, EncodeRecord(p, r)) == Some(r)
  {
    hide PutU64, GetU64;
    var b := EncodeRecord(p, r);
    match r
    case HardState(term, vote) =>
      assert b[1..9] == PutU64(term) && b[9..17] == PutU64(vote);
      GetPutU64(term);
      GetPutU64(vote);
    case Put(e) => assert b[1..] == p.marshal(e);
    case Cut(from) =>
      assert b[1..9] == PutU64(from);
      GetPutU64(from);
  }

  function Payloads(p: Proto, rs: seq<Record>): (b: seq<seq<Byte>>)
    ensures |b| == |rs|
  {
    seq(|rs|, i requires 0 <= i < |rs| => EncodeRecord(p, rs[i]))
  }

  ghost predicate AllFit(p: Proto, rs: seq<Record>)
  {
    forall i :: 0 <= i < |rs| ==> Fits(p, rs[i])
  }

  /** Payload `i` reads as record `i`. */
  ghost predicate ReadAs(p: Proto, payloads: seq<seq<Byte>>, rs: seq<Record>)
  {
    |payloads| == |rs| && forall i :: 0 <= i < |rs| ==> DecodeRecord(p, payloads[i]) == Some(rs[i])
  }

  lemma PayloadsRead(p: Proto, rs: seq<Record>)
    requires Lossless(p) && AllFit(p, rs)
    ensures ReadAs(p, Payloads(p, rs), rs) && Small(Payloads(p, rs))
    ensures AllAccepted(b => DecodeRecord(p, b).Some?, Payloads(p, rs))
  {
    hide EncodeRecord, DecodeRecord;
    forall i | 0 <= i < |rs|
      ensures |Payloads(p, rs)[i]| < 0x1_0000_0000 && DecodeRecord(p, Payloads(p, rs)[i]) == Some(rs[i])
    {
      assert Fits(p, rs[i]);
      DecodeEncode(p, rs[i]);
    }
  }

  /** The file as it stands after the records of `d` and then `landed` bytes of a batch. */
  function File(crc: Checksum, p: Proto, d: Disk, es: seq<Entry>, landed: nat): seq<Byte>
    requires landed <= |Stream(crc, Payloads(p, Puts(es)))|
  {
    Stream(crc, Payloads(p, d.wal)) + Stream(crc, Payloads(p, Puts(es)))[..landed]
  }

  /** An append cut anywhere replays, without error, to the old records and the first few of
      the batch: one of the durable states the record-level model passes through. */
  lemma TornAppend(crc: Checksum, p: Proto, d: Disk, es: seq<Entry>, landed: nat) returns (m: nat)
    requires Lossless(p) && AllFit(p, d.wal) && AllFit(p, Puts(es))
    requires landed <= |Stream(crc, Payloads(p, Puts(es)))|
    ensures m <= |es| && var r := Wal.Replay(crc, b => DecodeRecord(p, b).Some?, File(crc, p, d, es, landed));
      !r.failed && ReadAs(p, r.payloads, AddEntries(d, es[..m]).wal) && r.offset <= |File(crc, p, d, es, landed)|
    ensures FitsIn(crc, Payloads(p, Puts(es)), m, landed)
  {
    hide Wal.Replay, Stream, EncodeRecord, DecodeRecord;
    var accept := b => DecodeRecord(p, b).Some?;
    var old', new' := Payloads(p, d.wal), Payloads(p, Puts(es));
    var rs := d.wal + Puts(es);
    var all := Payloads(p, rs);
    assert all == old' + new';
    StreamConcat(crc, old', new');
    m := FitsSome(crc, new', landed);
    var k := |Stream(crc, old')| + landed;
    assert File(crc, p, d, es, landed) == Stream(crc, all)[..k];
    FitsBehind(crc, old', new', m, landed);
    PayloadsRead(p, rs);
    TornTail(crc, accept, all, k, |old'| + m);
    assert all[..|old'| + m] == Payloads(p, d.wal + Puts(es[..m]));
    assert AllFit(p, d.wal + Puts(es[..m])) by { assert d.wal + Puts(es[..m]) == rs[..|d.wal| + m]; }
    PayloadsRead(p, d.wal + Puts(es[..m]));
  }

  lemma StreamTake(crc: Checksum, a: seq<seq<Byte>>, b: seq<seq<Byte>>, m: nat)
    requires m <= |b|
    ensures Stream(crc, (a + b)[..|a| + m]) == Stream(crc, a) + Stream(crc, b[..m])
  {
    hide Stream;
    assert (a + b)[..|a| + m] == a + b[..m];
    StreamConcat(crc, a, b[..m]);
  }

  lemma FitsBehind(crc: Checksum, a: seq<seq<Byte>>, b: seq<seq<Byte>>, m: nat, k: nat)
    requires FitsIn(crc, b, m, k)
    ensures FitsIn(crc, a + b, |a| + m, |Stream(crc, a)| + k)
  {
    hide Stream;
    StreamTake(crc, a, b, m);
    if m < |b| { StreamTake(crc, a, b, m + 1); }
  }
}
