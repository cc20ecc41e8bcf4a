/**
  The framed write-ahead log: each payload is preceded by its length and checksum. Whatever
  prefix of the file a crash leaves, replay finds the payloads whose frames fit into it.
*/
module Wal {
  import opened Bytes

  const HEADER := 8

  /** The checksum is an arbitrary function of the payload. */
  type Checksum = seq<Byte> -> U32

  function Frame(crc: Checksum, payload: seq<Byte>): (r: seq<Byte>)
    ensures |r| == HEADER + |payload|
  {
    PutU32(|payload|) + PutU32(crc(payload)) + payload
  }

  /** The file that appending `payloads` one after the other leaves. */
  function Stream(crc: Checksum, payloads: seq<seq<Byte>>): seq<Byte>
  {
    if payloads == [] then [] else Frame(crc, payloads[0]) + Stream(crc, payloads[1..])
  }

  /** The payloads handed on, the offset behind the last of them, and whether the next one
      was rejected by its receiver. */
  datatype Replayed = Replayed(payloads: seq<seq<Byte>>, offset: nat, failed: bool)

  /** Whether a whole frame with a matching checksum stands at the front. */
  predicate WholeFrame(crc: Checksum, bytes: seq<Byte>)
  {
    |bytes| >= HEADER && |bytes| - HEADER >= GetU32(bytes[..4]) &&
    crc(bytes[HEADER..HEADER + GetU32(bytes[..4])]) == GetU32(bytes[4..HEADER])
  }

  function PayloadOf(crc: Checksum, bytes: seq<Byte>): seq<Byte>
    requires WholeFrame(crc, bytes)
  {
    bytes[HEADER..HEADER + GetU32(bytes[..4])]
  }

  /** Front to back, up to the first frame that is torn or whose payload is rejected. */
  function Replay(crc: Checksum, accept: seq<Byte> -> bool, bytes: seq<Byte>): (r: Replayed)
    ensures r.offset <= |bytes|
    decreases |bytes|
  {
    if !WholeFrame(crc, bytes) then Replayed([], 0, false)
    else
      var p := PayloadOf(crc, bytes);
      if !accept(p) then Replayed([], 0, true)
      else
        var rest := Replay(crc, accept, bytes[HEADER + |p|..]);
        Replayed([p] + rest.payloads, HEADER + |p| + rest.offset, rest.failed)
  }

  ghost predicate Small(payloads: seq<seq<Byte>>)
  {
    forall p :: p in payloads ==> |p| < 0x1_0000_0000
  }

  ghost predicate AllAccepted(accept: seq<Byte> -> bool, payloads: seq<seq<Byte>>)
  {
    forall p :: p in payloads ==> accept(p)
  }

  // ---------------------------------------------------------------------------
  // One frame
  // ---------------------------------------------------------------------------

  lemma FrameReads(crc: Checksum, p: seq<Byte>, rest: seq<Byte>)
    requires |p| < 0x1_0000_0000
    ensures var b := Frame(crc, p) + rest; WholeFrame(crc, b) && PayloadOf(crc, b) == p && b[HEADER + |p|..] == rest
  {
    hide PutU32, GetU32;
    var b := Frame(crc, p) + rest;
    assert b[..4] == PutU32(|p|) && b[4..HEADER] == PutU32(crc(p));
    GetPutU32(|p|);
    GetPutU32(crc(p));
    assert b[HEADER..HEADER + |p|] == p;
  }

  lemma NoFrame(crc: Checksum, bytes: seq<Byte>)
    requires |bytes| < HEADER
    ensures !WholeFrame(crc, bytes)
  {
  }

  lemma TornFrame(crc: Checksum, p: seq<Byte>, k: nat)
    requires |p| < 0x1_0000_0000 && k < HEADER + |p|
    ensures !WholeFrame(crc, Frame(crc, p)[..k])
  {
    hide PutU32, GetU32;
    if k >= HEADER {
      assert Frame(crc, p)[..k][..4] == PutU32(|p|);
      GetPutU32(|p|);
    }
  }

  // ---------------------------------------------------------------------------
  // Whole files
  // ---------------------------------------------------------------------------

  lemma {:induction false} StreamConcat(crc: Checksum, a: seq<seq<Byte>>, b: seq<seq<Byte>>)
    ensures Stream(crc, a + b) == Stream(crc, a) + Stream(crc, b)
  {
    hide Frame;
    if a == [] {
      assert a + b == b;
    } else {
      StreamConcat(crc, a[1..], b);
      assert (a + b)[1..] == a[1..] + b && (a + b)[0] == a[0];
    }
  }

  /** `m` payloads, and no more, fit wholly into `k` bytes. */
  ghost predicate FitsIn(crc: Checksum, payloads: seq<seq<Byte>>, m: nat, k: nat)
  {
    m <= |payloads| && |Stream(crc, payloads[..m])| <= k &&
    (m < |payloads| ==> k < |Stream(crc, payloads[..m + 1])|)
  }

  /** Nothing comes back if not even the first frame fits. */
  lemma TornFirst(crc: Checksum, accept: seq<Byte> -> bool, payloads: seq<seq<Byte>>, k: nat)
    requires Small(payloads) && k <= |Stream(crc, payloads)| && FitsIn(crc, payloads, 0, k)
    ensures Replay(crc, accept, Stream(crc, payloads)[..k]) == Replayed([], 0, false)
  {
    hide PutU32, GetU32, WholeFrame, PayloadOf, Frame;
    if payloads == [] {
      NoFrame(crc, []);
    } else {
      var p := payloads[0];
      assert payloads[..1] == [p];
      assert Stream(crc, [p]) == Frame(crc, p) + Stream(crc, []);
      assert Stream(crc, payloads)[..k] == Frame(crc, p)[..k];
      TornFrame(crc, p, k);
    }
  }

  /** What fits behind the first frame. */
  lemma FitsRest(crc: Checksum, payloads: seq<seq<Byte>>, k: nat, m: nat)
    requires payloads != [] && 0 < m && FitsIn(crc, payloads, m, k)
    ensures var f := |Frame(crc, payloads[0])|;
      f <= k && FitsIn(crc, payloads[1..], m - 1, k - f) &&
      |Stream(crc, payloads[..m])| == f + |Stream(crc, payloads[1..][..m - 1])|
  {
    hide Stream, Frame;
    StreamHead(crc, payloads[..m]);
    assert payloads[..m][1..] == payloads[1..][..m - 1];
    if m < |payloads| {
      StreamHead(crc, payloads[..m + 1]);
      assert payloads[..m + 1][1..] == payloads[1..][..m];
    }
  }

  /** Torn-tail replay: of any prefix of a framed file, exactly the payloads whose frames fit
      wholly come back, in order, with their total length as offset. */
  lemma {:induction false} TornTail(crc: Checksum, accept: seq<Byte> -> bool, payloads: seq<seq<Byte>>, k: nat, m: nat)
    requires Small(payloads) && AllAccepted(accept, payloads) && k <= |Stream(crc, payloads)|
    requires FitsIn(crc, payloads, m, k)
    ensures Replay(crc, accept, Stream(crc, payloads)[..k])
         == Replayed(payloads[..m], |Stream(crc, payloads[..m])|, false)
    decreases |payloads|
  {
    hide Stream, Replay, Frame, FitsIn;
    if m == 0 {
      TornFirst(crc, accept, payloads, k);
      StreamNone(crc);
      assert payloads[..0] == [];
    } else {
      FitsCount(crc, payloads, m, k);
      var p, rest := payloads[0], payloads[1..];
      var f := Frame(crc, p);
      FitsRest(crc, payloads, k, m);
      StreamHead(crc, payloads);
      TornTail(crc, accept, rest, k - |f|, m - 1);
      var tail := Stream(crc, rest)[..k - |f|];
      assert Stream(crc, payloads)[..k] == f + tail;
      FrameReads(crc, p, tail);
      ReplayStep(crc, accept, f + tail);
      assert [p] + rest[..m - 1] == payloads[..m];
    }
  }

  lemma StreamNone(crc: Checksum)
    ensures Stream(crc, []) == []
  {
  }

  lemma FitsCount(crc: Checksum, payloads: seq<seq<Byte>>, m: nat, k: nat)
    requires FitsIn(crc, payloads, m, k)
    ensures m <= |payloads|
  {
  }

  lemma StreamHead(crc: Checksum, payloads: seq<seq<Byte>>)
    requires payloads != []
    ensures Stream(crc, payloads) == Frame(crc, payloads[0]) + Stream(crc, payloads[1..])
  {
  }

  lemma WholeFile(crc: Checksum, accept: seq<Byte> -> bool, payloads: seq<seq<Byte>>)
    requires Small(payloads) && AllAccepted(accept, payloads)
    ensures Replay(crc, accept, Stream(crc, payloads)) == Replayed(payloads, |Stream(crc, payloads)|, false)
  {
    hide Replay, Stream;
    var s := Stream(crc, payloads);
    assert s[..|s|] == s && payloads[..|payloads|] == payloads;
    TornTail(crc, accept, payloads, |s|, |payloads|);
  }

  /** Some number of payloads always fits. */
  lemma {:induction false} FitsSome(crc: Checksum, payloads: seq<seq<Byte>>, k: nat) returns (m: nat)
    ensures FitsIn(crc, payloads, m, k)
  {
    m := 0;
    while m < |payloads| && |Stream(crc, payloads[..m + 1])| <= k
      invariant m <= |payloads| && |Stream(crc, payloads[..m])| <= k
    {
      m := m + 1;
    }
  }

  /** Recovery from a torn file: cut at the replay offset, append more, and a later replay
      yields what was found plus what was appended. */
  lemma CutAndAppend(crc: Checksum, accept: seq<Byte> -> bool, payloads: seq<seq<Byte>>, k: nat, more: seq<seq<Byte>>)
    requires Small(payloads) && Small(more) && AllAccepted(accept, payloads) && AllAccepted(accept, more)
    requires k <= |Stream(crc, payloads)|
    ensures var torn := Stream(crc, payloads)[..k]; var found := Replay(crc, accept, torn);
      var file := torn[..found.offset] + Stream(crc, more);
      found.payloads <= payloads && !found.failed &&
      Replay(crc, accept, file) == Replayed(found.payloads + more, |file|, false)
  {
    hide Replay, Frame, Stream;
    var m := FitsSome(crc, payloads, k);
    TornTail(crc, accept, payloads, k, m);
    var kept := payloads[..m];
    assert payloads == kept + payloads[m..];
    StreamConcat(crc, kept, payloads[m..]);
    assert Stream(crc, payloads)[..k][..|Stream(crc, kept)|] == Stream(crc, kept);
    StreamConcat(crc, kept, more);
    WholeFile(crc, accept, kept + more);
  }

  // ---------------------------------------------------------------------------
  // Any bytes at all
  // ---------------------------------------------------------------------------

  /** The bytes begin with the frame that appending `p` would have written. */
  ghost predicate Begins(crc: Checksum, p: seq<Byte>, bytes: seq<Byte>)
  {
    |p| < 0x1_0000_0000 && Frame(crc, p) <= bytes
  }

  /** A whole frame is one that an append would have written, length and checksum included. */
  lemma WholeBegins(crc: Checksum, bytes: seq<Byte>)
    requires WholeFrame(crc, bytes)
    ensures Begins(crc, PayloadOf(crc, bytes), bytes) && HEADER + |PayloadOf(crc, bytes)| <= |bytes|
  {
    hide PutU32, GetU32;
    PutGetU32(bytes[..4]);
    PutGetU32(bytes[4..HEADER]);
    var p := PayloadOf(crc, bytes);
    assert Frame(crc, p) == bytes[..HEADER + |p|];
  }

  lemma BeginsWhole(crc: Checksum, p: seq<Byte>, bytes: seq<Byte>)
    requires Begins(crc, p, bytes)
    ensures WholeFrame(crc, bytes) && PayloadOf(crc, bytes) == p
  {
    hide WholeFrame, PayloadOf;
    assert bytes == Frame(crc, p) + bytes[|Frame(crc, p)|..];
    FrameReads(crc, p, bytes[|Frame(crc, p)|..]);
  }

  /** Replay of arbitrary bytes, garbage and damaged frames included: what it hands on is
      exactly what the bytes before its offset were written from, and it stops only where no
      frame with a matching length and checksum stands, or where its receiver refuses one. */
  lemma {:induction false} ReplayExact(crc: Checksum, accept: seq<Byte> -> bool, bytes: seq<Byte>)
    ensures var r := Replay(crc, accept, bytes);
      Stream(crc, r.payloads) == bytes[..r.offset] && Small(r.payloads) && AllAccepted(accept, r.payloads)
    ensures var r := Replay(crc, accept, bytes);
      if r.failed then exists p :: Begins(crc, p, bytes[r.offset..]) && !accept(p)
      else forall p :: !Begins(crc, p, bytes[r.offset..])
    decreases |bytes|
  {
    hide WholeFrame, PayloadOf, Frame, Begins, Replay;
    var r := Replay(crc, accept, bytes);
    ReplayStep(crc, accept, bytes);
    assert bytes[0..] == bytes;
    if !WholeFrame(crc, bytes) {
      forall p
        ensures !Begins(crc, p, bytes)
      {
        if Begins(crc, p, bytes) { BeginsWhole(crc, p, bytes); }
      }
    } else {
      WholeBegins(crc, bytes);
      var p := PayloadOf(crc, bytes);
      if accept(p) {
        var n := HEADER + |p|;
        ReplayExact(crc, accept, bytes[n..]);
        var rest := Replay(crc, accept, bytes[n..]);
        assert r.payloads[0] == p && r.payloads[1..] == rest.payloads;
        BeginsFrame(crc, p, bytes);
        assert bytes[..n] + bytes[n..][..rest.offset] == bytes[..n + rest.offset];
        assert bytes[n..][rest.offset..] == bytes[r.offset..];
      }
    }
  }

  lemma BeginsFrame(crc: Checksum, p: seq<Byte>, bytes: seq<Byte>)
    requires Begins(crc, p, bytes)
    ensures |p| < 0x1_0000_0000 && HEADER + |p| <= |bytes| && Frame(crc, p) == bytes[..HEADER + |p|]
  {
  }

  // ---------------------------------------------------------------------------
  // The file object and the replay loop
  // ---------------------------------------------------------------------------

  /** A log file: what is on the device, and what is still buffered. `landings` lists the
      contents the device went through, byte by byte. */
  class LogFile {
    const crc: Checksum
    var synced: seq<Byte>
    var buffered: seq<Byte>
    ghost var landings: seq<seq<Byte>>

    constructor (crc: Checksum, contents: seq<Byte>)
      ensures this.crc == crc && synced == contents && buffered == [] && landings == []
    {
      this.crc, synced, buffered, landings := crc, contents, [], [];
    }

    method Append(payload: seq<Byte>)
      modifies this
      ensures buffered == old(buffered) + Frame(crc, payload) && synced == old(synced) && landings == old(landings)
    {
      var header := PutU32(|payload|) + PutU32(crc(payload));
      buffered := buffered + header;
      buffered := buffered + payload;
    }

    /** Everything buffered reaches the device, in order. */
    method Sync()
      modifies this
      ensures synced == old(synced) + old(buffered) && buffered == []
      ensures landings == old(landings) + Landing(old(synced), old(buffered))
    {
      var i := 0;
      var bytes := buffered;
      while i < |bytes|
        invariant i <= |bytes| && synced == old(synced) + bytes[..i]
        invariant landings == old(landings) + Landing(old(synced), bytes)[..i]
      {
        synced := synced + [bytes[i]];
        assert bytes[..i + 1] == bytes[..i] + [bytes[i]];
        landings := landings + [synced];
        i := i + 1;
      }
      buffered := [];
    }

    method Truncate(to: nat)
      requires to <= |synced|
      modifies this
      ensures synced == old(synced)[..to] && buffered == old(buffered) &&
        landings == old(landings) + [old(synced)[..to]]
    {
      synced := synced[..to];
      landings := landings + [synced];
    }

    method ReadBack(accept: seq<Byte> -> bool) returns (r: Replayed)
      ensures r == Replay(crc, accept, synced)
    {
      hide GetU32, Replay;
      assert synced[0..] == synced;
      var payloads, offset := [], 0;
      while true
        invariant offset <= |synced|
        invariant Resumed(payloads, offset, Replay(crc, accept, synced[offset..])) == Replay(crc, accept, synced)
        decreases |synced| - offset
      {
        ReplayStep(crc, accept, synced[offset..]);
        if |synced| - offset < HEADER {
          return Replayed(payloads, offset, false);
        }
        var rest := synced[offset..];
        var len := GetU32(rest[..4]);
        var want := GetU32(rest[4..HEADER]);
        if |rest| - HEADER < len {
          return Replayed(payloads, offset, false);
        }
        var payload := rest[HEADER..HEADER + len];
        if crc(payload) != want {
          return Replayed(payloads, offset, false);
        }
        if !accept(payload) {
          return Replayed(payloads, offset, true);
        }
        assert rest[HEADER + len..] == synced[offset + HEADER + len..];
        ghost var tail := Replay(crc, accept, synced[offset + HEADER + len..]);
        assert payloads + ([payload] + tail.payloads) == payloads + [payload] + tail.payloads;
        payloads := payloads + [payload];
        offset := offset + HEADER + len;
      }
    }
  }

  lemma ReplayStep(crc: Checksum, accept: seq<Byte> -> bool, bytes: seq<Byte>)
    ensures !WholeFrame(crc, bytes) ==> Replay(crc, accept, bytes) == Replayed([], 0, false)
    ensures WholeFrame(crc, bytes) ==>
      var p := PayloadOf(crc, bytes);
      Replay(crc, accept, bytes) ==
        if !accept(p) then Replayed([], 0, true)
        else Resumed([p], HEADER + |p|, Replay(crc, accept, bytes[HEADER + |p|..]))
  {
  }

  function Landing(before: seq<Byte>, bytes: seq<Byte>): seq<seq<Byte>>
  {
    seq(|bytes|, i requires 0 <= i < |bytes| => before + bytes[..i + 1])
  }

  function Resumed(payloads: seq<seq<Byte>>, offset: nat, r: Replayed): Replayed
  {
    Replayed(payloads + r.payloads, offset + r.offset, r.failed)
  }
}
