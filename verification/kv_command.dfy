/** The command format carried in Raft entries. */
module KvCommand {
  import opened Bytes
  import opened RaftTypes
  import StoreRecord

  datatype Command = Command(
    op: Byte, client: seq<Byte>, request: U64, key: seq<Byte>, value: seq<Byte>, expected: seq<Byte>)

  const MIN_LENGTH := 21

  function Encode(c: Command): seq<Byte>
  {
    [c.op] + PutU32(|c.client|) + c.client + PutU64(c.request) + PutU32(|c.key|) + c.key +
    PutU32(|c.expected|) + c.expected + c.value
  }

  /** A length-prefixed field at `off`, if it and `after` more bytes fit. */
  function Field(p: seq<Byte>, off: nat, after: nat): Option<seq<Byte>>
    requires off + 4 <= |p|
  {
    var n := GetU32(p[off..off + 4]);
    if off + 4 + n + after > |p| then None else Some(p[off + 4..off + 4 + n])
  }

  function Decode(p: seq<Byte>): Option<Command>
  {
    if |p| < MIN_LENGTH then None
    else
      var client := Field(p, 1, 12);
      if client.None? then None
      else
        var a := 5 + |client.value|;
        var request := GetU64(p[a..a + 8]);
        var key := Field(p, a + 8, 4);
        if key.None? then None
        else
          var b := a + 12 + |key.value|;
          var expected := Field(p, b, 0);
          if expected.None? then None
          else
            var d := b + 4 + |expected.value|;
            Some(Command(p[0], client.value, request, key.value, p[d..], expected.value))
  }

  ghost predicate Short(s: seq<Byte>) { |s| < 0x1_0000_0000 }

  /** Commands whose field lengths fit 32 bits. */
  ghost predicate Sendable(c: Command) { Short(c.client) && Short(c.key) && Short(c.expected) }

  /** What stands at `off` when a length and that many bytes were written there. */
  lemma FieldReads(before: seq<Byte>, s: seq<Byte>, rest: seq<Byte>, after: nat)
    requires Short(s) && |rest| >= after
    ensures Field(before + PutU32(|s|) + s + rest, |before|, after) == Some(s)
  {
    hide PutU32, GetU32;
    var p := before + PutU32(|s|) + s + rest;
    assert p[|before|..|before| + 4] == PutU32(|s|);
    GetPutU32(|s|);
    assert p[|before| + 4..|before| + 4 + |s|] == s;
  }

  /** A field of 4 GiB or more is never read back: its length was cut off. */
  lemma FieldWraps(before: seq<Byte>, s: seq<Byte>, rest: seq<Byte>, after: nat)
    requires !Short(s)
    ensures var f := Field(before + PutU32(|s|) + s + rest, |before|, after); f.None? || |f.value| != |s|
  {
    hide PutU32, GetU32;
    var p := before + PutU32(|s|) + s + rest;
    assert p[|before|..|before| + 4] == PutU32(|s|);
    GetPutU32(|s|);
  }

  /** Where the three fields and the request number stand in an encoded command. */
  lemma Layout(c: Command)
    ensures var p := Encode(c); var a := 5 + |c.client|; var b := a + 12 + |c.key|;
      |p| == b + 4 + |c.expected| + |c.value| && p[0] == c.op && p[a..a + 8] == PutU64(c.request) &&
      p[b + 4 + |c.expected|..] == c.value &&
      p == [c.op] + PutU32(|c.client|) + c.client + p[a..] &&
      p == p[..a + 8] + PutU32(|c.key|) + c.key + p[b..] &&
      p == p[..b] + PutU32(|c.expected|) + c.expected + c.value
  {
    hide PutU32, PutU64;
    var head := [c.op] + PutU32(|c.client|) + c.client;
    var mid := head + PutU64(c.request);
    var upTo := mid + PutU32(|c.key|) + c.key;
    var p := Encode(c);
    assert p == upTo + PutU32(|c.expected|) + c.expected + c.value;
    assert p[..|upTo|] == upTo && p[..|mid|] == mid && p[..|head|] == head;
    assert p[|head|..|mid|] == PutU64(c.request);
  }

  /** Decoding undoes encoding, exactly for the commands whose field lengths fit 32 bits. */
  lemma DecodeEncode(c: Command)
    ensures Decode(Encode(c)) == Some(c) <==> Sendable(c)
  {
    hide PutU32, GetU32, PutU64, GetU64, Encode, Field;
    var p := Encode(c);
    var a := 5 + |c.client|;
    var b := a + 12 + |c.key|;
    Layout(c);
    if !Short(c.client) {
      FieldWraps([c.op], c.client, p[a..], 12);
      return;
    }
    FieldReads([c.op], c.client, p[a..], 12);
    GetPutU64(c.request);
    if !Short(c.key) {
      FieldWraps(p[..a + 8], c.key, p[b..], 4);
      return;
    }
    FieldReads(p[..a + 8], c.key, p[b..], 4);
    if !Short(c.expected) {
      FieldWraps(p[..b], c.expected, c.value, 0);
      return;
    }
    FieldReads(p[..b], c.expected, c.value, 0);
  }

  lemma FieldIs(p: seq<Byte>, off: nat, after: nat)
    requires off + 4 <= |p| && Field(p, off, after).Some?
    ensures var s := Field(p, off, after).value;
      off + 4 + |s| + after <= |p| && PutU32(|s|) == p[off..off + 4] && s == p[off + 4..off + 4 + |s|]
  {
    hide PutU32, GetU32;
    PutGetU32(p[off..off + 4]);
  }

  lemma Split(p: seq<Byte>, i: nat, j: nat)
    requires i <= j <= |p|
    ensures p[..j] == p[..i] + p[i..j]
  {
  }

  /** What the decoded fields are, in terms of the payload. */
  lemma Decoded(p: seq<Byte>)
    requires Decode(p).Some?
    ensures var c := Decode(p).value; var a := 5 + |c.client|; var b := a + 12 + |c.key|; var d := b + 4 + |c.expected|;
      d <= |p| && c.op == p[0] && c.value == p[d..] &&
      PutU32(|c.client|) == p[1..5] && c.client == p[5..a] && PutU64(c.request) == p[a..a + 8] &&
      PutU32(|c.key|) == p[a + 8..a + 12] && c.key == p[a + 12..b] &&
      PutU32(|c.expected|) == p[b..b + 4] && c.expected == p[b + 4..d]
  {
    hide PutU32, GetU32, PutU64, GetU64, Field;
    var c := Decode(p).value;
    var a := 5 + |c.client|;
    FieldIs(p, 1, 12);
    FieldIs(p, a + 8, 4);
    FieldIs(p, a + 12 + |c.key|, 0);
    PutGetU64(p[a..a + 8]);
  }

  /** Encoding undoes decoding on every payload that is accepted. */
  lemma EncodeDecode(p: seq<Byte>)
    requires Decode(p).Some?
    ensures Encode(Decode(p).value) == p
  {
    hide PutU32, PutU64, Decode;
    var c := Decode(p).value;
    Decoded(p);
    var a := 5 + |c.client|;
    var b := a + 12 + |c.key|;
    Split(p, 1, 5);
    Split(p, 5, a);
    Split(p, a, a + 8);
    Split(p, a + 8, a + 12);
    Split(p, a + 12, b);
    Split(p, b, b + 4);
    Split(p, b + 4, b + 4 + |c.expected|);
    Split(p, b + 4 + |c.expected|, |p|);
    assert p[..1] == [c.op] && p[..|p|] == p;
  }

  // ---------------------------------------------------------------------------
  // Both directions as the program does them, with a moving offset
  // ---------------------------------------------------------------------------

  method EncodeCommand(c: Command) returns (buf: array<Byte>)
    ensures fresh(buf) && buf[..] == Encode(c)
  {
    hide PutU32, PutU64;
    buf := new Byte[1 + 4 + |c.client| + 8 + 4 + |c.key| + 4 + |c.expected| + |c.value|];
    var off := 0;
    off := Emit(buf, off, [c.op]);
    assert buf[..off] == [c.op];
    off := EmitField(buf, off, c.client);
    off := Emit(buf, off, PutU64(c.request));
    off := EmitField(buf, off, c.key);
    off := EmitField(buf, off, c.expected);
    off := Emit(buf, off, c.value);
    assert buf[..off] == buf[..];
  }

  /** A length and that many bytes. */
  method EmitField(buf: array<Byte>, off: nat, bytes: seq<Byte>) returns (next: nat)
    requires off + 4 + |bytes| <= buf.Length
    modifies buf
    ensures next == off + 4 + |bytes| && buf[..next] == old(buf[..off]) + PutU32(|bytes|) + bytes
  {
    hide PutU32;
    next := Emit(buf, off, PutU32(|bytes|));
    next := Emit(buf, next, bytes);
  }

  method Emit(buf: array<Byte>, off: nat, bytes: seq<Byte>) returns (next: nat)
    requires off + |bytes| <= buf.Length
    modifies buf
    ensures next == off + |bytes| && buf[..next] == old(buf[..off]) + bytes
  {
    StoreRecord.WriteAt(buf, off, bytes);
    next := off + |bytes|;
  }

  method DecodeCommand(payload: seq<Byte>) returns (r: Option<Command>)
    ensures r == Decode(payload)
  {
    hide GetU32, GetU64;
    if |payload| < 1 + 4 + 8 + 4 + 4 {
      return None;
    }
    var off := 0;
    var op := payload[off];
    off := off + 1;
    var clientLen := GetU32(payload[off..off + 4]);
    off := off + 4;
    if off + clientLen + 8 + 4 > |payload| {
      return None;
    }
    var client := payload[off..off + clientLen];
    off := off + clientLen;
    var request := GetU64(payload[off..off + 8]);
    off := off + 8;
    var keyLen := GetU32(payload[off..off + 4]);
    off := off + 4;
    if off + keyLen + 4 > |payload| {
      return None;
    }
    var key := payload[off..off + keyLen];
    off := off + keyLen;
    var expectedLen := GetU32(payload[off..off + 4]);
    off := off + 4;
    if off + expectedLen > |payload| {
      return None;
    }
    var expected := payload[off..off + expectedLen];
    off := off + expectedLen;
    var value := payload[off..];
    r := Some(Command(op, client, request, key, value, expected));
  }
}
