/** The record format of the store: operation, key length, key, value. */
module StoreRecord {
  import opened Bytes
  import opened RaftTypes

  const OP_PUT: Byte := 1
  const OP_DELETE: Byte := 2

  datatype Command = Command(op: Byte, key: seq<Byte>, value: seq<Byte>)

  function Encode(c: Command): seq<Byte>
  {
    [c.op] + PutU32(|c.key|) + c.key + c.value
  }

  /** What the log hands over is shorter than 4 GiB, so no offset below wraps around. */
  function Decode(p: seq<Byte>): Option<Command>
    requires |p| < 0x1_0000_0000
  {
    if |p| < 5 || GetU32(p[1..5]) > |p| - 5 then None
    else
      var end := 5 + GetU32(p[1..5]);
      Some(Command(p[0], p[5..end], p[end..]))
  }

  lemma DecodeEncode(c: Command)
    requires |Encode(c)| < 0x1_0000_0000
    ensures Decode(Encode(c)) == Some(c)
  {
    hide PutU32, GetU32;
    var p := Encode(c);
    assert p[1..5] == PutU32(|c.key|);
    GetPutU32(|c.key|);
    assert p[5..5 + |c.key|] == c.key;
    assert p[5 + |c.key|..] == c.value;
  }

  lemma EncodeDecode(p: seq<Byte>)
    requires |p| < 0x1_0000_0000 && Decode(p).Some?
    ensures Encode(Decode(p).value) == p
  {
    hide PutU32, GetU32;
    var n := GetU32(p[1..5]);
    PutGetU32(p[1..5]);
    assert p == [p[0]] + p[1..5] + p[5..5 + n] + p[5 + n..];
  }

  // ---------------------------------------------------------------------------
  // The buffer is filled in place
  // ---------------------------------------------------------------------------

  method WriteAt(buf: array<Byte>, at: nat, bytes: seq<Byte>)
    requires at + |bytes| <= buf.Length
    modifies buf
    ensures buf[..] == old(buf[..at]) + bytes + old(buf[at + |bytes|..])
  {
    var i := 0;
    while i < |bytes|
      invariant i <= |bytes|
      invariant forall k :: 0 <= k < i ==> buf[at + k] == bytes[k]
      invariant forall k :: (0 <= k < at || at + i <= k < buf.Length) ==> buf[k] == old(buf[k])
    {
      buf[at + i] := bytes[i];
      i := i + 1;
    }
  }

  method EncodeCommand(c: Command) returns (buf: array<Byte>)
    ensures fresh(buf) && buf[..] == Encode(c)
  {
    buf := new Byte[1 + 4 + |c.key| + |c.value|];
    buf[0] := c.op;
    assert buf[..1] == [c.op];
    WriteAt(buf, 1, PutU32(|c.key|));
    assert buf[..5] == [c.op] + PutU32(|c.key|);
    WriteAt(buf, 5, c.key);
    assert buf[..5 + |c.key|] == [c.op] + PutU32(|c.key|) + c.key;
    WriteAt(buf, 5 + |c.key|, c.value);
  }
}
