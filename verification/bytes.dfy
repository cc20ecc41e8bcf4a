/** Bytes and the big-endian integers of the on-disk and command formats. */
module Bytes {

  type Byte = x: int | 0 <= x < 0x100

  type U32 = x: int | 0 <= x < 0x1_0000_0000

  type U64 = x: int | 0 <= x < 0x1_0000_0000_0000_0000

  /** Four bytes, most significant first; wider values lose their upper bits. */
  function PutU32(n: nat): (r: seq<Byte>)
    ensures |r| == 4
  {
    var a := n / 0x100;
    var b := a / 0x100;
    var c := b / 0x100;
    [c % 0x100, b % 0x100, a % 0x100, n % 0x100]
  }

  function Join(a: int, b: int, c: int, d: int): int
  {
    a * 0x100_0000 + b * 0x1_0000 + c * 0x100 + d
  }

  function GetU32(b: seq<Byte>): U32
    requires |b| == 4
  {
    Join(b[0], b[1], b[2], b[3])
  }

  function PutU64(n: nat): (r: seq<Byte>)
    ensures |r| == 8
  {
    PutU32(n / 0x1_0000_0000) + PutU32(n)
  }

  function GetU64(b: seq<Byte>): U64
    requires |b| == 8
  {
    GetU32(b[..4]) * 0x1_0000_0000 + GetU32(b[4..])
  }

  lemma GetPutU32(n: nat)
    ensures GetU32(PutU32(n)) == n % 0x1_0000_0000
  {
    var a := n / 0x100;
    var b := a / 0x100;
    var c := b / 0x100;
    Rest(n, c / 0x100, Join(c % 0x100, b % 0x100, a % 0x100, n % 0x100)) by {
      Digits(n, a);
      Digits(a, b);
      Digits(b, c);
      Digits(c, c / 0x100);
    }
  }

  lemma Digits(n: nat, q: nat)
    requires q == n / 0x100
    ensures n == q * 0x100 + n % 0x100 && 0 <= n % 0x100 < 0x100
  {
  }

  lemma Rest(n: nat, q: nat, r: nat)
    requires n == q * 0x1_0000_0000 + r && r < 0x1_0000_0000
    ensures n % 0x1_0000_0000 == r
  {
  }

  lemma PutGetU32(b: seq<Byte>)
    requires |b| == 4
    ensures PutU32(GetU32(b)) == b
  {
    var n := GetU32(b);
    var x, y, z, w := b[0] as int, b[1] as int, b[2] as int, b[3] as int;
    assert n == ((x * 0x100 + y) * 0x100 + z) * 0x100 + w;
    Digit((x * 0x100 + y) * 0x100 + z, w);
    Digit(x * 0x100 + y, z);
    Digit(x, y);
    assert x / 0x100 == 0;
  }

  lemma Digit(q: nat, d: nat)
    requires d < 0x100
    ensures (q * 0x100 + d) / 0x100 == q && (q * 0x100 + d) % 0x100 == d
  {
  }

  lemma GetPutU64(n: U64)
    ensures GetU64(PutU64(n)) == n
  {
    hide GetU32, PutU32;
    var hi, lo := PutU32(n / 0x1_0000_0000), PutU32(n);
    assert (hi + lo)[..4] == hi && (hi + lo)[4..] == lo;
    GetPutU32(n / 0x1_0000_0000);
    GetPutU32(n);
  }

  lemma PutGetU64(b: seq<Byte>)
    requires |b| == 8
    ensures PutU64(GetU64(b)) == b
  {
    hide GetU32, PutU32;
    var hi, lo := GetU32(b[..4]), GetU32(b[4..]);
    assert GetU64(b) / 0x1_0000_0000 == hi;
    PutU32Low(hi, lo);
    PutGetU32(b[..4]);
    PutGetU32(b[4..]);
    assert b == b[..4] + b[4..];
  }

  lemma PutU32Low(hi: U32, lo: U32)
    ensures PutU32(hi * 0x1_0000_0000 + lo) == PutU32(lo)
  {
    hide GetU32, PutU32;
    GetPutU32(hi * 0x1_0000_0000 + lo);
    GetPutU32(lo);
    assert (hi * 0x1_0000_0000 + lo) % 0x1_0000_0000 == lo;
    PutGetU32(PutU32(hi * 0x1_0000_0000 + lo));
    PutGetU32(PutU32(lo));
  }
}
