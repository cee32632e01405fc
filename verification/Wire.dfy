/** Bytes and big-endian integers as every PLANK wire format writes them. */
module Wire {
  type byte = x: int | 0 <= x < 256
  type u16 = x: int | 0 <= x < 0x1_0000
  type u32 = x: int | 0 <= x < 0x1_0000_0000
  type u64 = x: int | 0 <= x < 0x1_0000_0000_0000_0000

  function PutU16(v: u16): seq<byte> { [v / 256, v % 256] }

  function PutU32(v: u32): seq<byte> { PutU16(v / 0x1_0000) + PutU16(v % 0x1_0000) }

  function PutU64(v: u64): seq<byte> { PutU32(v / 0x1_0000_0000) + PutU32(v % 0x1_0000_0000) }

  function GetU16(b: seq<byte>, at: nat): u16
    requires at + 2 <= |b|
  {
    b[at] as int * 256 + b[at + 1] as int
  }

  function GetU32(b: seq<byte>, at: nat): u32
    requires at + 4 <= |b|
  {
    GetU16(b, at) as int * 0x1_0000 + GetU16(b, at + 2) as int
  }

  function GetU64(b: seq<byte>, at: nat): u64
    requires at + 8 <= |b|
  {
    GetU32(b, at) as int * 0x1_0000_0000 + GetU32(b, at + 4) as int
  }

  /** Reading back what was written, wherever it stands in a packet. */
  lemma GetPutU16(a: seq<byte>, v: u16, c: seq<byte>)
    ensures GetU16(a + PutU16(v) + c, |a|) == v
  {
    var s := a + PutU16(v) + c;
    assert s[|a|] == v / 256 && s[|a| + 1] == v % 256;
  }

  lemma GetPutU32(a: seq<byte>, v: u32, c: seq<byte>)
    ensures GetU32(a + PutU32(v) + c, |a|) == v
  {
    var s := a + PutU32(v) + c;
    assert s == a + PutU16(v / 0x1_0000) + (PutU16(v % 0x1_0000) + c);
    assert s == (a + PutU16(v / 0x1_0000)) + PutU16(v % 0x1_0000) + c;
    GetPutU16(a, v / 0x1_0000, PutU16(v % 0x1_0000) + c);
    GetPutU16(a + PutU16(v / 0x1_0000), v % 0x1_0000, c);
  }

  /** Writing back what was read reproduces the bytes. */
  lemma PutGetU16(b: seq<byte>, at: nat)
    requires at + 2 <= |b|
    ensures PutU16(GetU16(b, at)) == b[at..at + 2]
  {
  }

  lemma PutGetU32(b: seq<byte>, at: nat)
    requires at + 4 <= |b|
    ensures PutU32(GetU32(b, at)) == b[at..at + 4]
  {
    var hi: int, lo: int := GetU16(b, at), GetU16(b, at + 2);
    assert (hi * 0x1_0000 + lo) / 0x1_0000 == hi && (hi * 0x1_0000 + lo) % 0x1_0000 == lo;
    PutGetU16(b, at);
    PutGetU16(b, at + 2);
  }

  lemma GetPutU64(a: seq<byte>, v: u64, c: seq<byte>)
    ensures GetU64(a + PutU64(v) + c, |a|) == v
  {
    var hi, lo := PutU32(v / 0x1_0000_0000), PutU32(v % 0x1_0000_0000);
    var s := a + PutU64(v) + c;
    assert s == a + hi + (lo + c) && s == (a + hi) + lo + c;
    GetPutU32(a, v / 0x1_0000_0000, lo + c);
    GetPutU32(a + hi, v % 0x1_0000_0000, c);
  }

  lemma PutGetU64(b: seq<byte>, at: nat)
    requires at + 8 <= |b|
    ensures PutU64(GetU64(b, at)) == b[at..at + 8]
  {
    PutGetU32(b, at);
    PutGetU32(b, at + 4);
    Halves(GetU32(b, at), GetU32(b, at + 4));
    assert b[at..at + 8] == b[at..at + 4] + b[at + 4..at + 8];
  }

  lemma Halves(hi: u32, lo: u32)
    ensures (hi * 0x1_0000_0000 + lo) / 0x1_0000_0000 == hi
    ensures (hi * 0x1_0000_0000 + lo) % 0x1_0000_0000 == lo
  {
  }

  // ---------------------------------------------------------------- what lies on the wire, byte by byte

  ghost predicate Word16At(b: seq<byte>, at: nat, v: int) {
    at + 2 <= |b| && v == 0x100 * (b[at] as int) + (b[at + 1] as int)
  }

  ghost predicate Word32At(b: seq<byte>, at: nat, v: int) {
    at + 4 <= |b| && v == 0x100_0000 * (b[at] as int) + 0x1_0000 * (b[at + 1] as int) + 0x100 * (b[at + 2] as int) + (b[at + 3] as int)
  }

  ghost predicate Word64At(b: seq<byte>, at: nat, v: int) {
    && at + 8 <= |b|
    && v == 0x100_0000_0000_0000 * (b[at] as int) + 0x1_0000_0000_0000 * (b[at + 1] as int) + 0x100_0000_0000 * (b[at + 2] as int) + 0x1_0000_0000 * (b[at + 3] as int)
            + 0x100_0000 * (b[at + 4] as int) + 0x1_0000 * (b[at + 5] as int) + 0x100 * (b[at + 6] as int) + (b[at + 7] as int)
  }

  /** Most significant byte first. */
  lemma BigEndian16(v: u16)
    ensures |PutU16(v)| == 2 && Word16At(PutU16(v), 0, v)
  {
  }

  lemma BigEndian32(v: u32)
    ensures |PutU32(v)| == 4 && Word32At(PutU32(v), 0, v)
  {
    BigEndian16(v / 0x1_0000);
    BigEndian16(v % 0x1_0000);
  }

  lemma BigEndian64(v: u64)
    ensures |PutU64(v)| == 8 && Word64At(PutU64(v), 0, v)
  {
    var hi, lo := PutU32(v / 0x1_0000_0000), PutU32(v % 0x1_0000_0000);
    BigEndian32(v / 0x1_0000_0000);
    BigEndian32(v % 0x1_0000_0000);
    var b := hi + lo;
    assert b[0] == hi[0] && b[1] == hi[1] && b[2] == hi[2] && b[3] == hi[3];
    assert b[4] == lo[0] && b[5] == lo[1] && b[6] == lo[2] && b[7] == lo[3];
  }

  /** The readers read what the bytes say. */
  lemma Reads16(b: seq<byte>, at: nat, v: int)
    requires at + 2 <= |b|
    ensures GetU16(b, at) == v <==> Word16At(b, at, v)
  {
  }

  lemma Reads32(b: seq<byte>, at: nat, v: int)
    requires at + 4 <= |b|
    ensures GetU32(b, at) == v <==> Word32At(b, at, v)
  {
  }

  lemma Reads64(b: seq<byte>, at: nat, v: int)
    requires at + 8 <= |b|
    ensures GetU64(b, at) == v <==> Word64At(b, at, v)
  {
  }
}
