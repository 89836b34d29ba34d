/** Fixed-width integers and their big-endian byte images. */
module Bytes {

  type byte = x: int | 0 <= x < 0x100
  type uint16 = x: int | 0 <= x < 0x1_0000
  type uint32 = x: int | 0 <= x < 0x1_0000_0000
  type int16 = x: int | -0x8000 <= x < 0x8000
  type int32 = x: int | -0x8000_0000 <= x < 0x8000_0000

  const MAX_INT32: int := 0x7FFF_FFFF

  /** The C cast `(uint16) n` of a signed value. */
  function ToUnsigned16(n: int16): uint16 {
    if n < 0 then n + 0x1_0000 else n
  }

  /** The C cast `(int16) n` of an unsigned value. */
  function ToSigned16(n: uint16): int16 {
    if n < 0x8000 then n else n - 0x1_0000
  }

  function ToSigned32(n: uint32): int32 {
    if n < 0x8000_0000 then n else n - 0x1_0000_0000
  }

  /** The C cast `(int16) n` of any integer. */
  function Wrap16(n: int): int16 {
    ToSigned16(n % 0x1_0000)
  }

  /** The C cast `(uint8) n`: truncation to the low eight bits. */
  function ToByte(n: int): byte {
    n % 0x100
  }

  function BigEndian16(n: uint16): (s: seq<byte>)
    ensures |s| == 2
  {
    [n / 0x100, n % 0x100]
  }

  function BigEndian32(n: uint32): (s: seq<byte>)
    ensures |s| == 4
  {
    [n / 0x100 / 0x100 / 0x100, n / 0x100 / 0x100 % 0x100, n / 0x100 % 0x100, n % 0x100]
  }

  function FromBigEndian16(s: seq<byte>): uint16
    requires |s| == 2
  {
    s[0] as int * 0x100 + s[1]
  }

  /** The word made of four octets, most significant first. */
  function Word32(b0: byte, b1: byte, b2: byte, b3: byte): uint32 {
    ((b0 as int * 0x100 + b1) * 0x100 + b2) * 0x100 + b3
  }

  function FromBigEndian32(s: seq<byte>): uint32
    requires |s| == 4
  {
    Word32(s[0], s[1], s[2], s[3])
  }

  lemma BigEndian16RoundTrip(n: uint16)
    ensures FromBigEndian16(BigEndian16(n)) == n
  {
  }

  lemma BigEndian32RoundTrip(n: uint32)
    ensures FromBigEndian32(BigEndian32(n)) == n
  {
  }

  /** The octets of a word are the quotients and remainders of repeated division by 256. */
  lemma WordOctets(b0: byte, b1: byte, b2: byte, b3: byte)
    ensures BigEndian32(Word32(b0, b1, b2, b3)) == [b0, b1, b2, b3]
  {
    var n := Word32(b0, b1, b2, b3);
    assert n / 0x100 == (b0 as int * 0x100 + b1) * 0x100 + b2;
    assert n / 0x100 / 0x100 == b0 as int * 0x100 + b1;
  }
}
