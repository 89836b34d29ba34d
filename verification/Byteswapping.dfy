/** The byte-swapping macros of Byteswapping.h, over bit operations spelled out on naturals. */
module Byteswapping {
  import opened Bytes

  datatype ByteOrder = LittleEndian | BigEndian

  function BitAnd(a: nat, b: nat): nat
    decreases a
  {
    if a == 0 then 0 else (if a % 2 == 1 && b % 2 == 1 then 1 else 0) + 2 * BitAnd(a / 2, b / 2)
  }

  function BitOr(a: nat, b: nat): nat
    decreases a
  {
    if a == 0 then b else (if a % 2 == 1 || b % 2 == 1 then 1 else 0) + 2 * BitOr(a / 2, b / 2)
  }

  /** `n << k` and `n >> k`, one position at a time. */
  function ShiftLeft(n: nat, k: nat): nat
    decreases k
  {
    if k == 0 then n else 2 * ShiftLeft(n, k - 1)
  }

  function ShiftRight(n: nat, k: nat): nat
    decreases k
  {
    if k == 0 then n else ShiftRight(n / 2, k - 1)
  }

  /** BYTE_SWAP_16 followed by the cast back to 16 bits; the left shift is done on a promoted int. */
  function Swap16(n: uint16): uint16 {
    BitOr(ShiftRight(n, 8), ShiftLeft(n, 8)) % 0x1_0000
  }

  /** BYTE_SWAP_32; a left shift of a 32-bit value drops what leaves the word. */
  function Swap32(n: uint32): nat {
    BitOr(BitOr(BitOr(ShiftLeft(n, 24) % 0x1_0000_0000,
                      BitAnd(ShiftLeft(n, 8) % 0x1_0000_0000, 0x00FF0000)),
                BitAnd(ShiftRight(n, 8), 0x0000FF00)),
          ShiftRight(n, 24))
  }

  lemma {:induction false} ShiftSum(n: nat, j: nat, k: nat)
    ensures ShiftLeft(n, j + k) == ShiftLeft(ShiftLeft(n, j), k)
    ensures ShiftRight(n, j + k) == ShiftRight(ShiftRight(n, j), k)
    decreases j + k
  {
    if k > 0 {
      ShiftSum(n, j, k - 1);
    }
    if j > 0 {
      ShiftSum(n / 2, j - 1, k);
    }
  }

  lemma ShiftByNibble(n: nat)
    ensures ShiftLeft(n, 4) == n * 0x10 && ShiftRight(n, 4) == n / 0x10
  {
    assert ShiftLeft(n, 2) == n * 4;
    assert ShiftRight(n, 4) == ShiftRight(n / 4, 2);
  }

  /** Shifting by whole octets is scaling by powers of 256. */
  lemma ShiftByOctet(n: nat)
    ensures ShiftLeft(n, 8) == n * 0x100 && ShiftRight(n, 8) == n / 0x100
  {
    hide ShiftLeft, ShiftRight;
    ShiftByNibble(n);
    ShiftByNibble(n * 0x10);
    ShiftByNibble(n / 0x10);
    ShiftSum(n, 4, 4);
  }

  lemma ShiftByTwoOctets(n: nat)
    ensures ShiftLeft(n, 16) == n * 0x1_0000 && ShiftRight(n, 16) == n / 0x1_0000
  {
    hide ShiftLeft, ShiftRight;
    ShiftByOctet(n);
    ShiftByOctet(n * 0x100);
    ShiftByOctet(n / 0x100);
    ShiftSum(n, 8, 8);
  }

  lemma ShiftByThreeOctets(n: nat)
    ensures ShiftLeft(n, 24) == n * 0x100_0000 && ShiftRight(n, 24) == n / 0x100_0000
  {
    hide ShiftLeft, ShiftRight;
    ShiftByOctet(n);
    ShiftByTwoOctets(n * 0x100);
    ShiftByTwoOctets(n / 0x100);
    ShiftSum(n, 8, 16);
  }

  /** A mask of low ones keeps the bits that a right shift would drop. */
  lemma {:induction false} AndLowBits(n: nat, mask: nat, k: nat)
    requires mask + 1 == ShiftLeft(1, k)
    ensures BitAnd(n, mask) + ShiftLeft(ShiftRight(n, k), k) == n
    decreases k
  {
    if k == 0 {
      AndZero(n);
    } else if n == 0 {
      AndLowBits(0, mask / 2, k - 1);
    } else {
      AndLowBits(n / 2, mask / 2, k - 1);
    }
  }

  lemma {:induction false} AndZero(n: nat)
    ensures BitAnd(n, 0) == 0
    decreases n
  {
    if n != 0 {
      AndZero(n / 2);
    }
  }

  /** Masking with a shifted mask is masking the shifted operand. */
  lemma {:induction false} AndShifted(n: nat, mask: nat, k: nat)
    ensures BitAnd(n, ShiftLeft(mask, k)) == ShiftLeft(BitAnd(ShiftRight(n, k), mask), k)
    decreases k
  {
    if k != 0 {
      AndShifted(n / 2, mask, k - 1);
      if n == 0 {
        assert BitAnd(0, ShiftLeft(mask, k - 1)) == 0;
      }
    }
  }

  /** OR-ing two values without a common bit position is adding them. */
  lemma {:induction false} OrDisjoint(a: nat, b: nat, k: nat)
    requires ShiftRight(b, k) == 0
    ensures BitOr(ShiftLeft(a, k), b) == ShiftLeft(a, k) + b
    ensures BitOr(b, ShiftLeft(a, k)) == ShiftLeft(a, k) + b
    decreases k
  {
    if k == 0 {
      OrZero(a);
    } else {
      OrDisjoint(a, b / 2, k - 1);
      OrZero(ShiftLeft(a, k));
      OrZero(b);
    }
  }

  lemma {:induction false} OrZero(a: nat)
    ensures BitOr(a, 0) == a && BitOr(0, a) == a
    decreases a
  {
    if a != 0 {
      OrZero(a / 2);
    }
  }

  lemma OrOctet(a: nat, b: byte)
    ensures BitOr(a * 0x100, b) == a * 0x100 + b == BitOr(b, a * 0x100)
  {
    hide ShiftLeft, ShiftRight, BitOr;
    ShiftByOctet(a);
    ShiftByOctet(b);
    OrDisjoint(a, b, 8);
  }

  lemma OrTwoOctets(a: nat, b: uint16)
    ensures BitOr(a * 0x1_0000, b) == a * 0x1_0000 + b
  {
    hide ShiftLeft, ShiftRight, BitOr;
    ShiftByTwoOctets(a);
    ShiftByTwoOctets(b);
    OrDisjoint(a, b, 16);
  }

  lemma OrThreeOctets(a: nat, b: nat)
    requires b < 0x100_0000
    ensures BitOr(a * 0x100_0000, b) == a * 0x100_0000 + b
  {
    hide ShiftLeft, ShiftRight, BitOr;
    ShiftByThreeOctets(a);
    ShiftByThreeOctets(b);
    OrDisjoint(a, b, 24);
  }

  lemma AndOctet(n: nat)
    ensures BitAnd(n, 0xFF) == n % 0x100
  {
    hide ShiftLeft, ShiftRight, BitAnd;
    ShiftByOctet(1);
    ShiftByOctet(n);
    ShiftByOctet(n / 0x100);
    AndLowBits(n, 0xFF, 8);
  }

  lemma MaskSecondOctet(n: nat)
    ensures BitAnd(n, 0x0000FF00) == n / 0x100 % 0x100 * 0x100
  {
    hide ShiftLeft, ShiftRight, BitAnd;
    ShiftByOctet(0xFF);
    ShiftByOctet(n);
    AndShifted(n, 0xFF, 8);
    AndOctet(n / 0x100);
    ShiftByOctet(n / 0x100 % 0x100);
  }

  lemma MaskThirdOctet(n: nat)
    ensures BitAnd(n, 0x00FF0000) == n / 0x1_0000 % 0x100 * 0x1_0000
  {
    hide ShiftLeft, ShiftRight, BitAnd;
    ShiftByTwoOctets(0xFF);
    ShiftByTwoOctets(n);
    AndShifted(n, 0xFF, 16);
    AndOctet(n / 0x1_0000);
    ShiftByTwoOctets(n / 0x1_0000 % 0x100);
  }

  lemma Truncate16(high: byte, low: byte)
    ensures ((high as int * 0x100 + low) * 0x100 + high) % 0x1_0000 == low as int * 0x100 + high
  {
  }

  lemma Swap16Octets(b0: byte, b1: byte)
    ensures Swap16(b0 as int * 0x100 + b1) == b1 as int * 0x100 + b0
  {
    hide BitOr, ShiftLeft, ShiftRight;
    var n := b0 as int * 0x100 + b1;
    ShiftByOctet(n);
    assert n / 0x100 == b0;
    OrOctet(n, b0);
    Truncate16(b0, b1);
  }

  lemma Swap16Value(n: uint16)
    ensures Swap16(n) == n % 0x100 * 0x100 + n / 0x100
  {
    hide Swap16;
    Swap16Octets(n / 0x100, n % 0x100);
  }

  lemma ShiftedLeft(b0: byte, b1: byte, b2: byte, b3: byte)
    ensures var n: int := Word32(b0, b1, b2, b3);
            && n * 0x100_0000 % 0x1_0000_0000 == b3 * 0x100_0000
            && n * 0x100 % 0x1_0000_0000 / 0x1_0000 == b1 * 0x100 + b2
  {
    var n: int := Word32(b0, b1, b2, b3);
    assert n * 0x100_0000 == ((b0 as int * 0x100 + b1) * 0x100 + b2) * 0x1_0000_0000 + b3 * 0x100_0000;
    LowWord((b0 as int * 0x100 + b1) * 0x100 + b2, b3 * 0x100_0000);
    var low := (b1 as int * 0x100 + b2) * 0x1_0000 + b3 * 0x100;
    assert n * 0x100 == b0 * 0x1_0000_0000 + low;
    LowWord(b0, low);
  }

  lemma LowWord(high: nat, low: nat)
    requires low < 0x1_0000_0000
    ensures (high * 0x1_0000_0000 + low) % 0x1_0000_0000 == low
  {
  }

  lemma ShiftedRight(b0: byte, b1: byte, b2: byte, b3: byte)
    ensures var n: int := Word32(b0, b1, b2, b3);
            n / 0x100 / 0x100 == b0 as int * 0x100 + b1 && n / 0x100_0000 == b0
  {
    var n: int := Word32(b0, b1, b2, b3);
    assert n / 0x100 == (b0 as int * 0x100 + b1) * 0x100 + b2;
  }

  lemma OrOctets(b0: byte, b1: byte, b2: byte, b3: byte)
    ensures BitOr(BitOr(BitOr(b0 * 0x100_0000, b1 * 0x1_0000), b2 * 0x100), b3) == Word32(b0, b1, b2, b3)
  {
    hide BitOr;
    OrThreeOctets(b0, b1 * 0x1_0000);
    OrTwoOctets(b0 * 0x100 + b1, b2 * 0x100);
    OrOctet((b0 * 0x100 + b1) * 0x100 + b2, b3);
  }

  lemma SecondOctet(a: byte, b: byte)
    ensures (a as int * 0x100 + b) % 0x100 == b
  {
  }

  lemma LeftParts(b0: byte, b1: byte, b2: byte, b3: byte)
    ensures var n := Word32(b0, b1, b2, b3);
            && ShiftLeft(n, 24) % 0x1_0000_0000 == b3 * 0x100_0000
            && BitAnd(ShiftLeft(n, 8) % 0x1_0000_0000, 0x00FF0000) == b2 * 0x1_0000
  {
    hide BitAnd, ShiftLeft, ShiftRight, Word32;
    var n := Word32(b0, b1, b2, b3);
    ShiftByOctet(n);
    ShiftByThreeOctets(n);
    ShiftedLeft(b0, b1, b2, b3);
    MaskThirdOctet(n as int * 0x100 % 0x1_0000_0000);
    SecondOctet(b1, b2);
  }

  lemma RightParts(b0: byte, b1: byte, b2: byte, b3: byte)
    ensures var n := Word32(b0, b1, b2, b3);
            BitAnd(ShiftRight(n, 8), 0x0000FF00) == b1 * 0x100 && ShiftRight(n, 24) == b0
  {
    hide BitAnd, ShiftLeft, ShiftRight, Word32;
    var n := Word32(b0, b1, b2, b3);
    ShiftByOctet(n);
    ShiftByThreeOctets(n);
    ShiftedRight(b0, b1, b2, b3);
    MaskSecondOctet(n / 0x100);
    SecondOctet(b0, b1);
  }

  /** The macro reverses the four octets. */
  lemma Swap32Octets(b0: byte, b1: byte, b2: byte, b3: byte)
    ensures Swap32(Word32(b0, b1, b2, b3)) == Word32(b3, b2, b1, b0)
  {
    hide BitOr, BitAnd, ShiftLeft, ShiftRight, Word32;
    LeftParts(b0, b1, b2, b3);
    RightParts(b0, b1, b2, b3);
    OrOctets(b3, b2, b1, b0);
  }

  lemma Swap32Value(n: uint32)
    ensures var s := BigEndian32(n); Swap32(n) == Word32(s[3], s[2], s[1], s[0])
  {
    var s := BigEndian32(n);
    BigEndian32RoundTrip(n);
    Swap32Octets(s[0], s[1], s[2], s[3]);
  }

  /** Swapping twice gives the value back. */
  lemma SwapInvolution16(n: uint16)
    ensures Swap16(Swap16(n)) == n
  {
    hide Swap16;
    Swap16Octets(n / 0x100, n % 0x100);
    Swap16Octets(n % 0x100, n / 0x100);
  }

  lemma SwapInvolution32(n: uint32)
    ensures Swap32(n) < 0x1_0000_0000 && Swap32(Swap32(n)) == n
  {
    var s := BigEndian32(n);
    BigEndian32RoundTrip(n);
    Swap32Octets(s[0], s[1], s[2], s[3]);
    Swap32Octets(s[3], s[2], s[1], s[0]);
  }

  /** `Canonical`: swaps exactly on hosts whose memory order is little-endian (BYTESWAP). */
  function Canonical16(host: ByteOrder, n: uint16): uint16 {
    if host.LittleEndian? then Swap16(n) else n
  }

  function Canonical32(host: ByteOrder, n: uint32): uint32 {
    SwapInvolution32(n);
    if host.LittleEndian? then Swap32(n) else n
  }

  /** How a host lays a word out in memory. */
  function HostImage16(host: ByteOrder, n: uint16): (s: seq<byte>)
    ensures |s| == 2
  {
    if host.LittleEndian? then [n % 0x100, n / 0x100] else BigEndian16(n)
  }

  function HostImage32(host: ByteOrder, n: uint32): (s: seq<byte>)
    ensures |s| == 4
  {
    if host.LittleEndian?
    then var s := BigEndian32(n); [s[3], s[2], s[1], s[0]]
    else BigEndian32(n)
  }

  function FromHostImage16(host: ByteOrder, s: seq<byte>): uint16
    requires |s| == 2
  {
    if host.LittleEndian? then s[1] as int * 0x100 + s[0] else FromBigEndian16(s)
  }

  function FromHostImage32(host: ByteOrder, s: seq<byte>): uint32
    requires |s| == 4
  {
    if host.LittleEndian?
    then Word32(s[3], s[2], s[1], s[0])
    else FromBigEndian32(s)
  }

  /** Writing the memory image of a canonical word puts big-endian bytes in the file, on every host. */
  lemma CanonicalImage16(host: ByteOrder, n: uint16)
    ensures HostImage16(host, Canonical16(host, n)) == BigEndian16(n)
  {
    hide Swap16;
    Swap16Value(n);
  }

  lemma CanonicalImage32(host: ByteOrder, n: uint32)
    ensures HostImage32(host, Canonical32(host, n)) == BigEndian32(n)
  {
    Swap32Value(n);
    var s := BigEndian32(n);
    WordOctets(s[3], s[2], s[1], s[0]);
  }

  /** Reading file bytes into a word and making it canonical reads a big-endian number, on every host. */
  lemma CanonicalRead16(host: ByteOrder, s: seq<byte>)
    requires |s| == 2
    ensures Canonical16(host, FromHostImage16(host, s)) == FromBigEndian16(s)
  {
    hide Swap16;
    Swap16Value(FromHostImage16(host, s));
  }

  lemma CanonicalRead32(host: ByteOrder, s: seq<byte>)
    requires |s| == 4
    ensures Canonical32(host, FromHostImage32(host, s)) == FromBigEndian32(s)
  {
    Swap32Octets(s[3], s[2], s[1], s[0]);
  }
}
