/** `Chunk`, a growable block of memory, and `EmStreamChunk`, a marker-based stream over it. */
module Streams {
  import opened Bytes
  import opened Byteswapping

  /** Extra bytes allocated by every reallocation. */
  const SLUSH_FUND: int := 100

  const MAX_LENGTH: int := MAX_INT32 - SLUSH_FUND

  /** `contents` after `data` has been written at offset `at`: bytes are replaced and, at the end, appended. */
  function Splice(contents: seq<byte>, at: nat, data: seq<byte>): (s: seq<byte>)
    requires at <= |contents|
    ensures |s| == if at + |data| > |contents| then at + |data| else |contents|
  {
    contents[..at] + data + if at + |data| < |contents| then contents[at + |data|..] else []
  }

  /** The bytes a read of `count` bytes at `at` can deliver. */
  function Available(contents: seq<byte>, at: nat, count: nat): (s: seq<byte>)
    requires at <= |contents|
    ensures |s| <= count
  {
    if at + count <= |contents| then contents[at..at + count] else contents[at..]
  }

  lemma SpliceAtEnd(contents: seq<byte>, data: seq<byte>)
    ensures Splice(contents, |contents|, data) == contents + data
  {
  }

  lemma SpliceWhole(contents: seq<byte>, data: seq<byte>)
    requires |contents| == |data|
    ensures Splice(contents, 0, data) == data
  {
  }

  /** Two consecutive writes are one write of the concatenation. */
  lemma SpliceTwice(contents: seq<byte>, at: nat, first: seq<byte>, second: seq<byte>)
    requires at <= |contents|
    ensures Splice(Splice(contents, at, first), at + |first|, second) == Splice(contents, at, first + second)
  {
    var once := Splice(contents, at, first);
    var both := Splice(contents, at, first + second);
    var twice := Splice(once, at + |first|, second);
    assert |twice| == |both|;
    forall i | 0 <= i < |both|
      ensures twice[i] == both[i]
    {
    }
  }

  /** Reading back at the offset of a write delivers the data, and nothing outside the data has moved. */
  lemma SpliceReadBack(contents: seq<byte>, at: nat, data: seq<byte>)
    requires at <= |contents|
    ensures var s := Splice(contents, at, data);
            && Available(s, at, |data|) == data
            && s[..at] == contents[..at]
            && (at + |data| <= |contents| ==> s[at + |data|..] == contents[at + |data|..])
  {
  }

  class Chunk {
    var ptr: array<byte>
    var usedSize: int
    var allocatedSize: int

    ghost predicate Valid()
      reads this
    {
      0 <= usedSize <= allocatedSize == ptr.Length
    }

    ghost function Contents(): (s: seq<byte>)
      reads this, ptr
      requires Valid()
      ensures |s| == usedSize
    {
      ptr[..usedSize]
    }

    constructor ()
      ensures Valid() && fresh(ptr) && Contents() == []
    {
      ptr := new byte[0];
      usedSize, allocatedSize := 0, 0;
    }

    /** Growing within the allocation exposes stale bytes; growing beyond it reallocates. */
    method SetLength(inLength: int)
      requires Valid() && 0 <= inLength <= MAX_LENGTH
      modifies this
      ensures Valid() && usedSize == inLength
      ensures ptr == old(ptr) || fresh(ptr)
      ensures inLength <= old(allocatedSize) && inLength != 0 ==> ptr == old(ptr)
      ensures inLength <= old(usedSize) ==> Contents() == old(Contents())[..inLength]
      ensures inLength >= old(usedSize) ==> Contents()[..old(usedSize)] == old(Contents())
      ensures inLength == 0 ==> allocatedSize == 0
    {
      if inLength > allocatedSize {
        var newAllocatedLength := inLength + SLUSH_FUND;
        var grown := new byte[newAllocatedLength];
        forall i | 0 <= i < allocatedSize {
          grown[i] := ptr[i];
        }
        ptr := grown;
        allocatedSize := newAllocatedLength;
      } else if inLength == 0 {
        ptr := new byte[0];
        allocatedSize := 0;
      }
      usedSize := inLength;
    }

    /** Copies `data` into the block at `at` (memmove). */
    method Fill(at: nat, data: seq<byte>)
      requires Valid() && at + |data| <= usedSize
      modifies ptr
      ensures Valid()
      ensures Contents() == Splice(old(Contents()), at, data)
    {
      forall i | 0 <= i < |data| {
        ptr[at + i] := data[i];
      }
      assert Contents() == Splice(old(Contents()), at, data);
    }

    /** `operator=`. */
    method Assign(other: Chunk)
      requires Valid() && other.Valid() && other.usedSize <= MAX_LENGTH
      requires this != other ==> ptr != other.ptr
      modifies this, ptr
      ensures Valid() && other.Valid() && other.usedSize == old(other.usedSize)
      ensures ptr == old(ptr) || fresh(ptr)
      ensures Contents() == old(other.Contents()) == other.Contents()
    {
      if this != other {
        var bytes := other.ptr[..other.usedSize];
        SetLength(|bytes|);
        Fill(0, bytes);
      }
    }
  }

  datatype Whence = FromStart | FromEnd | FromMarker

  class StreamChunk {
    const chunk: Chunk
    const host: ByteOrder
    var marker: int
    var length: int

    ghost predicate Valid()
      reads this, chunk
    {
      chunk.Valid() && length == chunk.usedSize && 0 <= marker <= length
    }

    ghost function Contents(): (s: seq<byte>)
      reads this, chunk, chunk.ptr
      requires Valid()
      ensures |s| == length
    {
      chunk.Contents()
    }

    /** What is left to read. */
    ghost function Rest(): (s: seq<byte>)
      reads this, chunk, chunk.ptr
      requires Valid()
    {
      Contents()[marker..]
    }

    constructor (chunk: Chunk, host: ByteOrder)
      requires chunk.Valid()
      ensures Valid() && this.chunk == chunk && this.host == host
      ensures marker == 0
    {
      this.chunk := chunk;
      this.host := host;
      marker := 0;
      length := chunk.usedSize;
    }

    /** Positions outside the stream are pulled to the nearest end. */
    method SetMarker(inOffset: int, inFromWhere: Whence)
      requires Valid()
      modifies this`marker
      ensures Valid()
      ensures var wanted := match inFromWhere
                            case FromStart => inOffset
                            case FromEnd => length - inOffset
                            case FromMarker => old(marker) + inOffset;
              marker == if wanted < 0 then 0 else if wanted > length then length else wanted
    {
      var newMarker := marker;
      match inFromWhere {
        case FromStart => newMarker := inOffset;
        case FromEnd => newMarker := length - inOffset;
        case FromMarker => newMarker := newMarker + inOffset;
      }
      if newMarker < 0 {
        newMarker := 0;
      } else if newMarker > length {
        newMarker := length;
      }
      marker := newMarker;
    }

    method SetLength(inLength: int)
      requires Valid() && 0 <= inLength <= MAX_LENGTH
      modifies this, chunk
      ensures Valid() && length == inLength
      ensures chunk.ptr == old(chunk.ptr) || fresh(chunk.ptr)
      ensures inLength <= old(length) ==> Contents() == old(Contents())[..inLength]
      ensures inLength >= old(length) ==> Contents()[..old(length)] == old(Contents())
      ensures marker == if old(marker) > inLength then inLength else old(marker)
    {
      chunk.SetLength(inLength);
      var oldLength := length;
      length := inLength;
      if oldLength > inLength {
        var m := marker;
        if m > inLength {
          marker := inLength;
        }
      }
    }

    /** Overwrites at the marker and grows the chunk when the data reaches past its end. */
    method PutBytes(data: seq<byte>)
      requires Valid() && marker + |data| <= MAX_LENGTH
      modifies this, chunk, chunk.ptr
      ensures Valid()
      ensures chunk.ptr == old(chunk.ptr) || fresh(chunk.ptr)
      ensures Contents() == Splice(old(Contents()), old(marker), data)
      ensures marker == old(marker) + |data|
    {
      var endOfWrite := marker + |data|;
      if endOfWrite > length {
        SetLength(endOfWrite);
      }
      if |data| > 0 {
        chunk.Fill(marker, data);
        SetMarker(|data|, FromMarker);
      }
      assert Contents() == Splice(old(Contents()), old(marker), data);
    }

    /** Delivers the bytes that are there and reports whether the request was cut short. */
    method GetBytes(count: nat) returns (short: bool, data: seq<byte>)
      requires Valid()
      modifies this`marker
      ensures Valid()
      ensures short <==> old(marker) + count > length
      ensures data == Available(Contents(), old(marker), count)
      ensures marker == old(marker) + |data|
    {
      var ioByteCount := count;
      short := false;
      if marker + ioByteCount > length {
        ioByteCount := length - marker;
        short := true;
      }
      data := chunk.ptr[marker..marker + ioByteCount];
      assert data == Available(Contents(), marker, count);
      SetMarker(ioByteCount, FromMarker);
    }

    /** The typed insertion operators: canonicalise the word, then put its memory image. */
    method PutUInt8(n: byte)
      requires Valid() && marker + 1 <= MAX_LENGTH
      modifies this, chunk, chunk.ptr
      ensures Valid() && marker == old(marker) + 1
      ensures chunk.ptr == old(chunk.ptr) || fresh(chunk.ptr)
      ensures Contents() == Splice(old(Contents()), old(marker), [n])
    {
      PutBytes([n]);
    }

    method PutUInt16(n: uint16)
      requires Valid() && marker + 2 <= MAX_LENGTH
      modifies this, chunk, chunk.ptr
      ensures Valid() && marker == old(marker) + 2
      ensures chunk.ptr == old(chunk.ptr) || fresh(chunk.ptr)
      ensures Contents() == Splice(old(Contents()), old(marker), BigEndian16(n))
    {
      CanonicalImage16(host, n);
      PutBytes(HostImage16(host, Canonical16(host, n)));
    }

    method PutUInt32(n: uint32)
      requires Valid() && marker + 4 <= MAX_LENGTH
      modifies this, chunk, chunk.ptr
      ensures Valid() && marker == old(marker) + 4
      ensures chunk.ptr == old(chunk.ptr) || fresh(chunk.ptr)
      ensures Contents() == Splice(old(Contents()), old(marker), BigEndian32(n))
    {
      CanonicalImage32(host, n);
      PutBytes(HostImage32(host, Canonical32(host, n)));
    }

    /** The typed extraction operators; a short read leaves the number undetermined. */
    method GetUInt8() returns (n: byte)
      requires Valid()
      modifies this`marker
      ensures Valid()
      ensures old(marker) + 1 <= length ==> n == old(Rest())[0] && marker == old(marker) + 1
    {
      var short, data := GetBytes(1);
      n := if |data| == 1 then data[0] else 0;
    }

    method GetUInt16() returns (n: uint16)
      requires Valid()
      modifies this`marker
      ensures Valid()
      ensures old(marker) + 2 <= length ==> n == FromBigEndian16(old(Rest())[..2]) && marker == old(marker) + 2
    {
      var short, data := GetBytes(2);
      n := 0;
      if |data| == 2 {
        CanonicalRead16(host, data);
        n := Canonical16(host, FromHostImage16(host, data));
        assert data == old(Rest())[..2];
      }
    }

    method GetUInt32() returns (n: uint32)
      requires Valid()
      modifies this`marker
      ensures Valid()
      ensures old(marker) + 4 <= length ==> n == FromBigEndian32(old(Rest())[..4]) && marker == old(marker) + 4
    {
      var short, data := GetBytes(4);
      n := 0;
      if |data| == 4 {
        CanonicalRead32(host, data);
        n := Canonical32(host, FromHostImage32(host, data));
        assert data == old(Rest())[..4];
      }
    }
  }
}
