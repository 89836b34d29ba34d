/** `ChunkFile`: an archive of tagged chunks that is searched by scanning. */
module ChunkFiles {
  import opened Bytes
  import opened Byteswapping
  import opened Streams

  const CHUNK_NOT_FOUND: int := -1

  /** Tag word and size word. */
  const HEADER: int := 8

  datatype Entry = Entry(tag: uint32, data: seq<byte>)

  function EntryImage(e: Entry): (s: seq<byte>)
    requires |e.data| <= MAX_INT32
    ensures |s| == HEADER + |e.data|
  {
    BigEndian32(e.tag) + BigEndian32(|e.data|) + e.data
  }

  function HeaderTag(b: seq<byte>): uint32
    requires |b| >= HEADER
  {
    FromBigEndian32(b[..4])
  }

  /** The size word, a signed 32-bit number. */
  function HeaderSize(b: seq<byte>): int32
    requires |b| >= HEADER
  {
    ToSigned32(FromBigEndian32(b[4..8]))
  }

  predicate HasEntry(b: seq<byte>) {
    |b| >= HEADER && HeaderSize(b) >= 0 && HEADER + HeaderSize(b) <= |b|
  }

  function EntrySize(b: seq<byte>): nat
    requires HasEntry(b)
  {
    HEADER + HeaderSize(b)
  }

  /** Whole chunks up to the very end. */
  predicate IsArchive(b: seq<byte>)
    decreases |b|
  {
    b == [] || (HasEntry(b) && IsArchive(b[EntrySize(b)..]))
  }

  function Entries(b: seq<byte>): seq<Entry>
    requires IsArchive(b)
    decreases |b|
  {
    if b == [] then [] else [Entry(HeaderTag(b), b[HEADER..EntrySize(b)])] + Entries(b[EntrySize(b)..])
  }

  /** The index of the first entry with the tag; the number of entries when there is none. */
  function Lookup(es: seq<Entry>, tag: uint32): (k: nat)
    ensures k <= |es|
    ensures k < |es| ==> es[k].tag == tag
    ensures forall j :: 0 <= j < k ==> es[j].tag != tag
  {
    if es == [] || es[0].tag == tag then 0 else 1 + Lookup(es[1..], tag)
  }

  /** The layout of a chunk: four octets of tag, four of size, most significant first, and the data. */
  lemma EntryLayout(e: Entry)
    requires |e.data| <= MAX_INT32
    ensures var b, n: int := EntryImage(e), |e.data|;
            && |b| == 8 + n && b[8..] == e.data
            && Word32(b[0], b[1], b[2], b[3]) == e.tag && Word32(b[4], b[5], b[6], b[7]) == n
  {
    hide Word32;
    var b := EntryImage(e);
    assert b[..4] == BigEndian32(e.tag) && b[4..8] == BigEndian32(|e.data|);
    WordFromOctets(e.tag, b[..4]);
    WordFromOctets(|e.data|, b[4..8]);
  }

  lemma WordFromOctets(n: uint32, s: seq<byte>)
    requires s == BigEndian32(n)
    ensures Word32(s[0], s[1], s[2], s[3]) == n
  {
    BigEndian32RoundTrip(n);
  }

  lemma EntryHeader(e: Entry, rest: seq<byte>)
    requires |e.data| <= MAX_INT32
    ensures var b := EntryImage(e) + rest;
            && HasEntry(b) && EntrySize(b) == |EntryImage(e)|
            && HeaderTag(b) == e.tag && b[HEADER..EntrySize(b)] == e.data && b[EntrySize(b)..] == rest
  {
    hide BigEndian32, FromBigEndian32;
    var b := EntryImage(e) + rest;
    assert b[..4] == BigEndian32(e.tag);
    assert b[4..8] == BigEndian32(|e.data|);
    BigEndian32RoundTrip(e.tag);
    BigEndian32RoundTrip(|e.data|);
    assert b[8..8 + |e.data|] == e.data;
  }

  lemma EntryPrefix(b: seq<byte>, rest: seq<byte>)
    requires HasEntry(b)
    ensures var all := b + rest;
            && HasEntry(all) && EntrySize(all) == EntrySize(b) && HeaderTag(all) == HeaderTag(b)
            && all[HEADER..EntrySize(b)] == b[HEADER..EntrySize(b)]
            && all[EntrySize(b)..] == b[EntrySize(b)..] + rest
  {
    hide FromBigEndian32;
    var all := b + rest;
    assert all[..4] == b[..4] && all[4..8] == b[4..8];
  }

  /** Writing one more entry at the end of an archive appends it to the entries and disturbs none. */
  lemma {:induction false} EntriesAppend(b: seq<byte>, e: Entry)
    requires IsArchive(b) && |e.data| <= MAX_INT32
    ensures IsArchive(b + EntryImage(e)) && Entries(b + EntryImage(e)) == Entries(b) + [e]
    decreases |b|
  {
    hide FromBigEndian32, HeaderSize, HeaderTag, EntryImage;
    if b == [] {
      EntryHeader(e, []);
      assert EntryImage(e) + [] == EntryImage(e) == [] + EntryImage(e);
      assert Entries(EntryImage(e)) == [e] + Entries([]);
    } else {
      var rest := b[EntrySize(b)..];
      EntryPrefix(b, EntryImage(e));
      EntriesAppend(rest, e);
    }
  }

  /** The bytes that a list of entries takes. */
  function ArchiveSize(es: seq<Entry>): nat {
    if es == [] then 0 else HEADER + |es[0].data| + ArchiveSize(es[1..])
  }

  lemma {:induction false} EntriesSize(b: seq<byte>)
    requires IsArchive(b)
    ensures ArchiveSize(Entries(b)) == |b|
    decreases |b|
  {
    hide HeaderSize, HeaderTag;
    if b != [] {
      EntriesSize(b[EntrySize(b)..]);
      assert Entries(b)[1..] == Entries(b[EntrySize(b)..]);
    }
  }

  lemma {:induction false} SizeAppend(es: seq<Entry>, e: Entry)
    ensures ArchiveSize(es + [e]) == ArchiveSize(es) + HEADER + |e.data|
  {
    if es == [] {
      assert [e][1..] == [] && es + [e] == [e];
    } else {
      SizeAppend(es[1..], e);
      assert (es + [e])[1..] == es[1..] + [e];
    }
  }

  /** A write adds its entry to a whole archive, and to the end of it, exactly when it is made at the end. */
  lemma AppendsIffAtEnd(b: seq<byte>, at: nat, e: Entry)
    requires IsArchive(b) && at <= |b| && |e.data| <= MAX_INT32
    ensures var written := Splice(b, at, EntryImage(e));
            IsArchive(written) && Entries(written) == Entries(b) + [e] <==> at == |b|
  {
    hide Entries, IsArchive;
    var written := Splice(b, at, EntryImage(e));
    SpliceAtEnd(b, EntryImage(e));
    EntriesAppend(b, e);
    EntriesSize(b);
    SizeAppend(Entries(b), e);
    if IsArchive(written) {
      EntriesSize(written);
    }
  }

  /** A chunk written over another one of its size replaces it. */
  lemma OverwriteReplaces()
    ensures var b, e := EntryImage(Entry(1, [5])), Entry(2, [7]);
            && IsArchive(b) && Entries(b) == [Entry(1, [5])]
            && IsArchive(Splice(b, 0, EntryImage(e))) && Entries(Splice(b, 0, EntryImage(e))) == [e]
  {
    hide EntryImage, Entries, IsArchive;
    EmptyArchive();
    EntriesAppend([], Entry(1, [5]));
    EntriesAppend([], Entry(2, [7]));
    var b, image := EntryImage(Entry(1, [5])), EntryImage(Entry(2, [7]));
    assert [] + b == b && [] + image == image;
    SpliceWhole(b, image);
  }

  lemma EmptyArchive()
    ensures IsArchive([]) && Entries([]) == []
  {
  }

  lemma FrontOfSlice(s: seq<byte>, at: nat, size: nat, n: nat)
    requires at + size <= |s|
    ensures n <= size ==> s[at..][..n] == s[at..at + size][..n]
    ensures at + n <= |s| ==> s[at..][..n] == s[at..at + n]
  {
  }

  /** Where the k-th entry starts. */
  function EntryOffset(b: seq<byte>, k: nat): nat
    requires IsArchive(b) && k <= |Entries(b)|
    decreases k
  {
    if k == 0 then 0 else EntrySize(b) + EntryOffset(b[EntrySize(b)..], k - 1)
  }

  lemma {:induction false} EntryAtOffset(b: seq<byte>, k: nat)
    requires IsArchive(b) && k <= |Entries(b)|
    ensures EntryOffset(b, k) <= |b| && (EntryOffset(b, k) == |b| <==> k == |Entries(b)|)
    ensures EntryOffset(b, 0) == 0
    ensures k < |Entries(b)| ==>
              var r := b[EntryOffset(b, k)..];
              && HasEntry(r) && Entries(b)[k] == Entry(HeaderTag(r), r[HEADER..EntrySize(r)])
              && EntryOffset(b, k + 1) == EntryOffset(b, k) + EntrySize(r)
    decreases k
  {
    hide FromBigEndian32, HeaderSize, HeaderTag;
    if k == 0 {
      assert b[0..] == b;
      if b != [] {
        assert EntryOffset(b, 1) == EntrySize(b) + EntryOffset(b[EntrySize(b)..], 0);
      }
    } else {
      var n := EntrySize(b);
      EntryAtOffset(b[n..], k - 1);
      var o := EntryOffset(b[n..], k - 1);
      assert b[n..][o..] == b[n + o..];
    }
  }

  class ChunkFile {
    const stream: StreamChunk

    ghost predicate Valid()
      reads this, stream, stream.chunk, stream.chunk.ptr
    {
      stream.Valid() && IsArchive(stream.Contents())
    }

    ghost function Contents(): seq<Entry>
      reads this, stream, stream.chunk, stream.chunk.ptr
      requires Valid()
    {
      Entries(stream.Contents())
    }

    constructor (s: StreamChunk)
      ensures stream == s
    {
      stream := s;
    }

    /** Puts tag, size and data at the marker, wherever it stands. At the end of the stream this adds an entry. */
    method WriteChunk(tag: uint32, data: seq<byte>)
      requires stream.Valid() && stream.marker + HEADER + |data| <= MAX_LENGTH
      modifies stream, stream.chunk, stream.chunk.ptr
      ensures stream.Valid()
      ensures stream.chunk.ptr == old(stream.chunk.ptr) || fresh(stream.chunk.ptr)
      ensures stream.Contents() == Splice(old(stream.Contents()), old(stream.marker), EntryImage(Entry(tag, data)))
      ensures stream.marker == old(stream.marker) + HEADER + |data|
      ensures old(Valid() && stream.marker == stream.length) ==>
                Valid() && stream.marker == stream.length && Contents() == old(Contents()) + [Entry(tag, data)]
    {
      hide Splice, BigEndian32, Entries, IsArchive;
      ghost var before, at := stream.Contents(), stream.marker;
      ghost var image := BigEndian32(tag) + BigEndian32(|data|);
      stream.PutUInt32(tag);
      stream.PutUInt32(|data|);
      SpliceTwice(before, at, BigEndian32(tag), BigEndian32(|data|));
      stream.PutBytes(data);
      SpliceTwice(before, at, image, data);
      if at == |before| && IsArchive(before) {
        SpliceAtEnd(before, image + data);
        EntriesAppend(before, Entry(tag, data));
      }
    }

    /** Scans for the first chunk with the tag. On success the marker stands at its data. */
    method FindChunk(targetTag: uint32) returns (len: int)
      requires Valid()
      modifies stream`marker
      ensures Valid() && Contents() == old(Contents())
      ensures var k := Lookup(Contents(), targetTag);
              if k == |Contents()| then len == CHUNK_NOT_FOUND
              else len == |Contents()[k].data| && stream.marker + len <= stream.length
                   && stream.marker == EntryOffset(stream.Contents(), k) + HEADER
                   && stream.Contents()[stream.marker..stream.marker + len] == Contents()[k].data
    {
      hide Entries, IsArchive, EntryOffset, FromBigEndian32;
      ghost var b, es, k := stream.Contents(), Contents(), 0;
      len := CHUNK_NOT_FOUND;
      var fileOffset := 0;
      var fileLength := stream.length;
      stream.SetMarker(fileOffset, FromStart);
      EntryAtOffset(b, 0);
      while fileOffset < fileLength
        invariant stream.Valid() && stream.Contents() == b && fileLength == |b|
        invariant 0 <= k <= |es| && fileOffset == EntryOffset(b, k) == stream.marker
        invariant forall j :: 0 <= j < k ==> es[j].tag != targetTag
        invariant len == CHUNK_NOT_FOUND
        decreases fileLength - fileOffset
      {
        EntryAtOffset(b, k);
        ghost var r := stream.Rest();
        var chunkTag := stream.GetUInt32();
        assert stream.Rest()[..4] == r[4..8];
        var word := stream.GetUInt32();
        var chunkLen := ToSigned32(word);
        if chunkTag == targetTag {
          assert Lookup(es, targetTag) == k;
          len := chunkLen;
          assert b[stream.marker..stream.marker + len] == r[HEADER..EntrySize(r)];
          return;
        }
        stream.SetMarker(chunkLen, FromMarker);
        fileOffset := fileOffset + HEADER + chunkLen;
        k := k + 1;
        EntryAtOffset(b, k);
      }
      EntryAtOffset(b, k);
    }

    /** The chunk with the given position in the file. */
    method ReadChunkAt(index: int) returns (found: bool, tag: uint32, data: seq<byte>)
      requires Valid()
      modifies stream`marker
      ensures Valid() && Contents() == old(Contents())
      ensures found <==> 0 <= index < |Contents()|
      ensures found ==> Entry(tag, data) == Contents()[index]
    {
      hide Entries, IsArchive, EntryOffset, FromBigEndian32;
      ghost var b, es, k := stream.Contents(), Contents(), 0;
      found, tag, data := false, 0, [];
      var countdown := index;
      var fileOffset := 0;
      var fileLength := stream.length;
      stream.SetMarker(fileOffset, FromStart);
      EntryAtOffset(b, 0);
      while fileOffset < fileLength
        invariant stream.Valid() && stream.Contents() == b && fileLength == |b|
        invariant 0 <= k <= |es| && fileOffset == EntryOffset(b, k) == stream.marker
        invariant countdown == index - k && (index >= 0 ==> countdown >= 0)
        invariant !found
        decreases fileLength - fileOffset
      {
        EntryAtOffset(b, k);
        ghost var r := stream.Rest();
        var chunkTag := stream.GetUInt32();
        assert stream.Rest()[..4] == r[4..8];
        var word := stream.GetUInt32();
        var chunkLen := ToSigned32(word);
        if countdown == 0 {
          tag := chunkTag;
          var short, bytes := stream.GetBytes(chunkLen);
          data := bytes;
          assert data == r[HEADER..EntrySize(r)];
          found := true;
          return;
        }
        stream.SetMarker(chunkLen, FromMarker);
        fileOffset := fileOffset + HEADER + chunkLen;
        countdown := countdown - 1;
        k := k + 1;
        EntryAtOffset(b, k);
      }
      EntryAtOffset(b, k);
    }

    /** First-match lookup of a chunk's data; also `ReadString`. */
    method ReadChunk(tag: uint32) returns (found: bool, data: seq<byte>)
      requires Valid()
      modifies stream`marker
      ensures Valid() && Contents() == old(Contents())
      ensures var k := Lookup(Contents(), tag);
              && (found <==> k < |Contents()|)
              && (found ==> data == Contents()[k].data)
    {
      hide Lookup;
      data := [];
      var size := FindChunk(tag);
      found := size != CHUNK_NOT_FOUND;
      if found {
        var short, bytes := stream.GetBytes(size);
        data := bytes;
      }
    }

    method WriteInt32(tag: uint32, val: uint32)
      requires stream.Valid() && stream.marker + HEADER + 4 <= MAX_LENGTH
      modifies stream, stream.chunk, stream.chunk.ptr
      ensures stream.Valid()
      ensures stream.chunk.ptr == old(stream.chunk.ptr) || fresh(stream.chunk.ptr)
      ensures stream.Contents()
              == Splice(old(stream.Contents()), old(stream.marker), EntryImage(Entry(tag, BigEndian32(val))))
      ensures stream.marker == old(stream.marker) + HEADER + 4
      ensures old(Valid() && stream.marker == stream.length) ==>
                Valid() && stream.marker == stream.length
                && Contents() == old(Contents()) + [Entry(tag, BigEndian32(val))]
    {
      CanonicalImage32(stream.host, val);
      WriteChunk(tag, HostImage32(stream.host, Canonical32(stream.host, val)));
    }

    method WriteInt16(tag: uint32, val: uint16)
      requires stream.Valid() && stream.marker + HEADER + 2 <= MAX_LENGTH
      modifies stream, stream.chunk, stream.chunk.ptr
      ensures stream.Valid()
      ensures stream.chunk.ptr == old(stream.chunk.ptr) || fresh(stream.chunk.ptr)
      ensures stream.Contents()
              == Splice(old(stream.Contents()), old(stream.marker), EntryImage(Entry(tag, BigEndian16(val))))
      ensures stream.marker == old(stream.marker) + HEADER + 2
      ensures old(Valid() && stream.marker == stream.length) ==>
                Valid() && stream.marker == stream.length
                && Contents() == old(Contents()) + [Entry(tag, BigEndian16(val))]
    {
      CanonicalImage16(stream.host, val);
      WriteChunk(tag, HostImage16(stream.host, Canonical16(stream.host, val)));
    }

    /** Reads a number from the front of the chunk's data, whatever the chunk's size says. */
    method ReadInt32(tag: uint32) returns (found: bool, val: uint32)
      requires Valid()
      modifies stream`marker
      ensures Valid() && Contents() == old(Contents())
      ensures var b, k := stream.Contents(), Lookup(Contents(), tag);
              && (found <==> k < |Contents()|)
              && (found ==>
                    var at := EntryOffset(b, k) + HEADER;
                    && (at + 4 <= |b| ==> val == FromBigEndian32(b[at..at + 4]))
                    && (|Contents()[k].data| >= 4 ==> val == FromBigEndian32(Contents()[k].data[..4])))
    {
      hide Lookup, FromBigEndian32, EntryOffset, Entries, IsArchive;
      val := 0;
      var size := FindChunk(tag);
      found := size != CHUNK_NOT_FOUND;
      if found {
        FrontOfSlice(stream.Contents(), stream.marker, size, 4);
        val := stream.GetUInt32();
      }
    }

    method ReadInt16(tag: uint32) returns (found: bool, val: uint16)
      requires Valid()
      modifies stream`marker
      ensures Valid() && Contents() == old(Contents())
      ensures var b, k := stream.Contents(), Lookup(Contents(), tag);
              && (found <==> k < |Contents()|)
              && (found ==>
                    var at := EntryOffset(b, k) + HEADER;
                    && (at + 2 <= |b| ==> val == FromBigEndian16(b[at..at + 2]))
                    && (|Contents()[k].data| >= 2 ==> val == FromBigEndian16(Contents()[k].data[..2])))
    {
      hide Lookup, FromBigEndian16, EntryOffset, Entries, IsArchive;
      val := 0;
      var size := FindChunk(tag);
      found := size != CHUNK_NOT_FOUND;
      if found {
        FrontOfSlice(stream.Contents(), stream.marker, size, 2);
        val := stream.GetUInt16();
      }
    }
  }

  // ---------------------------------------------------------------------------
  // Whole histories of writes

  datatype Write =
    | WriteBytes(tag: uint32, data: seq<byte>)
    | WriteWord(tag: uint32, word: uint32)
    | WriteShort(tag: uint32, short: uint16)

  function Payload(w: Write): seq<byte> {
    match w
    case WriteBytes(_, data) => data
    case WriteWord(_, word) => BigEndian32(word)
    case WriteShort(_, short) => BigEndian16(short)
  }

  /** The file a history of writes to an empty stream leaves behind. */
  function FileOf(ws: seq<Write>): seq<byte>
    requires forall w :: w in ws ==> |Payload(w)| <= MAX_INT32
  {
    if ws == [] then []
    else FileOf(ws[..|ws| - 1]) + EntryImage(Entry(ws[|ws| - 1].tag, Payload(ws[|ws| - 1])))
  }

  /** The file is read back as the association list of the writes, in order. */
  lemma {:induction false} FileHoldsWrites(ws: seq<Write>)
    requires forall w :: w in ws ==> |Payload(w)| <= MAX_INT32
    ensures IsArchive(FileOf(ws)) && |Entries(FileOf(ws))| == |ws|
    ensures forall i :: 0 <= i < |ws| ==> Entries(FileOf(ws))[i] == Entry(ws[i].tag, Payload(ws[i]))
  {
    hide EntryImage, Entries, IsArchive, Payload;
    if ws == [] {
      EmptyArchive();
    } else {
      var front, last := ws[..|ws| - 1], ws[|ws| - 1];
      assert last in ws;
      assert forall w :: w in front ==> w in ws;
      FileHoldsWrites(front);
      EntriesAppend(FileOf(front), Entry(last.tag, Payload(last)));
    }
  }

  /** A tag finds the first write made with it, and a number reads back as it was written. */
  lemma FirstWriteFound(ws: seq<Write>, k: nat)
    requires forall w :: w in ws ==> |Payload(w)| <= MAX_INT32
    requires k < |ws| && forall j :: 0 <= j < k ==> ws[j].tag != ws[k].tag
    ensures IsArchive(FileOf(ws))
    ensures var es := Entries(FileOf(ws));
            && Lookup(es, ws[k].tag) == k < |es| && es[k].data == Payload(ws[k])
            && (ws[k].WriteWord? ==> FromBigEndian32(es[k].data[..4]) == ws[k].word)
            && (ws[k].WriteShort? ==> FromBigEndian16(es[k].data[..2]) == ws[k].short)
  {
    FileHoldsWrites(ws);
    var es := Entries(FileOf(ws));
    var f := Lookup(es, ws[k].tag);
    assert es[k].tag == ws[k].tag;
    assert f <= k;
    assert f < |es| ==> es[f].tag == ws[f].tag;
    match ws[k] {
      case WriteBytes(_, _) =>
      case WriteWord(_, word) =>
        BigEndian32RoundTrip(word);
        assert es[k].data[..4] == BigEndian32(word);
      case WriteShort(_, short) =>
        BigEndian16RoundTrip(short);
        assert es[k].data[..2] == BigEndian16(short);
    }
  }

  /** A tag nobody wrote is not found. */
  lemma AbsentTagNotFound(ws: seq<Write>, tag: uint32)
    requires forall w :: w in ws ==> |Payload(w)| <= MAX_INT32
    ensures IsArchive(FileOf(ws))
    ensures Lookup(Entries(FileOf(ws)), tag) == |Entries(FileOf(ws))| <==> forall w :: w in ws ==> w.tag != tag
  {
    FileHoldsWrites(ws);
    var es := Entries(FileOf(ws));
    var k := Lookup(es, tag);
    if k < |es| {
      assert ws[k] in ws && ws[k].tag == tag;
    } else {
      forall w | w in ws ensures w.tag != tag {
        var i :| 0 <= i < |ws| && ws[i] == w;
        assert es[i].tag == w.tag;
      }
    }
  }
}
