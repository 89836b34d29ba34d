/** The stream operators of `EmRecordedEvent`, field by field over a `StreamChunk`. */
module EventStreams {
  import opened Bytes
  import opened Streams
  import opened Events

  /** `operator<<`. */
  method WriteEvent(s: StreamChunk, e: Event)
    requires s.Valid() && s.marker + 13 <= MAX_LENGTH
    modifies s, s.chunk, s.chunk.ptr
    ensures s.Valid()
    ensures s.chunk.ptr == old(s.chunk.ptr) || fresh(s.chunk.ptr)
    ensures s.Contents() == Splice(old(s.Contents()), old(s.marker), Encode(e))
    ensures s.marker == old(s.marker) + |Encode(e)|
  {
    match e {
      case Key(ascii, keycode, modifiers) =>
        WriteKey(s, ascii, keycode, modifiers);
      case Pen(x, y) =>
        WritePen(s, x, y);
      case AppSwitch(cardNo, dbID, oldCardNo, oldDbID) =>
        WriteAppSwitch(s, cardNo, dbID, oldCardNo, oldDbID);
      case Null =>
        s.PutUInt8(NULL);
      case Error =>
        s.PutUInt8(ERROR);
    }
  }

  /** One more field has been put behind those already written since `before`. */
  lemma Put(s: StreamChunk, before: seq<byte>, at: nat, done: seq<byte>, field: seq<byte>) returns (all: seq<byte>)
    requires s.Valid() && at <= |before|
    requires s.Contents() == Splice(Splice(before, at, done), at + |done|, field)
    requires s.marker == at + |done| + |field|
    ensures all == done + field
    ensures s.Contents() == Splice(before, at, all) && s.marker == at + |all|
  {
    all := done + field;
    SpliceTwice(before, at, done, field);
  }

  method WriteKey(s: StreamChunk, ascii: uint16, keycode: uint16, modifiers: uint16)
    requires s.Valid() && s.marker + 13 <= MAX_LENGTH
    modifies s, s.chunk, s.chunk.ptr
    ensures s.Valid()
    ensures s.chunk.ptr == old(s.chunk.ptr) || fresh(s.chunk.ptr)
    ensures s.Contents() == Splice(old(s.Contents()), old(s.marker), Encode(Key(ascii, keycode, modifiers)))
    ensures s.marker == old(s.marker) + |Encode(Key(ascii, keycode, modifiers))|
  {
    hide Splice, BigEndian16, BigEndian32, ToByte, ToUnsigned16;
    ghost var before, at, done := s.Contents(), s.marker, [];
    if ascii < 256 && keycode == 0 && modifiers == 0 {
      s.PutUInt8(KEY_COMPRESSED);
      done := [KEY_COMPRESSED];
      s.PutUInt8(ToByte(ascii));
      done := Put(s, before, at, done, [ToByte(ascii)]);
      assert done == Encode(Key(ascii, keycode, modifiers));
    } else {
      WriteLongKey(s, ascii, keycode, modifiers);
    }
  }

  method WriteLongKey(s: StreamChunk, ascii: uint16, keycode: uint16, modifiers: uint16)
    requires s.Valid() && s.marker + 13 <= MAX_LENGTH
    requires !(ascii < 256 && keycode == 0 && modifiers == 0)
    modifies s, s.chunk, s.chunk.ptr
    ensures s.Valid()
    ensures s.chunk.ptr == old(s.chunk.ptr) || fresh(s.chunk.ptr)
    ensures s.Contents() == Splice(old(s.Contents()), old(s.marker), Encode(Key(ascii, keycode, modifiers)))
    ensures s.marker == old(s.marker) + |Encode(Key(ascii, keycode, modifiers))|
  {
    hide Splice, BigEndian16, BigEndian32, ToByte, ToUnsigned16;
    ghost var before, at, done := s.Contents(), s.marker, [];
    s.PutUInt8(KEY);
    done := [KEY];
    s.PutUInt16(ascii);
    done := Put(s, before, at, done, BigEndian16(ascii));
    s.PutUInt16(keycode);
    done := Put(s, before, at, done, BigEndian16(keycode));
    s.PutUInt16(modifiers);
    done := Put(s, before, at, done, BigEndian16(modifiers));
    assert done == Encode(Key(ascii, keycode, modifiers));
  }

  method WritePen(s: StreamChunk, x: int16, y: int16)
    requires s.Valid() && s.marker + 13 <= MAX_LENGTH
    modifies s, s.chunk, s.chunk.ptr
    ensures s.Valid()
    ensures s.chunk.ptr == old(s.chunk.ptr) || fresh(s.chunk.ptr)
    ensures s.Contents() == Splice(old(s.Contents()), old(s.marker), Encode(Pen(x, y)))
    ensures s.marker == old(s.marker) + |Encode(Pen(x, y))|
  {
    hide Splice, BigEndian16, BigEndian32, ToByte, ToUnsigned16;
    if x < 0 && y < 0 {
      s.PutUInt8(PEN_UP_COMPRESSED);
    } else if x < 256 {
      WriteSmallX(s, x, y);
    } else {
      WriteLargeX(s, x, y);
    }
  }

  method WriteSmallX(s: StreamChunk, x: int16, y: int16)
    requires s.Valid() && s.marker + 13 <= MAX_LENGTH
    requires x < 256 && !(x < 0 && y < 0)
    modifies s, s.chunk, s.chunk.ptr
    ensures s.Valid()
    ensures s.chunk.ptr == old(s.chunk.ptr) || fresh(s.chunk.ptr)
    ensures s.Contents() == Splice(old(s.Contents()), old(s.marker), Encode(Pen(x, y)))
    ensures s.marker == old(s.marker) + |Encode(Pen(x, y))|
  {
    hide Splice, BigEndian16, BigEndian32, ToByte, ToUnsigned16;
    ghost var before, at, done := s.Contents(), s.marker, [];
    if y < 256 {
      s.PutUInt8(PEN_XY_COMPRESSED);
      done := [PEN_XY_COMPRESSED];
      s.PutUInt8(ToByte(x));
      done := Put(s, before, at, done, [ToByte(x)]);
      s.PutUInt8(ToByte(y));
      done := Put(s, before, at, done, [ToByte(y)]);
      assert done == Encode(Pen(x, y));
    } else {
      s.PutUInt8(PEN_X_COMPRESSED);
      done := [PEN_X_COMPRESSED];
      s.PutUInt8(ToByte(x));
      done := Put(s, before, at, done, [ToByte(x)]);
      s.PutUInt16(ToUnsigned16(y));
      done := Put(s, before, at, done, Signed16(y));
      assert done == Encode(Pen(x, y));
    }
  }

  method WriteLargeX(s: StreamChunk, x: int16, y: int16)
    requires s.Valid() && s.marker + 13 <= MAX_LENGTH
    requires x >= 256
    modifies s, s.chunk, s.chunk.ptr
    ensures s.Valid()
    ensures s.chunk.ptr == old(s.chunk.ptr) || fresh(s.chunk.ptr)
    ensures s.Contents() == Splice(old(s.Contents()), old(s.marker), Encode(Pen(x, y)))
    ensures s.marker == old(s.marker) + |Encode(Pen(x, y))|
  {
    hide Splice, BigEndian16, BigEndian32, ToByte, ToUnsigned16;
    ghost var before, at, done := s.Contents(), s.marker, [];
    if y < 256 {
      s.PutUInt8(PEN_X_COMPRESSED);
      done := [PEN_X_COMPRESSED];
      s.PutUInt16(ToUnsigned16(x));
      done := Put(s, before, at, done, Signed16(x));
      s.PutUInt8(ToByte(y));
      done := Put(s, before, at, done, [ToByte(y)]);
      assert done == Encode(Pen(x, y));
    } else {
      s.PutUInt8(PEN);
      done := [PEN];
      s.PutUInt16(ToUnsigned16(x));
      done := Put(s, before, at, done, Signed16(x));
      s.PutUInt16(ToUnsigned16(y));
      done := Put(s, before, at, done, Signed16(y));
      assert done == Encode(Pen(x, y));
    }
  }

  method WriteAppSwitch(s: StreamChunk, cardNo: uint16, dbID: uint32, oldCardNo: uint16, oldDbID: uint32)
    requires s.Valid() && s.marker + 13 <= MAX_LENGTH
    modifies s, s.chunk, s.chunk.ptr
    ensures s.Valid()
    ensures s.chunk.ptr == old(s.chunk.ptr) || fresh(s.chunk.ptr)
    ensures s.Contents()
            == Splice(old(s.Contents()), old(s.marker), Encode(AppSwitch(cardNo, dbID, oldCardNo, oldDbID)))
    ensures s.marker == old(s.marker) + |Encode(AppSwitch(cardNo, dbID, oldCardNo, oldDbID))|
  {
    hide Splice, BigEndian16, BigEndian32, ToByte, ToUnsigned16;
    ghost var before, at, done := s.Contents(), s.marker, [];
    s.PutUInt8(APP_SWITCH);
    done := [APP_SWITCH];
    s.PutUInt16(cardNo);
    done := Put(s, before, at, done, BigEndian16(cardNo));
    s.PutUInt32(dbID);
    done := Put(s, before, at, done, BigEndian32(dbID));
    s.PutUInt16(oldCardNo);
    done := Put(s, before, at, done, BigEndian16(oldCardNo));
    s.PutUInt32(oldDbID);
    done := Put(s, before, at, done, BigEndian32(oldDbID));
    assert done == Encode(AppSwitch(cardNo, dbID, oldCardNo, oldDbID));
  }

  /** Writing at the end of a stream appends the event's record. */
  method AppendEvent(s: StreamChunk, e: Event)
    requires s.Valid() && s.marker == s.length && s.length + 13 <= MAX_LENGTH
    modifies s, s.chunk, s.chunk.ptr
    ensures s.Valid() && s.marker == s.length
    ensures s.chunk.ptr == old(s.chunk.ptr) || fresh(s.chunk.ptr)
    ensures s.Contents() == old(s.Contents()) + Encode(e)
  {
    hide Encode, Splice;
    SpliceAtEnd(s.Contents(), Encode(e));
    WriteEvent(s, e);
  }

  /** `operator>>`, on a stream whose marker stands at a whole record. */
  method ReadEvent(s: StreamChunk) returns (e: Event)
    requires s.Valid() && HasRecord(s.Rest())
    modifies s`marker
    ensures s.Valid()
    ensures e == Decode(old(s.Rest()))
    ensures s.marker == old(s.marker) + RecordSize(old(s.Rest())[0])
  {
    hide FromBigEndian16, FromBigEndian32, ToSigned16, Available;
    ghost var b := s.Rest();
    var tag := s.GetUInt8();
    assert s.Rest() == b[1..];
    if tag == KEY {
      var ascii := s.GetUInt16();
      assert s.Rest() == b[3..] && b[1..][..2] == b[1..3];
      var keycode := s.GetUInt16();
      assert s.Rest() == b[5..] && b[3..][..2] == b[3..5];
      var modifiers := s.GetUInt16();
      assert b[5..][..2] == b[5..7];
      e := Key(ascii, keycode, modifiers);
    } else if tag == KEY_COMPRESSED {
      var temp := s.GetUInt8();
      e := Key(temp, 0, 0);
    } else if tag == PEN {
      var x := s.GetUInt16();
      assert s.Rest() == b[3..] && b[1..][..2] == b[1..3];
      var y := s.GetUInt16();
      assert b[3..][..2] == b[3..5];
      e := Pen(ToSigned16(x), ToSigned16(y));
    } else if tag == PEN_UP_COMPRESSED {
      e := Pen(-1, -1);
    } else if tag == PEN_X_COMPRESSED {
      var temp := s.GetUInt8();
      assert s.Rest() == b[2..];
      var y := s.GetUInt16();
      assert b[2..][..2] == b[2..4];
      e := Pen(temp, ToSigned16(y));
    } else if tag == PEN_Y_COMPRESSED {
      var x := s.GetUInt16();
      assert s.Rest() == b[3..] && b[1..][..2] == b[1..3];
      var temp := s.GetUInt8();
      e := Pen(ToSigned16(x), temp);
    } else if tag == PEN_XY_COMPRESSED {
      var tempX := s.GetUInt8();
      assert s.Rest() == b[2..];
      var tempY := s.GetUInt8();
      e := Pen(tempX, tempY);
    } else if tag == APP_SWITCH {
      var cardNo := s.GetUInt16();
      assert s.Rest() == b[3..] && b[1..][..2] == b[1..3];
      var dbID := s.GetUInt32();
      assert s.Rest() == b[7..] && b[3..][..4] == b[3..7];
      var oldCardNo := s.GetUInt16();
      assert s.Rest() == b[9..] && b[7..][..2] == b[7..9];
      var oldDbID := s.GetUInt32();
      assert b[9..][..4] == b[9..13];
      e := AppSwitch(cardNo, dbID, oldCardNo, oldDbID);
    } else if tag == NULL {
      e := Null;
    } else {
      e := Error;
    }
  }
}
