/** Recorded events and the variable-length records they are stored as. */
module Events {
  import opened Bytes

  datatype Event =
    | Key(ascii: uint16, keycode: uint16, modifiers: uint16)
    | Pen(x: int16, y: int16)
    | AppSwitch(cardNo: uint16, dbID: uint32, oldCardNo: uint16, oldDbID: uint32)
    | Null
    | Error

  const PEN_UP := Pen(-1, -1)

  predicate IsPenUp(e: Event) {
    e.Pen? && e.x == -1 && e.y == -1
  }

  predicate IsPenDown(e: Event) {
    e.Pen? && !(e.x == -1 && e.y == -1)
  }

  /** What `RecordPenEvent` asserts of its argument; every other event is recordable. */
  predicate Recordable(e: Event) {
    e.Pen? ==> IsPenUp(e) || (e.x >= 0 && e.y >= 0)
  }

  // The tags written to files.
  const KEY: byte := 0
  const KEY_COMPRESSED: byte := 1
  const PEN: byte := 2
  const PEN_UP_COMPRESSED: byte := 3
  const PEN_X_COMPRESSED: byte := 4
  const PEN_Y_COMPRESSED: byte := 5
  const PEN_XY_COMPRESSED: byte := 6
  const APP_SWITCH: byte := 7
  const NULL: byte := 9
  const ERROR: byte := 11

  function Signed16(n: int16): seq<byte> {
    BigEndian16(ToUnsigned16(n))
  }

  function FromSigned16(s: seq<byte>): int16
    requires |s| == 2
  {
    ToSigned16(FromBigEndian16(s))
  }

  /** `operator<<`. The branch for a large x and a small y writes the tag of the opposite case. */
  function Encode(e: Event): (s: seq<byte>)
    ensures 1 <= |s| <= 13
  {
    match e
    case Key(ascii, keycode, modifiers) =>
      if ascii < 256 && keycode == 0 && modifiers == 0
      then [KEY_COMPRESSED] + [ToByte(ascii)]
      else [KEY] + BigEndian16(ascii) + BigEndian16(keycode) + BigEndian16(modifiers)
    case Pen(x, y) =>
      if x < 0 && y < 0 then [PEN_UP_COMPRESSED]
      else if x < 256 && y < 256 then [PEN_XY_COMPRESSED] + [ToByte(x)] + [ToByte(y)]
      else if x < 256 then [PEN_X_COMPRESSED] + [ToByte(x)] + Signed16(y)
      else if y < 256 then [PEN_X_COMPRESSED] + Signed16(x) + [ToByte(y)]
      else [PEN] + Signed16(x) + Signed16(y)
    case AppSwitch(cardNo, dbID, oldCardNo, oldDbID) =>
      [APP_SWITCH] + BigEndian16(cardNo) + BigEndian32(dbID) + BigEndian16(oldCardNo) + BigEndian32(oldDbID)
    case Null => [NULL]
    case Error => [ERROR]
  }

  /** The bytes `operator>>` consumes for a tag; 0 for a tag it asserts against. */
  function RecordSize(tag: byte): nat {
    if tag == KEY then 7
    else if tag == KEY_COMPRESSED then 2
    else if tag == PEN then 5
    else if tag == PEN_UP_COMPRESSED then 1
    else if tag == PEN_X_COMPRESSED then 4
    else if tag == PEN_Y_COMPRESSED then 4
    else if tag == PEN_XY_COMPRESSED then 3
    else if tag == APP_SWITCH then 13
    else if tag == NULL then 1
    else if tag == ERROR then 1
    else 0
  }

  /** A whole record stands at the front of `b`. */
  predicate HasRecord(b: seq<byte>) {
    b != [] && RecordSize(b[0]) != 0 && RecordSize(b[0]) <= |b|
  }

  /** `operator>>`. */
  function Decode(b: seq<byte>): Event
    requires HasRecord(b)
  {
    var tag := b[0];
    if tag == KEY then Key(FromBigEndian16(b[1..3]), FromBigEndian16(b[3..5]), FromBigEndian16(b[5..7]))
    else if tag == KEY_COMPRESSED then Key(b[1], 0, 0)
    else if tag == PEN then Pen(FromSigned16(b[1..3]), FromSigned16(b[3..5]))
    else if tag == PEN_UP_COMPRESSED then PEN_UP
    else if tag == PEN_X_COMPRESSED then Pen(b[1], FromSigned16(b[2..4]))
    else if tag == PEN_Y_COMPRESSED then Pen(FromSigned16(b[1..3]), b[3])
    else if tag == PEN_XY_COMPRESSED then Pen(b[1], b[2])
    else if tag == APP_SWITCH then
      AppSwitch(FromBigEndian16(b[1..3]), FromBigEndian32(b[3..7]),
                FromBigEndian16(b[7..9]), FromBigEndian32(b[9..13]))
    else if tag == NULL then Null
    else Error
  }

  /** The events whose coordinates survive the codec. */
  predicate Exact(e: Event) {
    e.Pen? ==> IsPenUp(e) || (e.x >= 0 && e.y >= 0 && (e.x < 256 || e.y >= 256))
  }

  /** What comes back for an event that has been stored. */
  function Stored(e: Event): Event {
    if !e.Pen? then e
    else if e.x < 0 && e.y < 0 then PEN_UP
    else if e.x < 256 && e.y < 256 then Pen(e.x % 256, e.y % 256)
    else if e.x < 256 then Pen(e.x % 256, e.y)
    else if e.y < 256 then Pen(e.x / 256, ToSigned16(e.x % 256 * 256 + e.y % 256))
    else e
  }

  /** Decoding an encoded event consumes exactly its record, whatever follows, and yields its stored value. */
  lemma DecodeEncode(e: Event, rest: seq<byte>)
    ensures HasRecord(Encode(e) + rest) && RecordSize(Encode(e)[0]) == |Encode(e)|
    ensures Decode(Encode(e) + rest) == Stored(e)
  {
    match e
    case Key(ascii, keycode, modifiers) => DecodeKey(ascii, keycode, modifiers, rest);
    case Pen(x, y) => DecodePen(x, y, rest);
    case AppSwitch(cardNo, dbID, oldCardNo, oldDbID) => DecodeAppSwitch(cardNo, dbID, oldCardNo, oldDbID, rest);
    case Null =>
    case Error =>
  }

  lemma DecodeKey(ascii: uint16, keycode: uint16, modifiers: uint16, rest: seq<byte>)
    ensures var e := Key(ascii, keycode, modifiers);
            && HasRecord(Encode(e) + rest) && RecordSize(Encode(e)[0]) == |Encode(e)|
            && Decode(Encode(e) + rest) == Stored(e)
  {
    hide BigEndian16, FromBigEndian16;
    var b := Encode(Key(ascii, keycode, modifiers)) + rest;
    if !(ascii < 256 && keycode == 0 && modifiers == 0) {
      assert b[1..3] == BigEndian16(ascii);
      assert b[3..5] == BigEndian16(keycode);
      assert b[5..7] == BigEndian16(modifiers);
      BigEndian16RoundTrip(ascii);
      BigEndian16RoundTrip(keycode);
      BigEndian16RoundTrip(modifiers);
    }
  }

  lemma Signed16RoundTrip(n: int16)
    ensures FromSigned16(Signed16(n)) == n && |Signed16(n)| == 2
  {
    BigEndian16RoundTrip(ToUnsigned16(n));
  }

  lemma DecodePen(x: int16, y: int16, rest: seq<byte>)
    ensures var e := Pen(x, y);
            && HasRecord(Encode(e) + rest) && RecordSize(Encode(e)[0]) == |Encode(e)|
            && Decode(Encode(e) + rest) == Stored(e)
  {
    hide Signed16, FromSigned16;
    var b := Encode(Pen(x, y)) + rest;
    Signed16RoundTrip(x);
    Signed16RoundTrip(y);
    if x < 0 && y < 0 {
    } else if x < 256 && y < 256 {
    } else if x < 256 {
      assert b[2..4] == Signed16(y);
    } else if y < 256 {
      WideTapDecodes(x, y, rest);
    } else {
      assert b[1..3] == Signed16(x);
      assert b[3..5] == Signed16(y);
    }
  }

  /** The record with the tag of the opposite case: the high octet of x is taken for x, the rest for y. */
  lemma WideTapDecodes(x: int16, y: int16, rest: seq<byte>)
    requires x >= 256 && y < 256
    ensures var e := Pen(x, y);
            && HasRecord(Encode(e) + rest) && RecordSize(Encode(e)[0]) == |Encode(e)|
            && Decode(Encode(e) + rest) == Stored(e)
  {
    var b := Encode(Pen(x, y)) + rest;
    assert Signed16(x) == [x / 0x100, x % 0x100];
    assert b[1] == x / 0x100 && b[2] == x % 0x100 && b[3] == y % 0x100;
    assert b[2..4] == [b[2], b[3]];
  }

  lemma DecodeAppSwitch(cardNo: uint16, dbID: uint32, oldCardNo: uint16, oldDbID: uint32, rest: seq<byte>)
    ensures var e := AppSwitch(cardNo, dbID, oldCardNo, oldDbID);
            && HasRecord(Encode(e) + rest) && RecordSize(Encode(e)[0]) == |Encode(e)|
            && Decode(Encode(e) + rest) == Stored(e)
  {
    hide BigEndian16, FromBigEndian16, BigEndian32, FromBigEndian32;
    var b := Encode(AppSwitch(cardNo, dbID, oldCardNo, oldDbID)) + rest;
    assert b[1..3] == BigEndian16(cardNo);
    assert b[3..7] == BigEndian32(dbID);
    assert b[7..9] == BigEndian16(oldCardNo);
    assert b[9..13] == BigEndian32(oldDbID);
    BigEndian16RoundTrip(cardNo);
    BigEndian16RoundTrip(oldCardNo);
    BigEndian32RoundTrip(dbID);
    BigEndian32RoundTrip(oldDbID);
  }

  /** The number made of two octets, as the file has them. */
  function Number(high: byte, low: byte): uint16 {
    high as int * 256 + low
  }

  /** The layout of the records: the tag, and the fields in their order, each with its most significant octet
      first. */
  lemma RecordLayout(b: seq<byte>)
    requires HasRecord(b)
    ensures var e := Decode(b);
            && (b[0] == 0 ==> RecordSize(0) == 7
                              && e == Key(Number(b[1], b[2]), Number(b[3], b[4]), Number(b[5], b[6])))
            && (b[0] == 1 ==> RecordSize(1) == 2 && e == Key(b[1], 0, 0))
            && (b[0] == 2 ==> RecordSize(2) == 5
                              && e == Pen(ToSigned16(Number(b[1], b[2])), ToSigned16(Number(b[3], b[4]))))
            && (b[0] == 3 ==> RecordSize(3) == 1 && e == Pen(-1, -1))
            && (b[0] == 4 ==> RecordSize(4) == 4 && e == Pen(b[1], ToSigned16(Number(b[2], b[3]))))
            && (b[0] == 5 ==> RecordSize(5) == 4 && e == Pen(ToSigned16(Number(b[1], b[2])), b[3]))
            && (b[0] == 6 ==> RecordSize(6) == 3 && e == Pen(b[1], b[2]))
            && (b[0] == 7 ==>
                  && RecordSize(7) == 13
                  && e == AppSwitch(Number(b[1], b[2]), Word32(b[3], b[4], b[5], b[6]),
                                    Number(b[7], b[8]), Word32(b[9], b[10], b[11], b[12])))
            && (b[0] == 9 ==> RecordSize(9) == 1 && e == Null)
            && (b[0] == 11 ==> RecordSize(11) == 1 && e == Error)
            && b[0] in {0, 1, 2, 3, 4, 5, 6, 7, 9, 11}
  {
  }

  /** Which tag is written: the short forms wherever they fit, and for a wide point on a high line the one of the
      opposite case. */
  lemma TagWritten(e: Event)
    ensures Encode(e)[0]
            == match e
               case Key(ascii, keycode, modifiers) =>
                 if ascii <= 255 && keycode == 0 && modifiers == 0 then 1 else 0
               case Pen(x, y) =>
                 if x < 0 && y < 0 then 3 else if x <= 255 && y <= 255 then 6
                 else if x <= 255 || y <= 255 then 4 else 2
               case AppSwitch(_, _, _, _) => 7
               case Null => 9
               case Error => 11
  {
  }

  /** The codec round trip holds exactly on the events with exact coordinates. */
  lemma RoundTripIffExact(e: Event)
    ensures Decode(Encode(e)) == e <==> Exact(e)
    ensures HasRecord(Encode(e))
  {
    assert Encode(e) + [] == Encode(e);
    DecodeEncode(e, []);
  }

  /** A point the recorder accepts, and comes back as another one. */
  lemma WideTapReturnsWrong()
    ensures var e := Pen(384, 0); Recordable(e) && Decode(Encode(e)) == Pen(1, -32768)
  {
    RoundTripIffExact(Pen(384, 0));
    DecodeEncode(Pen(384, 0), []);
    assert Encode(Pen(384, 0)) + [] == Encode(Pen(384, 0));
  }

  /** Stored as a pen-up: the guard of the first pen branch of `operator<<`. */
  predicate Lifts(e: Event) {
    e.Pen? && e.x < 0 && e.y < 0
  }

  /** The points whose stored value is itself not exact. */
  predicate Twisted(e: Event) {
    e.Pen? && e.x >= 256 && e.y < 256 && e.x % 256 >= 128
  }

  /** What every event of a log satisfies that this code has written. */
  predicate Settled(e: Event) {
    e.Pen? ==> IsPenUp(e) || 0 <= e.x < 256 || (e.x >= 256 && e.y >= 256)
  }

  /** Storing an event keeps its kind and, for every recordable or settled event, whether it lifts the
      pen. What has been stored once is settled, and what has been stored twice is exact. */
  lemma StoredKeepsKind(e: Event)
    ensures Stored(e).Pen? == e.Pen?
    ensures !e.Pen? ==> Stored(e) == e
    ensures IsPenUp(Stored(e)) <==> Lifts(e)
    ensures Recordable(e) || Settled(e) ==> (IsPenUp(Stored(e)) <==> IsPenUp(e))
    ensures Exact(e) <==> Stored(e) == e
    ensures Settled(Stored(e)) && Exact(Stored(Stored(e)))
    ensures Exact(Stored(e)) <==> !Twisted(e)
    ensures Settled(e) ==> !Twisted(e)
  {
  }

  /** The bytes of a log. */
  function EncodeAll(es: seq<Event>): seq<byte> {
    if es == [] then [] else Encode(es[0]) + EncodeAll(es[1..])
  }

  function StoredAll(es: seq<Event>): (r: seq<Event>)
    ensures |r| == |es|
    ensures forall i :: 0 <= i < |es| ==> r[i] == Stored(es[i])
  {
    seq(|es|, i requires 0 <= i < |es| => Stored(es[i]))
  }

  /** A byte log that can be walked record by record up to its very end. */
  predicate WellFormed(b: seq<byte>) {
    b == [] || (HasRecord(b) && WellFormed(b[RecordSize(b[0])..]))
  }

  /** The events a walk of the log reads. */
  function Parse(b: seq<byte>): seq<Event>
    requires WellFormed(b)
  {
    if b == [] then [] else [Decode(b)] + Parse(b[RecordSize(b[0])..])
  }

  /** The byte offset of the k-th record: the summed sizes of the records before it. */
  function Offset(b: seq<byte>, k: nat): nat
    requires WellFormed(b) && k <= |Parse(b)|
    decreases k
  {
    if k == 0 then 0 else RecordSize(b[0]) + Offset(b[RecordSize(b[0])..], k - 1)
  }

  lemma DecodePrefix(b: seq<byte>, rest: seq<byte>)
    requires HasRecord(b)
    ensures HasRecord(b + rest) && Decode(b + rest) == Decode(b)
  {
    var all := b + rest;
    var n := RecordSize(b[0]);
    assert all[..n] == b[..n];
    assert n >= 3 ==> all[1..3] == b[1..3];
    assert n == 4 ==> all[2..4] == b[2..4];
    assert n >= 5 ==> all[3..5] == b[3..5];
    assert n >= 7 ==> all[5..7] == b[5..7];
    assert n == 13 ==> all[3..7] == b[3..7] && all[7..9] == b[7..9] && all[9..13] == b[9..13];
  }

  /** The first record of a walk and the rest of it. */
  lemma WalkCons(b: seq<byte>)
    requires WellFormed(b) && b != []
    ensures HasRecord(b) && 0 < RecordSize(b[0]) <= |b| && WellFormed(b[RecordSize(b[0])..])
    ensures Parse(b) == [Decode(b)] + Parse(b[RecordSize(b[0])..])
    ensures forall k :: 0 < k <= |Parse(b)| ==>
                          Offset(b, k) == RecordSize(b[0]) + Offset(b[RecordSize(b[0])..], k - 1)
  {
    hide Decode;
  }

  lemma OffsetStart(b: seq<byte>)
    requires WellFormed(b)
    ensures Offset(b, 0) == 0 && (b == [] ==> Parse(b) == [])
  {
  }

  /** Appending records appends events and moves no earlier record. */
  lemma {:induction false} ParseAppend(b: seq<byte>, c: seq<byte>)
    requires WellFormed(b) && WellFormed(c)
    ensures WellFormed(b + c) && Parse(b + c) == Parse(b) + Parse(c)
    ensures forall k :: 0 <= k <= |Parse(b)| ==> Offset(b + c, k) == Offset(b, k)
    decreases |b|
  {
    hide Decode, Parse, WellFormed, Offset, RecordSize, HasRecord;
    OffsetStart(b);
    if b == [] {
      assert b + c == c;
      OffsetStart(c);
    } else {
      WalkCons(b);
      var n := RecordSize(b[0]);
      DecodePrefix(b, c);
      assert (b + c)[n..] == b[n..] + c && (b + c)[0] == b[0];
      ParseAppend(b[n..], c);
      WalkStep(b + c);
      WalkCons(b + c);
      OffsetStart(b + c);
      forall k | 0 <= k <= |Parse(b)|
        ensures Offset(b + c, k) == Offset(b, k)
      {
        if k > 0 {
          assert Offset(b[n..] + c, k - 1) == Offset(b[n..], k - 1);
        }
      }
    }
  }

  lemma WalkStep(b: seq<byte>)
    requires HasRecord(b) && WellFormed(b[RecordSize(b[0])..])
    ensures WellFormed(b) && b != []
  {
  }

  /** Decoding a concatenation of encoded events delivers their stored values, record by record. */
  lemma {:induction false} ParseEncodeAll(es: seq<Event>)
    ensures WellFormed(EncodeAll(es)) && Parse(EncodeAll(es)) == StoredAll(es)
  {
    if es != [] {
      ParseEncodeAll(es[1..]);
      ParseEncode(es[0]);
      ParseAppend(Encode(es[0]), EncodeAll(es[1..]));
      assert StoredAll(es) == [Stored(es[0])] + StoredAll(es[1..]);
    }
  }

  lemma ParseEmpty()
    ensures WellFormed([]) && Parse([]) == []
  {
  }

  lemma ParseEncode(e: Event)
    ensures WellFormed(Encode(e)) && Parse(Encode(e)) == [Stored(e)]
  {
    var b := Encode(e);
    DecodeEncode(e, []);
    assert b + [] == b;
    assert b[RecordSize(b[0])..] == [];
  }

  lemma {:induction false} EncodeAllAppend(es: seq<Event>, e: Event)
    ensures EncodeAll(es + [e]) == EncodeAll(es) + Encode(e)
  {
    hide Encode;
    if es == [] {
      assert EncodeAll([e]) == Encode(e);
      assert es + [e] == [e];
    } else {
      EncodeAllAppend(es[1..], e);
      assert (es + [e])[1..] == es[1..] + [e];
    }
  }

  /** In a log of encoded events the k-th offset is the summed encoded length of the first k events. */
  lemma {:induction false} OffsetIsEncodedLength(es: seq<Event>, k: nat)
    requires k <= |es|
    ensures WellFormed(EncodeAll(es)) && |Parse(EncodeAll(es))| == |es|
    ensures Offset(EncodeAll(es), k) == |EncodeAll(es[..k])|
    decreases k
  {
    hide Decode, Encode, Stored;
    ParseEncodeAll(es);
    if k > 0 {
      DecodeEncode(es[0], EncodeAll(es[1..]));
      assert EncodeAll(es)[|Encode(es[0])|..] == EncodeAll(es[1..]);
      OffsetIsEncodedLength(es[1..], k - 1);
      assert es[..k][1..] == es[1..][..k - 1];
    }
  }

  lemma {:induction false} ParseFromOffset(b: seq<byte>, k: nat)
    requires WellFormed(b) && k <= |Parse(b)|
    ensures Offset(b, k) <= |b| && WellFormed(b[Offset(b, k)..])
    ensures Parse(b[Offset(b, k)..]) == Parse(b)[k..]
    decreases k
  {
    hide Decode, Parse, WellFormed, Offset, RecordSize, HasRecord;
    OffsetStart(b);
    if k == 0 {
      assert b[0..] == b;
    } else {
      WalkCons(b);
      var n := RecordSize(b[0]);
      ParseFromOffset(b[n..], k - 1);
      var o := Offset(b[n..], k - 1);
      assert b[n..][o..] == b[n + o..];
      assert Parse(b)[k..] == Parse(b[n..])[k - 1..];
    }
  }

  lemma {:induction false} OffsetStep(b: seq<byte>, k: nat)
    requires WellFormed(b) && k < |Parse(b)|
    ensures Offset(b, k) < |b|
    ensures Offset(b, k) < Offset(b, k + 1) == Offset(b, k) + RecordSize(b[Offset(b, k)])
    decreases k
  {
    hide Decode;
    var n := RecordSize(b[0]);
    if k == 0 {
      assert Offset(b, 1) == n + Offset(b[n..], 0);
    } else {
      OffsetStep(b[n..], k - 1);
      var o := Offset(b[n..], k - 1);
      assert b[n..][o] == b[n + o];
    }
  }

  /** The cursor of a walk: at the k-th offset stands the k-th record, and behind the last one is the end. */
  lemma ParseAtOffset(b: seq<byte>, k: nat)
    requires WellFormed(b) && k <= |Parse(b)|
    ensures Offset(b, k) <= |b|
    ensures Offset(b, 0) == 0 && (Offset(b, k) == |b| <==> k == |Parse(b)|)
    ensures k < |Parse(b)| ==>
              && HasRecord(b[Offset(b, k)..])
              && Decode(b[Offset(b, k)..]) == Parse(b)[k]
              && Offset(b, k) < Offset(b, k + 1) == Offset(b, k) + RecordSize(b[Offset(b, k)])
  {
    hide Decode;
    ParseFromOffset(b, k);
    if k < |Parse(b)| {
      OffsetStep(b, k);
      assert Parse(b)[k..][0] == Parse(b)[k];
    }
  }
}
