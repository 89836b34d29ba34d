/** The layout of a database file and the checks made on it before it is installed. */
module PalmDatabase {
  import opened Bytes

  const HEADER_SIZE: nat := 78
  const RESOURCE_ENTRY_SIZE: nat := 10
  const RECORD_ENTRY_SIZE: nat := 8
  const DB_NAME_LENGTH: nat := 32

  function Word(file: seq<byte>, at: nat): uint32
    requires at + 4 <= |file|
  {
    FromBigEndian32(file[at..at + 4])
  }

  function HalfWord(file: seq<byte>, at: nat): uint16
    requires at + 2 <= |file|
  {
    FromBigEndian16(file[at..at + 2])
  }

  predicate HasHeader(file: seq<byte>) {
    |file| >= HEADER_SIZE
  }

  /** The attribute bit dmHdrAttrResDB. */
  predicate IsResources(file: seq<byte>)
    requires HasHeader(file)
  {
    HalfWord(file, 32) % 2 == 1
  }

  function CreationDate(file: seq<byte>): uint32
    requires HasHeader(file)
  {
    Word(file, 36)
  }

  function ModificationDate(file: seq<byte>): uint32
    requires HasHeader(file)
  {
    Word(file, 40)
  }

  function NextRecordListID(file: seq<byte>): uint32
    requires HasHeader(file)
  {
    Word(file, 72)
  }

  function NumRecords(file: seq<byte>): uint16
    requires HasHeader(file)
  {
    HalfWord(file, 76)
  }

  function EntrySize(file: seq<byte>): (n: nat)
    requires HasHeader(file)
  {
    if IsResources(file) then RESOURCE_ENTRY_SIZE else RECORD_ENTRY_SIZE
  }

  /** Where the entry table ends and data may begin. */
  function TableEnd(file: seq<byte>): nat
    requires HasHeader(file)
  {
    HEADER_SIZE + EntrySize(file) * NumRecords(file)
  }

  predicate HasTable(file: seq<byte>) {
    HasHeader(file) && TableEnd(file) <= |file| <= MAX_INT32
  }

  function EntryAt(file: seq<byte>, i: nat): (at: nat)
    requires HasTable(file) && i < NumRecords(file)
    ensures at + EntrySize(file) <= TableEnd(file)
  {
    HEADER_SIZE + EntrySize(file) * i
  }

  /** The offset of the i-th entry's data. */
  function LocalChunkID(file: seq<byte>, i: nat): uint32
    requires HasTable(file) && i < NumRecords(file)
  {
    Word(file, EntryAt(file, i) + if IsResources(file) then 6 else 0)
  }

  datatype TypeAndID = TypeAndID(resType: uint32, resID: uint16)

  function ResourceName(file: seq<byte>, i: nat): TypeAndID
    requires HasTable(file) && i < NumRecords(file) && IsResources(file)
  {
    TypeAndID(Word(file, EntryAt(file, i)), HalfWord(file, EntryAt(file, i) + 4))
  }

  datatype ErrCode =
    | ErrNone
    | NameNotNULLTerminated
    | NameNotPrintable
    | FileTooSmall
    | NextRecordListIDNonZero
    | DuplicateResource
    | ResourceTooSmall
    | RecordTooSmall
    | ResourceOutOfRange
    | RecordOutOfRange
    | UnknownType
    | OutOfMemory
    | ResourceMemError
    | RecordMemError
    | PalmError(code: uint16)

  datatype DateWarning = NoWarning | InconsistentDates | NullCreationDate

  // ---------------------------------------------------------------------------
  // The layout, as bytes

  datatype Header = Header(
    name: seq<byte>,
    attributes: uint16,
    version: uint16,
    creationDate: uint32,
    modificationDate: uint32,
    lastBackupDate: uint32,
    modificationNumber: uint32,
    appInfoID: uint32,
    sortInfoID: uint32,
    dbType: uint32,
    creator: uint32,
    uniqueIDSeed: uint32,
    nextRecordListID: uint32,
    numRecords: uint16)

  /** The fields in the order of `DatabaseHdrType` and `RecordListType`. */
  function HeaderImage(h: Header): seq<byte>
    requires |h.name| == 32
  {
    h.name
    + (BigEndian16(h.attributes) + BigEndian16(h.version))
    + (BigEndian32(h.creationDate) + BigEndian32(h.modificationDate))
    + (BigEndian32(h.lastBackupDate) + BigEndian32(h.modificationNumber))
    + (BigEndian32(h.appInfoID) + BigEndian32(h.sortInfoID))
    + (BigEndian32(h.dbType) + BigEndian32(h.creator))
    + (BigEndian32(h.uniqueIDSeed) + BigEndian32(h.nextRecordListID))
    + BigEndian16(h.numRecords)
  }

  function ModificationNumber(file: seq<byte>): uint32
    requires HasHeader(file)
  {
    Word(file, 48)
  }

  function AppInfoID(file: seq<byte>): uint32
    requires HasHeader(file)
  {
    Word(file, 52)
  }

  lemma WordOf(n: uint32, file: seq<byte>, at: nat)
    requires at + 4 <= |file| && file[at..at + 4] == BigEndian32(n)
    ensures Word(file, at) == n
  {
    BigEndian32RoundTrip(n);
  }

  lemma HalfWordOf(n: uint16, file: seq<byte>, at: nat)
    requires at + 2 <= |file| && file[at..at + 2] == BigEndian16(n)
    ensures HalfWord(file, at) == n
  {
    BigEndian16RoundTrip(n);
  }

  /** Everything that is read from a file with the header is the field of that name. */
  lemma HeaderFields(h: Header, rest: seq<byte>)
    requires |h.name| == 32
    ensures var file := HeaderImage(h) + rest;
            && HasHeader(file) && |HeaderImage(h)| == 78
            && file[..32] == h.name
            && (IsResources(file) <==> h.attributes % 2 == 1)
            && CreationDate(file) == h.creationDate && ModificationDate(file) == h.modificationDate
            && ModificationNumber(file) == h.modificationNumber && AppInfoID(file) == h.appInfoID
            && NextRecordListID(file) == h.nextRecordListID && NumRecords(file) == h.numRecords
            && TableEnd(file) == 78 + (if h.attributes % 2 == 1 then 10 else 8) * h.numRecords
  {
    hide Word, HalfWord, BigEndian16, BigEndian32;
    var file := HeaderImage(h) + rest;
    assert file[32..34] == BigEndian16(h.attributes);
    HalfWordOf(h.attributes, file, 32);
    assert file[36..40] == BigEndian32(h.creationDate);
    WordOf(h.creationDate, file, 36);
    assert file[40..44] == BigEndian32(h.modificationDate);
    WordOf(h.modificationDate, file, 40);
    assert file[48..52] == BigEndian32(h.modificationNumber);
    WordOf(h.modificationNumber, file, 48);
    assert file[52..56] == BigEndian32(h.appInfoID);
    WordOf(h.appInfoID, file, 52);
    assert file[72..76] == BigEndian32(h.nextRecordListID);
    WordOf(h.nextRecordListID, file, 72);
    assert file[76..78] == BigEndian16(h.numRecords);
    HalfWordOf(h.numRecords, file, 76);
  }

  function RecordImage(offset: uint32, attributes: byte, id2: byte, id1: byte, id0: byte): (s: seq<byte>)
    ensures |s| == 8
  {
    BigEndian32(offset) + [attributes, id2, id1, id0]
  }

  function ResourceImage(name: TypeAndID, offset: uint32): (s: seq<byte>)
    ensures |s| == 10
  {
    BigEndian32(name.resType) + BigEndian16(name.resID) + BigEndian32(offset)
  }

  lemma WordImage(file: seq<byte>, at: nat)
    requires at + 4 <= |file|
    ensures BigEndian32(Word(file, at)) == file[at..at + 4]
  {
    WordOctets(file[at], file[at + 1], file[at + 2], file[at + 3]);
    assert file[at..at + 4] == [file[at], file[at + 1], file[at + 2], file[at + 3]];
  }

  lemma HalfWordImage(file: seq<byte>, at: nat)
    requires at + 2 <= |file|
    ensures BigEndian16(HalfWord(file, at)) == file[at..at + 2]
  {
  }

  /** The i-th entry of the table is the image of what is read from it. */
  lemma EntryImages(file: seq<byte>, i: nat)
    requires HasTable(file) && i < NumRecords(file)
    ensures var at := if IsResources(file) then 78 + 10 * i else 78 + 8 * i;
            && EntryAt(file, i) == at
            && at + (if IsResources(file) then 10 else 8) <= |file|
            && if IsResources(file)
               then file[at..at + 10] == ResourceImage(ResourceName(file, i), LocalChunkID(file, i))
               else file[at..at + 8]
                    == RecordImage(LocalChunkID(file, i), file[at + 4], file[at + 5], file[at + 6], file[at + 7])
  {
    hide Word, HalfWord, BigEndian16, BigEndian32;
    var at := EntryAt(file, i);
    if IsResources(file) {
      WordImage(file, at);
      HalfWordImage(file, at + 4);
      WordImage(file, at + 6);
      assert file[at..at + 10] == file[at..at + 4] + file[at + 4..at + 6] + file[at + 6..at + 10];
    } else {
      WordImage(file, at);
      assert file[at..at + 8] == file[at..at + 4] + [file[at + 4], file[at + 5], file[at + 6], file[at + 7]];
    }
  }

  // ---------------------------------------------------------------------------
  // What a good file is, in exact arithmetic

  /** The boundaries of the data: the offsets in table order, then the end of the file. */
  function Boundary(file: seq<byte>, i: nat): nat
    requires HasTable(file) && i <= NumRecords(file)
  {
    if i < NumRecords(file) then LocalChunkID(file, i) else |file|
  }

  /** Records may be empty, resources may not. */
  predicate InOrder(file: seq<byte>, i: nat)
    requires HasTable(file) && i < NumRecords(file)
  {
    if IsResources(file) then Boundary(file, i) < Boundary(file, i + 1)
    else Boundary(file, i) <= Boundary(file, i + 1)
  }

  predicate DistinctBefore(file: seq<byte>, n: nat)
    requires HasTable(file) && n <= NumRecords(file)
  {
    IsResources(file) ==>
      forall i, j :: 0 <= i < j < n ==> ResourceName(file, i) != ResourceName(file, j)
  }

  /** The entries tile the file from the first entry's offset, behind the table, to its end. */
  predicate GoodEntries(file: seq<byte>)
    requires HasTable(file)
  {
    && NextRecordListID(file) == 0
    && DistinctBefore(file, NumRecords(file))
    && (NumRecords(file) > 0 ==> Boundary(file, 0) >= TableEnd(file))
    && forall i :: 0 <= i < NumRecords(file) ==> InOrder(file, i)
  }

  /** A name: printable characters and a terminating NUL within the 32 bytes. */
  predicate GoodName(file: seq<byte>)
    requires HasHeader(file)
  {
    exists n :: 0 <= n < DB_NAME_LENGTH && file[n] == 0 && forall i :: 0 <= i < n ==> 0x20 <= file[i] <= 0x7E
  }

  predicate GoodDatabase(file: seq<byte>) {
    HasTable(file) && GoodName(file) && GoodEntries(file)
  }

  lemma {:induction false} BoundariesAscend(file: seq<byte>, i: nat, j: nat)
    requires HasTable(file) && i <= j <= NumRecords(file)
    requires forall k :: i <= k < j ==> InOrder(file, k)
    ensures Boundary(file, i) <= Boundary(file, j)
    decreases j
  {
    hide Boundary;
    if i < j {
      BoundariesAscend(file, i, j - 1);
      assert InOrder(file, j - 1);
    }
  }

  /** In a good file every boundary lies between the table and the end of the file. */
  lemma BoundariesInRange(file: seq<byte>, i: nat)
    requires HasTable(file) && GoodEntries(file) && i <= NumRecords(file)
    ensures TableEnd(file) <= Boundary(file, i) <= |file|
  {
    if NumRecords(file) > 0 {
      BoundariesAscend(file, 0, i);
      BoundariesAscend(file, i, NumRecords(file));
    }
  }

  // ---------------------------------------------------------------------------
  // The checks, in the machine's arithmetic

  /** An earlier resource has the same type and id. */
  predicate RepeatsName(file: seq<byte>, i: nat)
    requires HasTable(file) && i < NumRecords(file)
  {
    IsResources(file) && exists j :: 0 <= j < i && ResourceName(file, j) == ResourceName(file, i)
  }

  /** What is wrong with the i-th entry, earlier entries being in order. A last offset past the end of the
      file counts as out of range, not as too small. */
  function Fault(file: seq<byte>, i: nat): ErrCode
    requires HasTable(file) && i < NumRecords(file)
  {
    if RepeatsName(file, i) then DuplicateResource
    else if Boundary(file, i) > |file| && i == NumRecords(file) - 1 then
      if IsResources(file) then ResourceOutOfRange else RecordOutOfRange
    else if !InOrder(file, i) then
      if IsResources(file) then ResourceTooSmall else RecordTooSmall
    else if Boundary(file, i) < TableEnd(file) || Boundary(file, i + 1) > |file| then
      if IsResources(file) then ResourceOutOfRange else RecordOutOfRange
    else ErrNone
  }

  /** The first fault at or after the i-th entry. */
  function FirstFault(file: seq<byte>, i: nat): (err: ErrCode)
    requires HasTable(file) && i <= NumRecords(file)
    decreases NumRecords(file) - i
  {
    if i == NumRecords(file) then ErrNone
    else if Fault(file, i) != ErrNone then Fault(file, i)
    else FirstFault(file, i + 1)
  }

  // ---------------------------------------------------------------------------
  // What the errors mean, over offsets and names

  /** The entry is the last one and its offset lies past the end of the file. */
  predicate PastEnd(file: seq<byte>, i: nat)
    requires HasTable(file) && i < NumRecords(file)
  {
    i + 1 == NumRecords(file) && LocalChunkID(file, i) > |file|
  }

  /** The entry has too little data: its offset is that of a later boundary, for a resource, or behind the next
      one. */
  predicate TooSmall(file: seq<byte>, i: nat)
    requires HasTable(file) && i < NumRecords(file)
  {
    if i + 1 == NumRecords(file) then IsResources(file) && LocalChunkID(file, i) == |file|
    else LocalChunkID(file, i) > LocalChunkID(file, i + 1)
         || (IsResources(file) && LocalChunkID(file, i) == LocalChunkID(file, i + 1))
  }

  lemma FaultMeans(file: seq<byte>, i: nat)
    requires HasTable(file) && i < NumRecords(file)
    ensures var err, repeats := Fault(file, i), RepeatsName(file, i);
            && (err == DuplicateResource <==> repeats)
            && (err == ResourceTooSmall <==> !repeats && IsResources(file) && TooSmall(file, i))
            && (err == RecordTooSmall <==> !repeats && !IsResources(file) && TooSmall(file, i))
            && (err == ResourceOutOfRange || err == RecordOutOfRange <==>
                  !repeats && !TooSmall(file, i)
                  && (LocalChunkID(file, i) < TableEnd(file) || PastEnd(file, i)
                      || (i + 1 < NumRecords(file) && LocalChunkID(file, i + 1) > |file|)))
            && (err == ResourceOutOfRange ==> IsResources(file)) && (err == RecordOutOfRange ==> !IsResources(file))
            && (err in {ErrNone, DuplicateResource, ResourceTooSmall, RecordTooSmall, ResourceOutOfRange,
                        RecordOutOfRange})
  {
    hide LocalChunkID, ResourceName, NumRecords, IsResources, TableEnd;
  }

  /** The error of the entry table is that of the first entry that is not in order. */
  lemma {:induction false} FirstFaultMeans(file: seq<byte>, i: nat)
    requires HasTable(file) && i <= NumRecords(file)
    ensures var err := FirstFault(file, i);
            if err == ErrNone then forall j :: i <= j < NumRecords(file) ==> Fault(file, j) == ErrNone
            else exists k :: i <= k < NumRecords(file) && Fault(file, k) == err
                             && forall j :: i <= j < k ==> Fault(file, j) == ErrNone
    decreases NumRecords(file) - i
  {
    hide Fault, NumRecords;
    if i < NumRecords(file) {
      if Fault(file, i) == ErrNone {
        FirstFaultMeans(file, i + 1);
      }
    }
  }

  function EntriesError(file: seq<byte>): ErrCode
    requires HasTable(file)
  {
    if NextRecordListID(file) != 0 then NextRecordListIDNonZero else FirstFault(file, 0)
  }

  /** The size the loop computes: a 64-bit difference for all but the last entry, and a 32-bit difference, which
      wraps, for the last. */
  function ItsSize(file: seq<byte>, i: nat): int
    requires HasTable(file) && i < NumRecords(file)
  {
    if i < NumRecords(file) - 1 then LocalChunkID(file, i + 1) as int - LocalChunkID(file, i)
    else (|file| - LocalChunkID(file, i)) % 0x1_0000_0000
  }

  /** What the checks on the computed size find is what is wrong with the entry. */
  lemma ChecksFindFault(file: seq<byte>, i: nat)
    requires HasTable(file) && i < NumRecords(file)
    ensures Fault(file, i)
            == if RepeatsName(file, i) then DuplicateResource
               else if IsResources(file) && ItsSize(file, i) <= 0 then ResourceTooSmall
               else if !IsResources(file) && ItsSize(file, i) < 0 then RecordTooSmall
               else if LocalChunkID(file, i) < TableEnd(file) || LocalChunkID(file, i) + ItsSize(file, i) > |file| then
                 if IsResources(file) then ResourceOutOfRange else RecordOutOfRange
               else ErrNone
  {
    hide LocalChunkID, ResourceName, NumRecords, IsResources, TableEnd;
  }

  lemma EntriesErrorMeans(file: seq<byte>)
    requires HasTable(file)
    ensures var err := EntriesError(file);
            && (err == NextRecordListIDNonZero <==> NextRecordListID(file) != 0)
            && (NextRecordListID(file) == 0 && err != ErrNone ==>
                  exists k :: 0 <= k < NumRecords(file) && Fault(file, k) == err
                              && forall j :: 0 <= j < k ==> Fault(file, j) == ErrNone)
  {
    hide NumRecords, Fault;
    FirstFaultMeans(file, 0);
    forall i | 0 <= i < NumRecords(file) ensures Fault(file, i) != NextRecordListIDNonZero {
      FaultMeans(file, i);
    }
  }

  method ValidateEntries(file: seq<byte>) returns (err: ErrCode)
    requires HasTable(file)
    ensures err == EntriesError(file)
    ensures err == ErrNone <==> GoodEntries(file)
  {
    hide LocalChunkID, ResourceName, NumRecords, NextRecordListID, EntrySize, TableEnd, Fault, GoodEntries;
    EntriesErrorIffBad(file);
    var isResource := IsResources(file);
    var upperRange := |file|;
    var lowerRange := TableEnd(file);
    var resPairs := [];
    if NextRecordListID(file) != 0 {
      return NextRecordListIDNonZero;
    }
    var recordNumber := 0;
    while recordNumber < NumRecords(file)
      invariant 0 <= recordNumber <= NumRecords(file)
      invariant isResource ==> |resPairs| == recordNumber
                               && forall j :: 0 <= j < recordNumber ==> resPairs[j] == ResourceName(file, j)
      invariant FirstFault(file, 0) == FirstFault(file, recordNumber)
    {
      var i := recordNumber;
      ChecksFindFault(file, i);
      if isResource {
        var thisPair := ResourceName(file, i);
        if thisPair in resPairs {
          return DuplicateResource;
        }
        resPairs := resPairs + [thisPair];
      }
      var itsSize: int;
      if recordNumber < NumRecords(file) - 1 {
        itsSize := LocalChunkID(file, i + 1);
        itsSize := itsSize - LocalChunkID(file, i);
      } else {
        itsSize := (|file| - LocalChunkID(file, i)) % 0x1_0000_0000;
      }
      if isResource && itsSize <= 0 {
        return ResourceTooSmall;
      }
      if !isResource && itsSize < 0 {
        return RecordTooSmall;
      }
      var itsLocalID := LocalChunkID(file, i);
      if itsLocalID < lowerRange || itsLocalID + itsSize > upperRange {
        return if isResource then ResourceOutOfRange else RecordOutOfRange;
      }
      recordNumber := recordNumber + 1;
    }
    err := ErrNone;
  }

  /** One faulty entry makes the table bad. */
  lemma FaultySpoils(file: seq<byte>, i: nat)
    requires HasTable(file) && i < NumRecords(file) && Fault(file, i) != ErrNone
    ensures !GoodEntries(file)
  {
    hide LocalChunkID, ResourceName, NumRecords, EntrySize, TableEnd;
    if GoodEntries(file) {
      BoundariesInRange(file, i);
      BoundariesInRange(file, i + 1);
    }
  }

  lemma FaultlessIsGood(file: seq<byte>)
    requires HasTable(file) && NextRecordListID(file) == 0
    requires forall i :: 0 <= i < NumRecords(file) ==> Fault(file, i) == ErrNone
    ensures GoodEntries(file)
  {
    hide LocalChunkID, ResourceName, NumRecords, EntrySize, TableEnd, NextRecordListID;
    forall i | 0 <= i < NumRecords(file) ensures InOrder(file, i) {
      assert Fault(file, i) == ErrNone;
    }
    if NumRecords(file) > 0 {
      assert Fault(file, 0) == ErrNone;
    }
    if IsResources(file) {
      forall i, j | 0 <= i < j < NumRecords(file) ensures ResourceName(file, i) != ResourceName(file, j) {
        assert Fault(file, j) == ErrNone;
      }
    }
  }

  lemma {:induction false} FirstFaultNone(file: seq<byte>, i: nat)
    requires HasTable(file) && i <= NumRecords(file) && FirstFault(file, i) == ErrNone
    ensures forall j :: i <= j < NumRecords(file) ==> Fault(file, j) == ErrNone
    decreases NumRecords(file) - i
  {
    hide Fault, NumRecords;
    if i < NumRecords(file) {
      FirstFaultNone(file, i + 1);
    }
  }

  lemma {:induction false} FirstFaultSome(file: seq<byte>, i: nat)
    requires HasTable(file) && i <= NumRecords(file) && FirstFault(file, i) != ErrNone
    ensures !GoodEntries(file)
    decreases NumRecords(file) - i
  {
    hide Fault, NumRecords, GoodEntries;
    if Fault(file, i) != ErrNone {
      FaultySpoils(file, i);
    } else {
      FirstFaultSome(file, i + 1);
    }
  }

  lemma EntriesErrorIffBad(file: seq<byte>)
    requires HasTable(file)
    ensures EntriesError(file) == ErrNone <==> GoodEntries(file)
  {
    hide Fault, NumRecords;
    if NextRecordListID(file) == 0 {
      if FirstFault(file, 0) == ErrNone {
        FirstFaultNone(file, 0);
        FaultlessIsGood(file);
      } else {
        FirstFaultSome(file, 0);
      }
    }
  }

  function HeaderError(file: seq<byte>): ErrCode
    requires HasHeader(file)
  {
    if forall i :: 0 <= i < DB_NAME_LENGTH ==> file[i] != 0 then NameNotNULLTerminated
    else if !GoodName(file) then NameNotPrintable
    else if !HasTable(file) then FileTooSmall
    else ErrNone
  }

  /** The name is terminated, but a byte in front of its end does not print. */
  ghost predicate Unprintable(file: seq<byte>)
    requires HasHeader(file)
  {
    exists n :: 0 <= n < 32 && file[n] == 0 && (forall i :: 0 <= i < n ==> file[i] != 0)
                && exists k :: 0 <= k < n && !(0x20 <= file[k] <= 0x7E)
  }

  lemma NameCases(file: seq<byte>)
    requires HasHeader(file)
    ensures !GoodName(file) <==> (forall i :: 0 <= i < 32 ==> file[i] != 0) || Unprintable(file)
    ensures Unprintable(file) ==> exists i :: 0 <= i < 32 && file[i] == 0
  {
    if exists i :: 0 <= i < 32 && file[i] == 0 {
      var n := FirstNul(file, 0);
      if !Unprintable(file) {
        assert forall k :: 0 <= k < n ==> 0x20 <= file[k] <= 0x7E;
      }
    }
  }

  function FirstNul(file: seq<byte>, i: nat): (n: nat)
    requires HasHeader(file) && i < 32 && exists j :: i <= j < 32 && file[j] == 0
    ensures i <= n < 32 && file[n] == 0 && forall j :: i <= j < n ==> file[j] != 0
    decreases 32 - i
  {
    if file[i] == 0 then i else FirstNul(file, i + 1)
  }

  /** Which error is found, over the bytes: in this order, a name without an end, one that does not print, and a
      table that does not fit. */
  lemma HeaderErrorMeans(file: seq<byte>)
    requires HasHeader(file) && |file| <= MAX_INT32
    ensures var err := HeaderError(file);
            && (err == NameNotNULLTerminated <==> forall i :: 0 <= i < 32 ==> file[i] != 0)
            && (err == NameNotPrintable <==> Unprintable(file))
            && (err == FileTooSmall <==> GoodName(file) && TableEnd(file) > |file|)
            && (err == ErrNone <==> GoodName(file) && TableEnd(file) <= |file|)
  {
    hide TableEnd;
    NameCases(file);
  }

  method ValidateHeader(file: seq<byte>) returns (err: ErrCode, warning: DateWarning)
    requires HasHeader(file) && |file| <= MAX_INT32
    ensures err == HeaderError(file)
    ensures err == ErrNone <==> GoodName(file) && HasTable(file)
    ensures err == NameNotNULLTerminated <==> forall i :: 0 <= i < 32 ==> file[i] != 0
    ensures err == NameNotPrintable <==> Unprintable(file)
    ensures err == FileTooSmall <==> GoodName(file) && TableEnd(file) > |file|
    ensures err != NameNotNULLTerminated && err != NameNotPrintable ==>
              warning == if CreationDate(file) > ModificationDate(file) then InconsistentDates
                         else if CreationDate(file) == 0 then NullCreationDate else NoWarning
  {
    hide TableEnd, CreationDate, ModificationDate, Unprintable;
    HeaderErrorMeans(file);
    warning := NoWarning;
    var len := 0;
    while len < |file| && file[len] != 0
      invariant 0 <= len <= |file|
      invariant forall i :: 0 <= i < len ==> file[i] != 0
    {
      len := len + 1;
    }
    if len >= DB_NAME_LENGTH {
      return NameNotNULLTerminated, warning;
    }
    var ii := 0;
    while ii < len
      invariant 0 <= ii <= len
      invariant forall i :: 0 <= i < ii ==> 0x20 <= file[i] <= 0x7E
    {
      var ch := file[ii];
      if ch < 0x20 || ch > 0x7E {
        NameEndsAtFirstNul(file, len, ii);
        return NameNotPrintable, warning;
      }
      ii := ii + 1;
    }
    if CreationDate(file) > ModificationDate(file) {
      warning := InconsistentDates;
    } else if CreationDate(file) == 0 {
      warning := NullCreationDate;
    }
    var endOfEntryArray := TableEnd(file);
    if endOfEntryArray > |file| {
      return FileTooSmall, warning;
    }
    return ErrNone, warning;
  }

  lemma NameEndsAtFirstNul(file: seq<byte>, len: nat, bad: nat)
    requires HasHeader(file) && bad < len < DB_NAME_LENGTH
    requires forall i :: 0 <= i < len ==> file[i] != 0
    requires !(0x20 <= file[bad] <= 0x7E)
    ensures !GoodName(file)
  {
  }

  function DatabaseError(file: seq<byte>): ErrCode {
    if !HasHeader(file) then FileTooSmall
    else if HeaderError(file) != ErrNone then HeaderError(file)
    else EntriesError(file)
  }

  /** Accepts exactly the good database files. */
  method ValidateDatabase(file: seq<byte>) returns (err: ErrCode)
    requires |file| <= MAX_INT32
    ensures err == DatabaseError(file)
    ensures err == ErrNone <==> GoodDatabase(file)
  {
    if |file| < HEADER_SIZE {
      return FileTooSmall;
    }
    var warning;
    err, warning := ValidateHeader(file);
    if err != ErrNone {
      return;
    }
    err := ValidateEntries(file);
  }
}
