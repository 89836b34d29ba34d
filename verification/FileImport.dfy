/** The home-brew installer: a state machine that copies a validated file's entries into a new
    database, a few steps at a time. */
module FileImport {
  import opened Bytes
  import opened PalmDatabase

  datatype InstallState = InstallStart | InstallMiddle | InstallEnd | InstallDone

  /** What the stream is: a database file, some other file, or no file at all. */
  datatype StreamKind = DatabaseFile | OtherFile | NoFile

  datatype Item =
    | Resource(name: TypeAndID, data: seq<byte>)
    | Record(attributes: byte, uniqueID: nat, data: seq<byte>)

  /** The database being installed, as the device holds it. */
  datatype Database = NoDatabase | Database(items: seq<Item>, modificationNumber: uint32, isOpen: bool)

  datatype Import = Import(
    state: InstallState,
    error: ErrCode,
    currentEntry: nat,
    dbID: uint32,
    openID: uint32,
    database: Database)

  /** Just created, with nothing in it. */
  const EMPTY := Database([], 0, false)

  const BEGINNING := Import(InstallStart, ErrNone, 0, 0, 0, NoDatabase)

  const DM_ERR_MEM_ERROR: uint16 := 0x0201
  const DM_ERR_ROM_BASED: uint16 := 0x020E

  /** What the device answers to the calls of one step. An error of 0 is success, an identifier of 0 is refusal;
      `lastErr` is the reason given for a refusal. A reason of 0 counts as no error, and the step is taken again. */
  datatype Answers = Answers(
    allocates: bool,
    findsOld: bool,
    deleteOldErr: uint16,
    createErr: uint16,
    newDBID: uint32,
    setInfoErr: uint16,
    newOpenID: uint32,
    newAppInfo: bool,
    appInfoErr: uint16,
    newHandle: bool,
    setRecordErr: uint16,
    bumpedNumber: uint32,
    setNumberErr: uint16,
    lastErr: uint16)

  predicate Succeeds(a: Answers) {
    && a.allocates && (a.findsOld ==> a.deleteOldErr == 0) && a.createErr == 0 && a.newDBID != 0
    && a.setInfoErr == 0 && a.newOpenID != 0 && a.newAppInfo && a.appInfoErr == 0 && a.newHandle
    && a.setRecordErr == 0 && a.setNumberErr == 0
  }

  // ---------------------------------------------------------------------------
  // What a good file installs

  /** The bytes of the i-th entry. */
  function EntryData(file: seq<byte>, i: nat): seq<byte>
    requires GoodDatabase(file) && i < NumRecords(file)
  {
    BoundariesInRange(file, i);
    BoundariesInRange(file, i + 1);
    assert InOrder(file, i);
    file[Boundary(file, i)..Boundary(file, i + 1)]
  }

  function EntryItem(file: seq<byte>, i: nat): Item
    requires GoodDatabase(file) && i < NumRecords(file)
  {
    if IsResources(file) then Resource(ResourceName(file, i), EntryData(file, i))
    else
      var at := EntryAt(file, i);
      Record(file[at + 4], (file[at + 5] as int * 0x100 + file[at + 6]) * 0x100 + file[at + 7], EntryData(file, i))
  }

  /** The first `n` entries as installed: records without data are passed over. */
  function Items(file: seq<byte>, n: nat): seq<Item>
    requires GoodDatabase(file) && n <= NumRecords(file)
  {
    if n == 0 then []
    else if !IsResources(file) && EntryData(file, n - 1) == [] then Items(file, n - 1)
    else Items(file, n - 1) + [EntryItem(file, n - 1)]
  }

  function AllData(items: seq<Item>): seq<byte> {
    if items == [] then [] else AllData(items[..|items| - 1]) + items[|items| - 1].data
  }

  /** Nothing is lost and nothing copied twice: the installed data, in order, is the file from the first
      entry's offset on. */
  lemma {:induction false} ItemsTileFile(file: seq<byte>, n: nat)
    requires GoodDatabase(file) && n <= NumRecords(file)
    ensures TableEnd(file) <= Boundary(file, 0) <= Boundary(file, n) <= |file|
    ensures AllData(Items(file, n)) == file[Boundary(file, 0)..Boundary(file, n)]
    decreases n
  {
    hide Boundary, EntryItem, IsResources, GoodName, NumRecords, TableEnd, InOrder, DistinctBefore;
    BoundariesInRange(file, n);
    BoundariesInRange(file, 0);
    if n > 0 {
      ItemsTileFile(file, n - 1);
      BoundariesInRange(file, n - 1);
      InOrderGap(file, n - 1);
      var rest := Items(file, n - 1);
      ItemData(file, n - 1);
      assert (rest + [EntryItem(file, n - 1)])[..|rest|] == rest;
    }
  }

  lemma InOrderGap(file: seq<byte>, i: nat)
    requires HasTable(file) && GoodEntries(file) && i < NumRecords(file)
    ensures Boundary(file, i) <= Boundary(file, i + 1)
  {
    assert InOrder(file, i);
  }

  lemma ItemData(file: seq<byte>, i: nat)
    requires GoodDatabase(file) && i < NumRecords(file)
    ensures EntryItem(file, i).data == EntryData(file, i)
  {
  }

  /** The item is what the i-th entry of the table, read as bytes, says: for a resource its type and ID, for a
      record its attributes and the three octets of its unique ID, and the data that its offset points to. */
  predicate Reproduces(file: seq<byte>, i: nat, item: Item)
    requires GoodDatabase(file) && i < NumRecords(file)
  {
    var offset: int := Boundary(file, i);
    && offset + |item.data| == Boundary(file, i + 1) <= |file|
    && item.data == file[offset..offset + |item.data|]
    && match item
       case Resource(name, _) =>
         && IsResources(file) && 78 + 10 * i + 10 <= |file|
         && file[78 + 10 * i..78 + 10 * i + 10]
            == BigEndian32(name.resType) + BigEndian16(name.resID) + BigEndian32(offset)
       case Record(attributes, uniqueID, _) =>
         && !IsResources(file) && 78 + 8 * i + 8 <= |file| && uniqueID < 0x100_0000
         && file[78 + 8 * i..78 + 8 * i + 8]
            == BigEndian32(offset)
               + [attributes, uniqueID / 0x1_0000, uniqueID / 0x100 % 0x100, uniqueID % 0x100]
  }

  lemma UniqueIDOctets(id2: byte, id1: byte, id0: byte)
    ensures var id: int := (id2 as int * 0x100 + id1) * 0x100 + id0;
            && 0 <= id < 0x100_0000
            && id / 0x1_0000 == id2 && id / 0x100 % 0x100 == id1 && id % 0x100 == id0
  {
    var id: int := (id2 as int * 0x100 + id1) * 0x100 + id0;
    assert id / 0x100 == id2 as int * 0x100 + id1;
  }

  /** An entry's data lies between its boundary and the next. */
  lemma EntryDataIs(file: seq<byte>, i: nat)
    requires GoodDatabase(file) && i < NumRecords(file)
    ensures Boundary(file, i) == LocalChunkID(file, i)
    ensures var at, data := Boundary(file, i), EntryData(file, i);
            at + |data| == Boundary(file, i + 1) <= |file| && data == file[at..at + |data|]
  {
    hide GoodName, NumRecords, IsResources, LocalChunkID, TableEnd, GoodEntries, InOrder;
    BoundariesInRange(file, i);
    BoundariesInRange(file, i + 1);
    InOrderGap(file, i);
  }

  lemma EntryReproduced(file: seq<byte>, i: nat)
    requires GoodDatabase(file) && i < NumRecords(file)
    ensures Reproduces(file, i, EntryItem(file, i))
  {
    hide GoodName, GoodEntries, NumRecords, IsResources, ResourceName, LocalChunkID, TableEnd, Boundary, EntryData;
    hide BigEndian16, BigEndian32;
    EntryDataIs(file, i);
    EntryImages(file, i);
    if !IsResources(file) {
      var at := EntryAt(file, i);
      UniqueIDOctets(file[at + 5], file[at + 6], file[at + 7]);
    }
  }

  /** All resources are installed, and the records with data. */
  predicate IsInstalled(file: seq<byte>, i: nat)
    requires HasTable(file) && i < NumRecords(file)
  {
    IsResources(file) || Boundary(file, i) < Boundary(file, i + 1)
  }

  /** How many of the first `n` entries are installed. */
  function InstalledBefore(file: seq<byte>, n: nat): nat
    requires HasTable(file) && n <= NumRecords(file)
  {
    if n == 0 then 0
    else InstalledBefore(file, n - 1) + if IsInstalled(file, n - 1) then 1 else 0
  }

  /** The items reproduce the first `n` entries: one item for each entry that is installed, in table order. */
  ghost predicate ReproduceTable(file: seq<byte>, n: nat, items: seq<Item>)
    requires GoodDatabase(file) && n <= NumRecords(file)
  {
    && |items| == InstalledBefore(file, n)
    && forall i :: 0 <= i < n && IsInstalled(file, i) ==>
                     var k := InstalledBefore(file, i); k < |items| && Reproduces(file, i, items[k])
  }

  lemma {:induction false} ItemsReproduceTable(file: seq<byte>, n: nat)
    requires GoodDatabase(file) && n <= NumRecords(file)
    ensures ReproduceTable(file, n, Items(file, n))
    decreases n
  {
    hide GoodName, GoodEntries, NumRecords, IsResources, Boundary, Reproduces, EntryItem, EntryData;
    if n > 0 {
      var before, last, items := Items(file, n - 1), n - 1, Items(file, n);
      ItemsReproduceTable(file, last);
      EntryReproduced(file, last);
      EntrySizeIs(file, last);
      assert items == if IsInstalled(file, last) then before + [EntryItem(file, last)] else before;
      forall i | 0 <= i < n && IsInstalled(file, i)
        ensures var k := InstalledBefore(file, i); k < |items| && Reproduces(file, i, items[k])
      {
        var k := InstalledBefore(file, i);
        if i < last {
          assert k < |before| && Reproduces(file, i, before[k]) && items[k] == before[k];
        }
      }
    }
  }

  lemma EntrySizeIs(file: seq<byte>, i: nat)
    requires GoodDatabase(file) && i < NumRecords(file)
    ensures EntryData(file, i) != [] <==> Boundary(file, i) < Boundary(file, i + 1)
  {
    hide GoodName, NumRecords, Boundary;
    InOrderGap(file, i);
    BoundariesInRange(file, i + 1);
  }

  /** So does the database that a finished install leaves. */
  lemma InstalledReproducesTable(s: Import, file: seq<byte>)
    requires GoodDatabase(file) && Installed(s, file)
    ensures ReproduceTable(file, NumRecords(file), s.database.items)
    ensures s.database.modificationNumber == ModificationNumber(file)
  {
    hide GoodName, GoodEntries, IsResources, Boundary, Reproduces, Items;
    ItemsReproduceTable(file, NumRecords(file));
  }

  /** The installed sizes add up to the file size less the first offset. */
  lemma InstalledSize(file: seq<byte>)
    requires GoodDatabase(file)
    ensures |AllData(Items(file, NumRecords(file)))| == |file| - Boundary(file, 0)
  {
    ItemsTileFile(file, NumRecords(file));
  }

  // ---------------------------------------------------------------------------
  // The steps, as functions

  /** Closes and deletes the database being installed, if it is known. */
  function Discarded(s: Import): Import {
    s.(openID := 0, dbID := 0, database := if s.dbID != 0 then NoDatabase else s.database)
  }

  function Failed(s: Import, err: uint16): Import {
    Discarded(s).(error := if err == 0 then ErrNone else PalmError(err))
  }

  predicate HasAppInfo(file: seq<byte>)
    requires HasHeader(file)
  {
    !IsResources(file) && AppInfoID(file) != 0
  }

  function StreamError(file: seq<byte>, kind: StreamKind): ErrCode {
    match kind
    case NoFile => ErrNone
    case DatabaseFile => DatabaseError(file)
    case OtherFile => UnknownType
  }

  /** An old database of the same name is in the way, or has been removed. */
  predicate BlockedByOld(a: Answers) {
    a.findsOld && a.deleteOldErr != 0 && a.deleteOldErr != DM_ERR_ROM_BASED
  }

  predicate DeletesOld(a: Answers) {
    a.findsOld && a.deleteOldErr == 0
  }

  function AfterStart(s: Import, file: seq<byte>, kind: StreamKind, a: Answers): Import
    requires kind.NoFile? ==> GoodDatabase(file)
    requires |file| <= MAX_INT32
  {
    var err := StreamError(file, kind);
    GoodIffNoError(file);
    if err != ErrNone then s.(error := err)
    else if !a.allocates then s.(error := OutOfMemory, dbID := 0, openID := 0)
    else if BlockedByOld(a) then Failed(s.(dbID := 0, openID := 0), a.deleteOldErr)
    else
      var s := s.(dbID := 0, openID := 0, database := if DeletesOld(a) then NoDatabase else s.database);
      if a.createErr != 0 then Failed(s, a.createErr) else AfterCreation(s.(database := EMPTY), file, a)
  }

  /** The rest of the first step. */
  function AfterCreation(s: Import, file: seq<byte>, a: Answers): Import
    requires HasHeader(file)
  {
    if a.newDBID == 0 then Failed(s, a.lastErr)
    else
      var s := s.(dbID := a.newDBID);
      if a.setInfoErr != 0 then Failed(s, a.setInfoErr)
      else if a.newOpenID == 0 then Failed(s, a.lastErr)
      else
        var s := s.(openID := a.newOpenID, database := Database([], ModificationNumber(file), true));
        if HasAppInfo(file) && !a.newAppInfo then Failed(s, a.lastErr)
        else if HasAppInfo(file) && a.appInfoErr != 0 then Failed(s, a.appInfoErr)
        else s.(state := if NumRecords(file) > 0 then InstallMiddle else InstallEnd)
  }

  function WithItem(s: Import, item: Item, number: uint32): Import {
    s.(database := if s.database.Database?
                   then Database(s.database.items + [item], number, s.database.isOpen) else s.database)
  }

  function NextEntry(s: Import, file: seq<byte>): Import
    requires HasHeader(file)
  {
    s.(currentEntry := s.currentEntry + 1,
       state := if s.currentEntry + 1 >= NumRecords(file) then InstallEnd else s.state)
  }

  function AfterMiddle(s: Import, file: seq<byte>, a: Answers): Import
    requires GoodDatabase(file) && s.currentEntry < NumRecords(file)
  {
    var item := EntryItem(file, s.currentEntry);
    if item.Record? && item.data == [] then NextEntry(s, file)
    else if !a.newHandle then
      if a.lastErr == DM_ERR_MEM_ERROR
      then Discarded(s).(error := if item.Resource? then ResourceMemError else RecordMemError)
      else Failed(s, a.lastErr)
    else if item.Record? && a.setRecordErr != 0 then Failed(WithItem(s, item, a.bumpedNumber), a.setRecordErr)
    else NextEntry(WithItem(s, item, a.bumpedNumber), file)
  }

  /** A failure here leaves the database as it is, complete and open. */
  function AfterEnd(s: Import, file: seq<byte>, a: Answers): Import
    requires HasHeader(file)
  {
    if a.setNumberErr != 0 then s.(error := PalmError(a.setNumberErr))
    else s.(state := InstallDone, openID := 0,
            database := if s.database.Database?
                        then Database(s.database.items, ModificationNumber(file), false) else s.database)
  }

  function Cancelled(s: Import): Import {
    Discarded(s).(state := InstallDone)
  }

  /** What holds between the steps of one install. */
  predicate Installing(s: Import, file: seq<byte>) {
    && (s.state.InstallStart? ==> s.currentEntry == 0)
    && (s.state.InstallMiddle? || s.state.InstallEnd? ==> GoodDatabase(file))
    && (s.state.InstallMiddle? ==> s.currentEntry < NumRecords(file))
  }

  /** One turn of the loop in `Continue`: an install step, and the end if it failed. */
  function Step(s: Import, file: seq<byte>, kind: StreamKind, a: Answers): Import
    requires Installing(s, file) && |file| <= MAX_INT32
    requires kind.NoFile? ==> GoodDatabase(file)
  {
    var s := match s.state
             case InstallStart => AfterStart(s, file, kind, a)
             case InstallMiddle => AfterMiddle(s, file, a)
             case InstallEnd => AfterEnd(s, file, a)
             case InstallDone => s;
    if s.error != ErrNone then s.(state := InstallDone) else s
  }

  lemma GoodIffNoError(file: seq<byte>)
    requires |file| <= MAX_INT32
    ensures DatabaseError(file) == ErrNone <==> GoodDatabase(file)
  {
    if HasHeader(file) {
      if HeaderError(file) == ErrNone {
        EntriesErrorIffBad(file);
      }
    }
  }

  lemma StepInstalling(s: Import, file: seq<byte>, kind: StreamKind, a: Answers)
    requires Installing(s, file) && |file| <= MAX_INT32
    requires kind.NoFile? ==> GoodDatabase(file)
    ensures Installing(Step(s, file, kind, a), file)
  {
    hide EntryItem, DatabaseError, NumRecords, HasAppInfo, GoodName, GoodEntries;
    GoodIffNoError(file);
  }

  /** A run of steps, one set of answers each; it stops when the install is done. */
  function Steps(s: Import, file: seq<byte>, kind: StreamKind, answers: seq<Answers>): Import
    requires Installing(s, file) && |file| <= MAX_INT32
    requires kind.NoFile? ==> GoodDatabase(file)
    decreases |answers|
  {
    if answers == [] || s.state.InstallDone? then s
    else
      StepInstalling(s, file, kind, answers[0]);
      Steps(Step(s, file, kind, answers[0]), file, kind, answers[1..])
  }

  lemma {:induction false} StepsInstalling(s: Import, file: seq<byte>, kind: StreamKind, answers: seq<Answers>)
    requires Installing(s, file) && |file| <= MAX_INT32
    requires kind.NoFile? ==> GoodDatabase(file)
    ensures Installing(Steps(s, file, kind, answers), file)
    decreases |answers|
  {
    hide Step, Installing;
    if answers != [] && !s.state.InstallDone? {
      StepInstalling(s, file, kind, answers[0]);
      StepsInstalling(Step(s, file, kind, answers[0]), file, kind, answers[1..]);
    }
  }

  // ---------------------------------------------------------------------------
  // What the errors of the steps mean

  datatype Refusal = Refusal(refused: bool, code: uint16)

  /** The code of the first request that is refused, 0 when none is. */
  function FirstCode(rs: seq<Refusal>): uint16 {
    if rs == [] then 0 else if rs[0].refused then rs[0].code else FirstCode(rs[1..])
  }

  predicate NoneRefused(rs: seq<Refusal>) {
    forall r :: r in rs ==> !r.refused
  }

  /** The device requests of the first step, in order, with the code each refusal gives. */
  function StartRequests(file: seq<byte>, a: Answers): seq<Refusal>
    requires HasHeader(file)
  {
    var info := HalfWord(file, 32) % 2 == 0 && AppInfoID(file) != 0;
    [Refusal(a.findsOld && a.deleteOldErr != 0 && a.deleteOldErr != 0x020E, a.deleteOldErr),
     Refusal(a.createErr != 0, a.createErr),
     Refusal(a.newDBID == 0, a.lastErr),
     Refusal(a.setInfoErr != 0, a.setInfoErr),
     Refusal(a.newOpenID == 0, a.lastErr),
     Refusal(info && !a.newAppInfo, a.lastErr),
     Refusal(info && a.appInfoErr != 0, a.appInfoErr)]
  }

  function CodeError(code: uint16): ErrCode {
    if code == 0 then ErrNone else PalmError(code)
  }

  lemma FirstCodeCons(r: Refusal, rs: seq<Refusal>)
    ensures FirstCode([r] + rs) == if r.refused then r.code else FirstCode(rs)
    ensures NoneRefused([r] + rs) <==> !r.refused && NoneRefused(rs)
  {
    assert ([r] + rs)[1..] == rs;
    assert r in [r] + rs && forall x :: x in rs ==> x in [r] + rs;
  }

  /** The first code of seven requests, one by one. */
  lemma FirstCodeOfSeven(r: seq<Refusal>)
    requires |r| == 7
    ensures FirstCode(r) == if r[0].refused then r[0].code else if r[1].refused then r[1].code
                            else if r[2].refused then r[2].code else if r[3].refused then r[3].code
                            else if r[4].refused then r[4].code else if r[5].refused then r[5].code
                            else if r[6].refused then r[6].code else 0
    ensures NoneRefused(r) <==> forall i :: 0 <= i < 7 ==> !r[i].refused
  {
    hide FirstCode;
    assert r == [r[0]] + ([r[1]] + ([r[2]] + ([r[3]] + ([r[4]] + ([r[5]] + ([r[6]] + []))))));
    FirstCodeCons(r[6], []);
    FirstCodeCons(r[5], [r[6]] + []);
    FirstCodeCons(r[4], [r[5]] + ([r[6]] + []));
    FirstCodeCons(r[3], [r[4]] + ([r[5]] + ([r[6]] + [])));
    FirstCodeCons(r[2], [r[3]] + ([r[4]] + ([r[5]] + ([r[6]] + []))));
    FirstCodeCons(r[1], [r[2]] + ([r[3]] + ([r[4]] + ([r[5]] + ([r[6]] + [])))));
    FirstCodeCons(r[0], [r[1]] + ([r[2]] + ([r[3]] + ([r[4]] + ([r[5]] + ([r[6]] + []))))));
    NoCode();
  }

  lemma NoCode()
    ensures FirstCode([]) == 0
  {
  }

  /** The first step fails with the error of the file, for want of memory, or with the code of the first request
      refused; it goes on exactly when none of them happens. */
  lemma StartErrorMeans(s: Import, file: seq<byte>, kind: StreamKind, a: Answers)
    requires Installing(s, file) && |file| <= MAX_INT32 && s.state.InstallStart? && s.error == ErrNone
    requires kind.NoFile? ==> GoodDatabase(file)
    ensures var t := Step(s, file, kind, a);
            if kind.OtherFile? then t.error == UnknownType && t.state.InstallDone?
            else if !GoodDatabase(file) then t.error == DatabaseError(file) != ErrNone && t.state.InstallDone?
            else if !a.allocates then t.error == OutOfMemory && t.state.InstallDone?
            else
              && t.error == CodeError(FirstCode(StartRequests(file, a)))
              && (t.state.InstallMiddle? || t.state.InstallEnd? <==> NoneRefused(StartRequests(file, a)))
              && (t.state.InstallMiddle? ==> NumRecords(file) > 0) && (t.state.InstallEnd? ==> NumRecords(file) == 0)
  {
    hide GoodDatabase, DatabaseError, NumRecords, FirstCode, NoneRefused;
    GoodIffNoError(file);
    if HasHeader(file) {
      FirstCodeOfSeven(StartRequests(file, a));
    }
    GoodHasHeader(file);
  }

  lemma GoodHasHeader(file: seq<byte>)
    ensures GoodDatabase(file) ==> HasHeader(file)
  {
  }

  /** A middle step fails when there is no room for the entry, or the record's attributes are refused; want of
      memory has an error of its own for resources and for records. Otherwise the next entry's turn comes. */
  lemma MiddleErrorMeans(s: Import, file: seq<byte>, kind: StreamKind, a: Answers)
    requires Installing(s, file) && |file| <= MAX_INT32 && s.state.InstallMiddle? && s.error == ErrNone
    requires kind.NoFile? ==> GoodDatabase(file)
    ensures var t, resource := Step(s, file, kind, a), HalfWord(file, 32) % 2 == 1;
            var needed := resource || Boundary(file, s.currentEntry) < Boundary(file, s.currentEntry + 1);
            if needed && !a.newHandle then
              t.error == (if a.lastErr == 0x0201 then if resource then ResourceMemError else RecordMemError
                          else CodeError(a.lastErr))
              && t.currentEntry == s.currentEntry
            else if needed && !resource && a.setRecordErr != 0 then t.error == PalmError(a.setRecordErr)
            else
              && t.error == ErrNone && t.currentEntry == s.currentEntry + 1
              && t.state == if s.currentEntry + 1 == NumRecords(file) then InstallEnd else InstallMiddle
  {
    hide GoodDatabase, NumRecords, Boundary, EntryData;
    EntrySizeIs(file, s.currentEntry);
    ItemData(file, s.currentEntry);
  }

  /** The end step fails only with the code for setting the number. */
  lemma EndErrorMeans(s: Import, file: seq<byte>, kind: StreamKind, a: Answers)
    requires Installing(s, file) && |file| <= MAX_INT32 && s.state.InstallEnd? && s.error == ErrNone
    requires kind.NoFile? ==> GoodDatabase(file)
    ensures var t := Step(s, file, kind, a); t.state.InstallDone? && t.error == CodeError(a.setNumberErr)
  {
  }

  // ---------------------------------------------------------------------------
  // Slices of time

  lemma {:induction false} StepsConcat(s: Import, file: seq<byte>, kind: StreamKind, a: seq<Answers>, b: seq<Answers>)
    requires Installing(s, file) && |file| <= MAX_INT32
    requires kind.NoFile? ==> GoodDatabase(file)
    ensures Installing(Steps(s, file, kind, a), file)
    ensures Steps(Steps(s, file, kind, a), file, kind, b) == Steps(s, file, kind, a + b)
    decreases |a|
  {
    hide Step, Installing;
    StepsInstalling(s, file, kind, a);
    if a == [] {
      assert a + b == b;
    } else if !s.state.InstallDone? {
      assert a[0] in a;
      StepInstalling(s, file, kind, a[0]);
      StepsConcat(Step(s, file, kind, a[0]), file, kind, a[1..], b);
      assert (a + b)[1..] == a[1..] + b;
    }
  }

  /** Calls of `Continue`, each allowed as many steps as its slice has answers. */
  function Slices(s: Import, file: seq<byte>, kind: StreamKind, slices: seq<seq<Answers>>): Import
    requires Installing(s, file) && |file| <= MAX_INT32
    requires kind.NoFile? ==> GoodDatabase(file)
    decreases |slices|
  {
    if slices == [] then s
    else
      StepsInstalling(s, file, kind, slices[0]);
      Slices(Steps(s, file, kind, slices[0]), file, kind, slices[1..])
  }

  function Flatten(slices: seq<seq<Answers>>): seq<Answers> {
    if slices == [] then [] else slices[0] + Flatten(slices[1..])
  }

  /** How the steps are cut into slices makes no difference, whatever the device answers. */
  lemma {:induction false} SlicingIrrelevant(s: Import, file: seq<byte>, kind: StreamKind, slices: seq<seq<Answers>>)
    requires Installing(s, file) && |file| <= MAX_INT32
    requires kind.NoFile? ==> GoodDatabase(file)
    ensures Slices(s, file, kind, slices) == Steps(s, file, kind, Flatten(slices))
    decreases |slices|
  {
    hide Step, Installing;
    if slices != [] {
      StepsConcat(s, file, kind, slices[0], Flatten(slices[1..]));
      SlicingIrrelevant(Steps(s, file, kind, slices[0]), file, kind, slices[1..]);
    }
  }

  // ---------------------------------------------------------------------------
  // What an install leaves behind

  /** The install knows of no database; one that was created but not found may be left. */
  predicate Unknown(s: Import) {
    s.dbID == 0 && s.openID == 0 && (s.database == NoDatabase || s.database == EMPTY)
  }

  /** A refusal without a reason has deleted the database, and the install goes on without it. */
  predicate Abandoned(s: Import) {
    s.dbID == 0 && s.openID == 0 && s.database == NoDatabase
  }

  /** The install has the database open, with these items in it. */
  predicate Holds(s: Import, items: seq<Item>) {
    s.dbID != 0 && s.openID != 0 && s.database.Database? && s.database.isOpen && s.database.items == items
  }

  /** Never part of a database: during the install the entries so far, and at the end all of them or none. */
  ghost predicate WholeOrNothing(s: Import, file: seq<byte>) {
    && Installing(s, file)
    && (!s.state.InstallDone? ==> s.error == ErrNone)
    && match s.state
       case InstallStart => Unknown(s)
       case InstallMiddle => Abandoned(s) || Holds(s, Items(file, s.currentEntry))
       case InstallEnd =>
         s.currentEntry == NumRecords(file) && (Abandoned(s) || Holds(s, Items(file, NumRecords(file))))
       case InstallDone =>
         if s.error == ErrNone then GoodDatabase(file) && (Abandoned(s) || Installed(s, file))
         else Unknown(s) || (GoodDatabase(file) && Holds(s, Items(file, NumRecords(file))))
  }

  /** What a finished install leaves: the file's entries, closed. */
  predicate Installed(s: Import, file: seq<byte>)
    requires GoodDatabase(file)
  {
    && s.dbID != 0 && s.openID == 0
    && s.database == Database(Items(file, NumRecords(file)), ModificationNumber(file), false)
  }

  lemma StepWholeOrNothing(s: Import, file: seq<byte>, kind: StreamKind, a: Answers)
    requires WholeOrNothing(s, file) && |file| <= MAX_INT32
    requires kind.NoFile? ==> GoodDatabase(file)
    ensures WholeOrNothing(Step(s, file, kind, a), file)
  {
    hide GoodDatabase, DatabaseError, HasAppInfo, NumRecords, EntryData, IsResources, ModificationNumber;
    GoodIffNoError(file);
    StepInstalling(s, file, kind, a);
    if s.state.InstallStart? {
      NoItems(file);
    } else if s.state.InstallMiddle? {
      assert Items(file, s.currentEntry + 1)
          == if EntryItem(file, s.currentEntry).Record? && EntryItem(file, s.currentEntry).data == []
             then Items(file, s.currentEntry)
             else Items(file, s.currentEntry) + [EntryItem(file, s.currentEntry)];
    }
  }

  lemma NoItems(file: seq<byte>)
    ensures GoodDatabase(file) ==> Items(file, 0) == []
  {
  }

  /** Over every run, whatever the device answers. */
  lemma {:induction false} RunWholeOrNothing(s: Import, file: seq<byte>, kind: StreamKind, answers: seq<Answers>)
    requires WholeOrNothing(s, file) && |file| <= MAX_INT32
    requires kind.NoFile? ==> GoodDatabase(file)
    ensures WholeOrNothing(Steps(s, file, kind, answers), file)
    decreases |answers|
  {
    hide Step, Items;
    if answers != [] && !s.state.InstallDone? {
      StepWholeOrNothing(s, file, kind, answers[0]);
      RunWholeOrNothing(Step(s, file, kind, answers[0]), file, kind, answers[1..]);
    }
  }

  // ---------------------------------------------------------------------------
  // Which failures leave a database behind

  /** The step, if it fails, leaves a database: the last step always does unless the database has been abandoned
      before; the first one does when the new database is created but not found, or when it fails before that
      and an earlier attempt has left one. */
  predicate LeavesDatabase(s: Import, file: seq<byte>, kind: StreamKind, a: Answers) {
    match s.state
    case InstallStart =>
      var attempts := StreamError(file, kind) == ErrNone && a.allocates && !BlockedByOld(a);
      if attempts && a.createErr == 0 then a.newDBID == 0
      else s.database != NoDatabase && !(attempts && DeletesOld(a))
    case InstallEnd => s.dbID != 0
    case _ => false
  }

  lemma FailureLeavesDatabase(s: Import, file: seq<byte>, kind: StreamKind, a: Answers)
    requires WholeOrNothing(s, file) && |file| <= MAX_INT32 && !s.state.InstallDone?
    requires kind.NoFile? ==> GoodDatabase(file)
    ensures var t := Step(s, file, kind, a);
            t.error != ErrNone ==>
              && (t.database != NoDatabase <==> LeavesDatabase(s, file, kind, a))
              && (LeavesDatabase(s, file, kind, a) ==>
                    if s.state.InstallEnd? then Holds(t, Items(file, NumRecords(file)))
                    else t.database == EMPTY && t.dbID == 0 && t.openID == 0)
  {
    hide GoodDatabase, DatabaseError, HasAppInfo, NumRecords, EntryData, IsResources, ModificationNumber, Items;
    GoodIffNoError(file);
    StepWholeOrNothing(s, file, kind, a);
  }

  /** The step that ends the run is one that leaves a database. */
  predicate EndsLeaving(s: Import, file: seq<byte>, kind: StreamKind, answers: seq<Answers>)
    requires Installing(s, file) && |file| <= MAX_INT32
    requires kind.NoFile? ==> GoodDatabase(file)
    decreases |answers|
  {
    answers != [] && !s.state.InstallDone?
    && (StepInstalling(s, file, kind, answers[0]);
        var t := Step(s, file, kind, answers[0]);
        if t.state.InstallDone? then LeavesDatabase(s, file, kind, answers[0])
        else EndsLeaving(t, file, kind, answers[1..]))
  }

  /** A run that ends with an error leaves a database exactly when its last step is such a step: the complete
      one, still open, after the end step, or an empty one after the first. */
  lemma {:induction false} RunLeavesDatabase(s: Import, file: seq<byte>, kind: StreamKind, answers: seq<Answers>)
    requires WholeOrNothing(s, file) && |file| <= MAX_INT32 && !s.state.InstallDone?
    requires kind.NoFile? ==> GoodDatabase(file)
    ensures var r := Steps(s, file, kind, answers);
            r.state.InstallDone? && r.error != ErrNone ==>
              && (r.database != NoDatabase <==> EndsLeaving(s, file, kind, answers))
              && (r.database != NoDatabase ==>
                    r.database == EMPTY || (GoodDatabase(file) && Holds(r, Items(file, NumRecords(file)))))
    decreases |answers|
  {
    hide Step, Items, LeavesDatabase, Installing;
    if answers != [] {
      FailureLeavesDatabase(s, file, kind, answers[0]);
      StepWholeOrNothing(s, file, kind, answers[0]);
      var t := Step(s, file, kind, answers[0]);
      if t.state.InstallDone? {
        StepsDone(t, file, kind, answers[1..]);
      } else {
        RunLeavesDatabase(t, file, kind, answers[1..]);
      }
    }
  }

  lemma StepsDone(s: Import, file: seq<byte>, kind: StreamKind, answers: seq<Answers>)
    requires Installing(s, file) && |file| <= MAX_INT32 && s.state.InstallDone?
    requires kind.NoFile? ==> GoodDatabase(file)
    ensures Steps(s, file, kind, answers) == s
  {
  }

  // ---------------------------------------------------------------------------
  // Refusals without a reason

  /** The device refuses room for an entry and gives no reason. The code deletes the database, sees no error,
      and takes the step again without one. */
  predicate Abandons(s: Import, file: seq<byte>, a: Answers) {
    && s.state.InstallMiddle? && GoodDatabase(file) && s.currentEntry < NumRecords(file)
    && (EntryItem(file, s.currentEntry).Resource? || EntryItem(file, s.currentEntry).data != [])
    && !a.newHandle && a.lastErr == 0
  }

  predicate EverAbandons(s: Import, file: seq<byte>, kind: StreamKind, answers: seq<Answers>)
    requires Installing(s, file) && |file| <= MAX_INT32
    requires kind.NoFile? ==> GoodDatabase(file)
    decreases |answers|
  {
    answers != [] && !s.state.InstallDone?
    && (Abandons(s, file, answers[0])
        || (StepInstalling(s, file, kind, answers[0]);
            EverAbandons(Step(s, file, kind, answers[0]), file, kind, answers[1..])))
  }

  lemma StepAbandons(s: Import, file: seq<byte>, kind: StreamKind, a: Answers)
    requires WholeOrNothing(s, file) && |file| <= MAX_INT32 && !s.state.InstallDone?
    requires kind.NoFile? ==> GoodDatabase(file)
    ensures Abandons(s, file, a) ==> s.state.InstallMiddle?
    ensures Step(s, file, kind, a).state.InstallStart? ==> s.state.InstallStart?
    ensures var t := Step(s, file, kind, a);
            t.error == ErrNone && !t.state.InstallStart? ==>
              (t.dbID == 0 <==> Abandons(s, file, a) || (!s.state.InstallStart? && s.dbID == 0))
  {
    hide GoodDatabase, DatabaseError, HasAppInfo, NumRecords, EntryData, IsResources, ModificationNumber, Items;
    GoodIffNoError(file);
  }

  /** An install that reports success has installed the whole file, except exactly when some refusal came
      without a reason: then it has installed nothing. */
  lemma {:induction false} SuccessIsWhole(s: Import, file: seq<byte>, kind: StreamKind, answers: seq<Answers>)
    requires WholeOrNothing(s, file) && |file| <= MAX_INT32 && !s.state.InstallDone?
    requires kind.NoFile? ==> GoodDatabase(file)
    ensures var r := Steps(s, file, kind, answers);
            var lost := EverAbandons(s, file, kind, answers) || (!s.state.InstallStart? && s.dbID == 0);
            r.state.InstallDone? && r.error == ErrNone ==>
              && GoodDatabase(file)
              && (lost <==> Abandoned(r)) && (!lost <==> Installed(r, file))
    decreases |answers|
  {
    hide Step, Items, Abandons, Installing, GoodDatabase;
    if answers != [] {
      StepAbandons(s, file, kind, answers[0]);
      StepWholeOrNothing(s, file, kind, answers[0]);
      var t := Step(s, file, kind, answers[0]);
      if t.state.InstallDone? {
        StepsDone(t, file, kind, answers[1..]);
      } else {
        StepError(s, file, kind, answers[0]);
        SuccessIsWhole(t, file, kind, answers[1..]);
      }
    }
  }

  lemma StepError(s: Import, file: seq<byte>, kind: StreamKind, a: Answers)
    requires Installing(s, file) && |file| <= MAX_INT32
    requires kind.NoFile? ==> GoodDatabase(file)
    ensures var t := Step(s, file, kind, a); !t.state.InstallDone? ==> t.error == ErrNone
  {
  }

  /** Steps still to go when nothing fails. */
  function Remaining(s: Import, file: seq<byte>): int
    requires HasHeader(file)
  {
    match s.state
    case InstallStart => NumRecords(file) + 2
    case InstallMiddle => NumRecords(file) - s.currentEntry + 1
    case InstallEnd => 1
    case InstallDone => 0
  }

  lemma StepSucceeds(s: Import, file: seq<byte>, kind: StreamKind, a: Answers)
    requires WholeOrNothing(s, file) && |file| <= MAX_INT32 && GoodDatabase(file)
    requires s.error == ErrNone && !s.state.InstallDone? && Succeeds(a) && !kind.OtherFile?
    requires !s.state.InstallStart? ==> s.dbID != 0
    ensures var t := Step(s, file, kind, a);
            && WholeOrNothing(t, file) && t.error == ErrNone && Remaining(t, file) == Remaining(s, file) - 1
            && !t.state.InstallStart? && t.dbID != 0
  {
    hide EntryItem, GoodDatabase, DatabaseError, HasAppInfo, Items;
    GoodIffNoError(file);
    StepWholeOrNothing(s, file, kind, a);
  }

  /** A good file, a device that grants every request: after exactly two steps more than there are entries
      the install is done, and not before; the database holds the file's entries. */
  lemma {:induction false} SuccessfulRun(s: Import, file: seq<byte>, kind: StreamKind, answers: seq<Answers>)
    requires WholeOrNothing(s, file) && |file| <= MAX_INT32 && GoodDatabase(file)
    requires s.error == ErrNone && !kind.OtherFile?
    requires !s.state.InstallStart? ==> s.dbID != 0
    requires forall a :: a in answers ==> Succeeds(a)
    ensures var r := Steps(s, file, kind, answers);
            && r.error == ErrNone
            && (r.state.InstallDone? <==> |answers| >= Remaining(s, file))
            && (r.state.InstallDone? ==> Installed(r, file))
    decreases |answers|
  {
    hide Step, Items, GoodDatabase;
    if answers != [] && !s.state.InstallDone? {
      assert answers[0] in answers;
      StepSucceeds(s, file, kind, answers[0]);
      SuccessfulRun(Step(s, file, kind, answers[0]), file, kind, answers[1..]);
    }
  }

  lemma InstallsWholeFile(file: seq<byte>, kind: StreamKind, slices: seq<seq<Answers>>)
    requires |file| <= MAX_INT32 && GoodDatabase(file) && !kind.OtherFile?
    requires forall a :: a in Flatten(slices) ==> Succeeds(a)
    requires |Flatten(slices)| >= NumRecords(file) + 2
    ensures Boundary(file, 0) <= |file|
    ensures var r := Slices(BEGINNING, file, kind, slices);
            && r.state.InstallDone? && r.error == ErrNone && Installed(r, file)
            && AllData(r.database.items) == file[Boundary(file, 0)..]
  {
    hide Items, Steps, Slices, Boundary, GoodName, GoodEntries;
    SlicingIrrelevant(BEGINNING, file, kind, slices);
    SuccessfulRun(BEGINNING, file, kind, Flatten(slices));
    ItemsTileFile(file, NumRecords(file));
    LastBoundary(file);
  }

  lemma LastBoundary(file: seq<byte>)
    requires HasTable(file)
    ensures Boundary(file, NumRecords(file)) == |file|
  {
  }

  /** Every step taken was the first one, however often. */
  predicate EverInFirstStep(s: Import, file: seq<byte>, kind: StreamKind, answers: seq<Answers>)
    requires Installing(s, file) && |file| <= MAX_INT32
    requires kind.NoFile? ==> GoodDatabase(file)
    decreases |answers|
  {
    answers == [] || s.state.InstallDone?
    || (s.state.InstallStart?
        && (StepInstalling(s, file, kind, answers[0]);
            EverInFirstStep(Step(s, file, kind, answers[0]), file, kind, answers[1..])))
  }

  lemma StrayStep(s: Import, file: seq<byte>, kind: StreamKind, a: Answers)
    requires WholeOrNothing(s, file) && |file| <= MAX_INT32 && !s.state.InstallDone?
    requires kind.NoFile? ==> GoodDatabase(file)
    ensures var t := Step(s, file, kind, a);
            && (t.dbID == 0 && t.database != NoDatabase ==> s.state.InstallStart? && t.currentEntry == 0)
            && (t.state.InstallStart? ==> s.state.InstallStart?)
  {
    hide GoodDatabase, DatabaseError, HasAppInfo, NumRecords, EntryData, IsResources, ModificationNumber, Items;
    GoodIffNoError(file);
  }

  /** A database that nothing knows of comes from the first step, and no other step has been taken. */
  lemma {:induction false} StrayFromFirstStep(s: Import, file: seq<byte>, kind: StreamKind, answers: seq<Answers>)
    requires WholeOrNothing(s, file) && |file| <= MAX_INT32 && !s.state.InstallDone?
    requires kind.NoFile? ==> GoodDatabase(file)
    ensures var r := Steps(s, file, kind, answers);
            r.dbID == 0 && r.database != NoDatabase ==>
              r.currentEntry == 0 && s.state.InstallStart? && EverInFirstStep(s, file, kind, answers)
    decreases |answers|
  {
    hide Step, Items, GoodDatabase;
    if answers != [] {
      StepWholeOrNothing(s, file, kind, answers[0]);
      StrayStep(s, file, kind, answers[0]);
      var t := Step(s, file, kind, answers[0]);
      if t.state.InstallDone? {
        StepsDone(t, file, kind, answers[1..]);
      } else {
        StrayFromFirstStep(t, file, kind, answers[1..]);
      }
    }
  }

  /** Cancelling, whenever it comes, deletes what a run has installed, complete or not; at most the empty
      database that could not be found stays behind, and that only if the run is still at its first step, which is
      to be taken again, or has ended with it. */
  lemma CancelledRun(file: seq<byte>, kind: StreamKind, answers: seq<Answers>)
    requires |file| <= MAX_INT32
    requires kind.NoFile? ==> GoodDatabase(file)
    ensures var r := Steps(BEGINNING, file, kind, answers);
            var c := Cancelled(r);
            && c.state.InstallDone? && c.error == r.error && Unknown(c)
            && (c.database != NoDatabase <==> r.dbID == 0 && r.database != NoDatabase)
            && (c.database != NoDatabase ==>
                  r.currentEntry == 0 && (r.state.InstallStart? || (r.state.InstallDone? && r.error != ErrNone)))
            && (c.database != NoDatabase ==> EverInFirstStep(BEGINNING, file, kind, answers))
  {
    hide Steps, GoodDatabase, Items, EverInFirstStep;
    RunWholeOrNothing(BEGINNING, file, kind, answers);
    StrayFromFirstStep(BEGINNING, file, kind, answers);
  }

  // ---------------------------------------------------------------------------
  // Inputs that lead to each of the exceptional outcomes

  /** A record database without entries, and one with a single record of one byte. */
  const NO_ENTRIES: seq<byte> := seq(78, _ => 0)
  const ONE_RECORD: seq<byte> := seq(87, i requires 0 <= i < 87 => if i == 77 then 1 else if i == 81 then 86 else 0)

  const GRANTED := Answers(true, false, 0, 0, 1, 0, 1, true, 0, true, 0, 0, 0, 0)

  lemma NoEntriesIsGood()
    ensures |NO_ENTRIES| <= MAX_INT32
    ensures GoodDatabase(NO_ENTRIES) && NumRecords(NO_ENTRIES) == 0 && !HasAppInfo(NO_ENTRIES)
  {
    assert NO_ENTRIES[0] == 0;
  }

  lemma OneRecordIsGood()
    ensures GoodDatabase(ONE_RECORD) && NumRecords(ONE_RECORD) == 1 && !HasAppInfo(ONE_RECORD)
    ensures EntryItem(ONE_RECORD, 0).Record? && EntryItem(ONE_RECORD, 0).data != []
  {
    assert ONE_RECORD[0] == 0;
    assert LocalChunkID(ONE_RECORD, 0) == 86;
    assert Boundary(ONE_RECORD, 0) == 86 && Boundary(ONE_RECORD, 1) == 87;
    assert InOrder(ONE_RECORD, 0);
    assert |EntryData(ONE_RECORD, 0)| == 1;
  }

  lemma StartGranted(file: seq<byte>)
    requires GoodDatabase(file) && |file| <= MAX_INT32 && !HasAppInfo(file)
    ensures Installing(BEGINNING, file)
    ensures Step(BEGINNING, file, NoFile, GRANTED)
            == Import(if NumRecords(file) > 0 then InstallMiddle else InstallEnd, ErrNone, 0, 1, 1,
                      Database([], ModificationNumber(file), true))
  {
    hide GoodDatabase, NumRecords, HasAppInfo, ModificationNumber;
  }

  /** The end step is refused: the complete database stays, open. */
  lemma LeftOpen()
    ensures Installing(BEGINNING, NO_ENTRIES) && GoodDatabase(NO_ENTRIES)
    ensures var r := Steps(BEGINNING, NO_ENTRIES, NoFile, [GRANTED, GRANTED.(setNumberErr := 1)]);
            r.state.InstallDone? && r.error == PalmError(1) && Holds(r, Items(NO_ENTRIES, NumRecords(NO_ENTRIES)))
  {
    NoEntriesIsGood();
    StartGranted(NO_ENTRIES);
    NoItems(NO_ENTRIES);
    hide GoodDatabase, NumRecords, HasAppInfo, ModificationNumber, Items, NO_ENTRIES, AfterStart, Steps;
    TwoSteps(BEGINNING, NO_ENTRIES, NoFile, [GRANTED, GRANTED.(setNumberErr := 1)]);
  }

  /** The new database is not found: it stays, empty and unknown. */
  lemma LeftEmpty()
    ensures Installing(BEGINNING, NO_ENTRIES) && GoodDatabase(NO_ENTRIES)
    ensures var r := Steps(BEGINNING, NO_ENTRIES, NoFile, [GRANTED.(newDBID := 0, lastErr := 1)]);
            r.state.InstallDone? && r.error == PalmError(1) && r.dbID == 0 && r.database == EMPTY
  {
    NoEntriesIsGood();
    hide GoodDatabase, NumRecords, HasAppInfo, NO_ENTRIES;
    StepsOne(BEGINNING, NO_ENTRIES, NoFile, GRANTED.(newDBID := 0, lastErr := 1));
  }

  /** Room for the record is refused without a reason: the install ends without an error and without a database. */
  lemma LostInSilence()
    ensures Installing(BEGINNING, ONE_RECORD) && GoodDatabase(ONE_RECORD)
    ensures var r := Steps(BEGINNING, ONE_RECORD, NoFile, [GRANTED, GRANTED.(newHandle := false), GRANTED, GRANTED]);
            r.state.InstallDone? && r.error == ErrNone && r.database == NoDatabase
  {
    OneRecordIsGood();
    var file, refused := ONE_RECORD, GRANTED.(newHandle := false);
    StartGranted(file);
    hide GoodDatabase, NumRecords, HasAppInfo, ModificationNumber, ONE_RECORD, AfterStart, Steps, EntryItem, EntryData;
    var a := [GRANTED, refused, GRANTED, GRANTED];
    var s1 := Step(BEGINNING, file, NoFile, GRANTED);
    var s2 := Step(s1, file, NoFile, refused);
    assert s2 == s1.(dbID := 0, openID := 0, database := NoDatabase);
    TwoSteps(BEGINNING, file, NoFile, a);
    assert a[2..] == [GRANTED, GRANTED];
    TwoSteps(s2, file, NoFile, a[2..]);
  }

  lemma StepsOne(s: Import, file: seq<byte>, kind: StreamKind, a: Answers)
    requires Installing(s, file) && |file| <= MAX_INT32 && !s.state.InstallDone?
    requires kind.NoFile? ==> GoodDatabase(file)
    ensures Steps(s, file, kind, [a]) == Step(s, file, kind, a)
  {
    hide Step, Installing;
    StepInstalling(s, file, kind, a);
  }

  lemma TwoSteps(s: Import, file: seq<byte>, kind: StreamKind, answers: seq<Answers>)
    requires Installing(s, file) && |file| <= MAX_INT32 && |answers| >= 2
    requires kind.NoFile? ==> GoodDatabase(file)
    requires !s.state.InstallDone? && !Step(s, file, kind, answers[0]).state.InstallDone?
    ensures Installing(Step(s, file, kind, answers[0]), file)
    ensures var t := Step(Step(s, file, kind, answers[0]), file, kind, answers[1]);
            Installing(t, file) && Steps(s, file, kind, answers) == Steps(t, file, kind, answers[2..])
            && (|answers| == 2 ==> Steps(s, file, kind, answers) == t)
  {
    hide Step, Installing;
    StepInstalling(s, file, kind, answers[0]);
    StepInstalling(Step(s, file, kind, answers[0]), file, kind, answers[1]);
    assert answers[1..][1..] == answers[2..];
  }

  // ---------------------------------------------------------------------------
  // The object

  class FileImport {
    const stream: seq<byte>
    const kind: StreamKind
    var state: InstallState
    var error: ErrCode
    var fileBuffer: seq<byte>
    var currentEntry: nat
    var dbID: uint32
    var openID: uint32
    // The device's side of the install.
    var database: Database

    function Abstract(): Import
      reads this
    {
      Import(state, error, currentEntry, dbID, openID, database)
    }

    /** Once past the first step the buffer holds the file. */
    ghost predicate Valid()
      reads this
    {
      && |stream| <= MAX_INT32
      && (kind.NoFile? ==> GoodDatabase(stream))
      && Installing(Abstract(), stream)
      && (state.InstallMiddle? || state.InstallEnd? ==> fileBuffer == stream)
    }

    constructor (stream: seq<byte>, kind: StreamKind)
      requires |stream| <= MAX_INT32
      requires kind.NoFile? ==> GoodDatabase(stream)
      ensures Valid() && this.stream == stream && this.kind == kind && Abstract() == BEGINNING
    {
      this.stream, this.kind := stream, kind;
      state, error, fileBuffer := InstallStart, ErrNone, [];
      currentEntry, dbID, openID, database := 0, 0, 0, NoDatabase;
    }

    method SetResult(err: uint16)
      modifies this`error
      ensures error == if err == 0 then ErrNone else PalmError(err)
    {
      error := if err == 0 then ErrNone else PalmError(err);
    }

    method DeleteCurrentDatabase()
      modifies this`dbID, this`openID, this`database
      ensures Abstract() == Discarded(old(Abstract()))
    {
      if openID != 0 {
        openID := 0;
      }
      if dbID != 0 {
        database := NoDatabase;
        dbID := 0;
      }
    }

    /** The `Error` exit of the install steps. */
    method Fail(err: uint16)
      modifies this`dbID, this`openID, this`database, this`error
      ensures Abstract() == Failed(old(Abstract()), err)
    {
      DeleteCurrentDatabase();
      SetResult(err);
    }

    method ValidateStream()
      requires |stream| <= MAX_INT32
      modifies this`error
      ensures error == if kind.NoFile? then old(error) else StreamError(stream, kind)
    {
      if kind.NoFile? {
        return;
      }
      if kind.DatabaseFile? {
        error := ValidateDatabase(stream);
      } else {
        error := UnknownType;
      }
    }

    method HomeBrewInstallStart(a: Answers)
      requires Valid() && state.InstallStart? && error == ErrNone
      modifies this
      ensures Abstract() == AfterStart(old(Abstract()), stream, kind, a)
      ensures state != InstallStart ==> fileBuffer == stream
    {
      hide DatabaseError, GoodEntries, GoodName;
      GoodIffNoError(stream);
      ValidateStream();
      if error != ErrNone {
        return;
      }
      dbID := 0;
      openID := 0;
      if !a.allocates {
        error := OutOfMemory;
        return;
      }
      fileBuffer := stream;
      var err: uint16 := 0;
      if a.findsOld {
        err := a.deleteOldErr;
        if err != 0 && err != DM_ERR_ROM_BASED {
          Fail(err);
          return;
        }
        database := if err == 0 then NoDatabase else database;
      }
      err := a.createErr;
      if err != 0 {
        Fail(err);
        return;
      }
      database := EMPTY;
      dbID := a.newDBID;
      if dbID == 0 {
        Fail(a.lastErr);
        return;
      }
      err := a.setInfoErr;
      if err != 0 {
        Fail(err);
        return;
      }
      openID := a.newOpenID;
      if openID == 0 {
        Fail(a.lastErr);
        return;
      }
      database := Database([], ModificationNumber(fileBuffer), true);
      if HasAppInfo(fileBuffer) {
        if !a.newAppInfo {
          Fail(a.lastErr);
          return;
        }
        err := a.appInfoErr;
        if err != 0 {
          Fail(err);
          return;
        }
      }
      state := if NumRecords(fileBuffer) > 0 then InstallMiddle else InstallEnd;
    }

    /** The size of the current entry's data, in 32-bit arithmetic; for a good file nothing wraps. */
    method CurrentSize() returns (size: nat)
      requires Valid() && state.InstallMiddle?
      ensures size == |EntryData(stream, currentEntry)|
      ensures LocalChunkID(stream, currentEntry) + size <= |stream|
      ensures EntryData(stream, currentEntry)
              == stream[LocalChunkID(stream, currentEntry)..LocalChunkID(stream, currentEntry) + size]
    {
      hide LocalChunkID, NumRecords, GoodName, GoodEntries, EntryData, IsResources;
      EntryDataIs(stream, currentEntry);
      if currentEntry < NumRecords(fileBuffer) - 1 {
        size := (LocalChunkID(fileBuffer, currentEntry + 1) - LocalChunkID(fileBuffer, currentEntry)) % 0x1_0000_0000;
      } else {
        size := (|fileBuffer| - LocalChunkID(fileBuffer, currentEntry)) % 0x1_0000_0000;
      }
    }

    method HomeBrewInstallMiddle(a: Answers)
      requires Valid() && state.InstallMiddle?
      modifies this
      ensures Abstract() == AfterMiddle(old(Abstract()), stream, a)
      ensures fileBuffer == old(fileBuffer)
      ensures old(database.Database?) && database.Database? && database.items != old(database.items) ==>
                && |database.items| == |old(database.items)| + 1
                && database.items[..|old(database.items)|] == old(database.items)
                && Reproduces(stream, old(currentEntry), database.items[|old(database.items)|])
    {
      hide EntryData, LocalChunkID, NumRecords, GoodName, GoodEntries, ResourceName, Reproduces;
      EntryReproduced(stream, currentEntry);
      var size := CurrentSize();
      var start := LocalChunkID(fileBuffer, currentEntry);
      if IsResources(fileBuffer) {
        if !a.newHandle {
          if a.lastErr == DM_ERR_MEM_ERROR {
            DeleteCurrentDatabase();
            error := ResourceMemError;
            return;
          }
          Fail(a.lastErr);
          return;
        }
        AddItem(Resource(ResourceName(fileBuffer, currentEntry), fileBuffer[start..start + size]), a.bumpedNumber);
      } else if size != 0 {
        if !a.newHandle {
          if a.lastErr == DM_ERR_MEM_ERROR {
            DeleteCurrentDatabase();
            error := RecordMemError;
            return;
          }
          Fail(a.lastErr);
          return;
        }
        var at := EntryAt(fileBuffer, currentEntry);
        var id: nat := fileBuffer[at + 5];
        id := id * 0x100 + fileBuffer[at + 6];
        id := id * 0x100 + fileBuffer[at + 7];
        AddItem(Record(fileBuffer[at + 4], id, fileBuffer[start..start + size]), a.bumpedNumber);
        if a.setRecordErr != 0 {
          Fail(a.setRecordErr);
          return;
        }
      }
      currentEntry := currentEntry + 1;
      if currentEntry >= NumRecords(fileBuffer) {
        state := InstallEnd;
      }
    }

    /** The device's new resource or record, filled and released. */
    method AddItem(item: Item, number: uint32)
      modifies this`database
      ensures Abstract() == WithItem(old(Abstract()), item, number)
    {
      if database.Database? {
        database := Database(database.items + [item], number, database.isOpen);
      }
    }

    method HomeBrewInstallEnd(a: Answers)
      requires Valid() && state.InstallEnd?
      modifies this
      ensures Abstract() == AfterEnd(old(Abstract()), stream, a)
      ensures fileBuffer == old(fileBuffer)
    {
      if a.setNumberErr != 0 {
        SetResult(a.setNumberErr);
        return;
      }
      if database.Database? {
        database := Database(database.items, ModificationNumber(fileBuffer), false);
      }
      openID := 0;
      state := InstallDone;
    }

    method IncrementalInstall(a: Answers)
      requires Valid() && error == ErrNone
      modifies this
      ensures state.InstallMiddle? || state.InstallEnd? ==> fileBuffer == stream
      ensures Abstract().(state := if error != ErrNone then InstallDone else state)
              == Step(old(Abstract()), stream, kind, a)
    {
      hide AfterStart, AfterMiddle, AfterEnd;
      match state {
        case InstallStart => HomeBrewInstallStart(a);
        case InstallMiddle => HomeBrewInstallMiddle(a);
        case InstallEnd => HomeBrewInstallEnd(a);
        case InstallDone =>
      }
    }

    /** Installs for as long as the clock allows, here one step for each set of answers. */
    method Continue(answers: seq<Answers>) returns (err: ErrCode)
      requires Valid() && (error != ErrNone ==> state.InstallDone?)
        modifies this
      ensures Valid() && (error != ErrNone ==> state.InstallDone?)
      ensures Abstract() == Steps(old(Abstract()), stream, kind, answers)
      ensures err == error
    {
      hide Step, Installing;
      var i := 0;
      while i < |answers| && state != InstallDone
        invariant 0 <= i <= |answers|
        invariant Valid() && (error != ErrNone ==> state.InstallDone?)
        invariant Steps(Abstract(), stream, kind, answers[i..]) == Steps(old(Abstract()), stream, kind, answers)
      {
        var a := answers[i];
        assert answers[i..][0] == a && answers[i..][1..] == answers[i + 1..];
        StepInstalling(Abstract(), stream, kind, a);
        IncrementalInstall(a);
        if error != ErrNone {
          state := InstallDone;
        }
        i := i + 1;
      }
      err := error;
    }

    method Cancel() returns (err: ErrCode)
      requires Valid()
      modifies this
      ensures Abstract() == Cancelled(old(Abstract())) && err == error
    {
      DeleteCurrentDatabase();
      state := InstallDone;
      err := error;
    }
  }
}
