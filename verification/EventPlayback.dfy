/** The event recorder and player: a byte log, a mask and a cursor that walks the bytes. */
module EventPlayback {
  import opened Bytes
  import opened Byteswapping
  import opened Streams
  import opened Events
  import opened EventStreams
  import opened Replay

  datatype IterationState = IterationState(index: int, offset: int, penIsDown: bool)

  const FIRST := IterationState(0, 0, false)

  /** A saved event history: the version word, the length word, and the bytes. */
  const CURRENT_VERSION: uint32 := 1

  function History(bytes: seq<byte>): seq<byte>
    requires |bytes| <= MAX_INT32
  {
    BigEndian32(CURRENT_VERSION) + BigEndian32(|bytes|) + bytes
  }

  class EventPlayback {
    const host: ByteOrder
    const events: Chunk
    var mask: seq<bool>
    var recording: bool
    var replaying: bool
    var iteration: IterationState
    var previous: IterationState
    // What has been handed to the step reporter, in order: all of it, what came before the last rewinding,
    // and the deliveries since.
    var reported: seq<Event>
    ghost var earlier: seq<Event>
    ghost var deliveries: seq<Delivery>
    // A load has failed since the last clear, cull or successful load.
    ghost var loadFailed: bool

    /** The log can be walked, and every event of it has a mask bit. */
    ghost predicate Valid()
      reads this, events, events.ptr
    {
      && events.Valid()
      && WellFormed(events.Contents())
      && |Log()| <= |mask|
      && (!loadFailed <==> |mask| == |Log()|)
    }

    ghost function Log(): seq<Event>
      reads this, events, events.ptr
      requires events.Valid() && WellFormed(events.Contents())
    {
      Parse(events.Contents())
    }

    /** The byte cursor stands at the record its index names. */
    ghost predicate CursorValid()
      reads this, events, events.ptr
      requires Valid()
    {
      0 <= iteration.index <= |Log()| && iteration.offset == Offset(events.Contents(), iteration.index)
    }

    ghost predicate Consistent()
      reads this
    {
      reported == earlier + Payloads(deliveries)
    }

    /** Every event of the log is as this code stores events. */
    ghost predicate LogSettled()
      reads this, events, events.ptr
      requires Valid()
    {
      AllSettled(Log())
    }

    /** Since the last rewinding every enabled event below the cursor has been delivered, once and in order. */
    ghost predicate NothingLost()
      reads this, events, events.ptr
      requires Valid() && CursorValid()
    {
      Lossless(Log(), mask, Abstract())
    }

    /** The list-level state that the byte-level player refines. */
    ghost function Abstract(): Machine
      reads this, events, events.ptr
      requires Valid() && CursorValid()
    {
      Machine(iteration.index, iteration.penIsDown, replaying, deliveries)
    }

    constructor (host: ByteOrder)
      ensures Valid() && CursorValid() && Consistent() && fresh(events) && fresh(events.ptr)
      ensures Log() == [] && Abstract() == START.(replaying := false) && !recording && reported == []
      ensures events.Contents() == [] && mask == [] && !loadFailed
      ensures LogSettled() && NothingLost()
    {
      this.host := host;
      events := new Chunk();
      mask := [];
      recording, replaying := false, false;
      iteration, previous := FIRST, FIRST.(offset := -1);
      reported, earlier, deliveries, loadFailed := [], [], [], false;
    }

    /** Rewinds: from here on the deliveries of a new replay are gathered. */
    method ResetPlayback()
      modifies this`iteration, this`previous, this`earlier, this`deliveries
      ensures iteration == FIRST && previous.offset == -1
      ensures deliveries == [] && earlier == reported && Consistent()
      ensures Valid() ==> CursorValid() && Abstract() == START.(replaying := replaying) && NothingLost()
    {
      iteration := FIRST;
      previous := previous.(offset := -1);
      earlier, deliveries := reported, [];
      if Valid() {
        StartLossless(Log(), mask, replaying);
      }
    }

    method Reset()
      modifies this`iteration, this`previous, this`recording, this`replaying, this`earlier, this`deliveries
      ensures iteration == FIRST && !recording && !replaying
      ensures Consistent() && (Valid() ==> CursorValid() && NothingLost())
    {
      recording, replaying := false, false;
      ResetPlayback();
    }

    method Clear()
      requires Valid()
      modifies this, events
      ensures Valid() && CursorValid() && Consistent() && NothingLost() && LogSettled() && !loadFailed
      ensures Log() == [] && events.Contents() == [] && mask == [] && !recording && !replaying && iteration == FIRST
      ensures reported == old(reported) && deliveries == []
      ensures events.ptr == old(events.ptr) || fresh(events.ptr)
    {
      hide Lossless;
      events.SetLength(0);
      mask := [];
      recording, replaying := false, false;
      loadFailed := false;
      ResetPlayback();
    }

    method RecordEvents(record: bool)
      modifies this`recording
      ensures recording == record
    {
      recording := record;
    }

    /** Appends the event, enabled, when recording is on. */
    method RecordEvent(e: Event)
      requires Valid() && events.usedSize + 13 <= MAX_LENGTH
      modifies this`mask, events, events.ptr
      ensures Valid()
      ensures events.ptr == old(events.ptr) || fresh(events.ptr)
      ensures !recording ==> events.Contents() == old(events.Contents()) && mask == old(mask)
      ensures recording ==>
                && events.Contents() == old(events.Contents()) + Encode(e)
                && Log() == old(Log()) + [Stored(e)]
                && mask == old(mask) + [true]
      ensures old(CursorValid()) ==> CursorValid()
      ensures old(LogSettled()) ==> LogSettled()
    {
      hide Parse, WellFormed, Offset, Encode, Decode, RecordSize, HasRecord, Filter;
      if recording {
        ghost var before := events.Contents();
        var s := new StreamChunk(events, host);
        s.SetMarker(0, FromEnd);
        AppendEvent(s, e);
        ParseEncode(e);
        ParseAppend(before, Encode(e));
        mask := mask + [true];
        StoredKeepsKind(e);
      }
    }

    method RecordPenEvent(x: int16, y: int16)
      requires Valid() && events.usedSize + 13 <= MAX_LENGTH
      requires Recordable(Pen(x, y))
      modifies this`mask, events, events.ptr
      ensures Valid()
      ensures events.ptr == old(events.ptr) || fresh(events.ptr)
      ensures !recording ==> events.Contents() == old(events.Contents()) && mask == old(mask)
      ensures recording ==>
                && events.Contents() == old(events.Contents()) + Encode(Pen(x, y))
                && Log() == old(Log()) + [Stored(Pen(x, y))]
                && mask == old(mask) + [true]
      ensures old(CursorValid()) ==> CursorValid()
      ensures old(LogSettled()) ==> LogSettled()
    {
      RecordEvent(Pen(x, y));
    }

    method RecordErrorEvent()
      requires Valid() && events.usedSize + 13 <= MAX_LENGTH
      modifies this`mask, events, events.ptr
      ensures Valid()
      ensures events.ptr == old(events.ptr) || fresh(events.ptr)
      ensures !recording ==> events.Contents() == old(events.Contents()) && mask == old(mask)
      ensures recording ==>
                && events.Contents() == old(events.Contents()) + Encode(Error)
                && Log() == old(Log()) + [Error]
                && mask == old(mask) + [true]
      ensures old(CursorValid()) ==> CursorValid()
      ensures old(LogSettled()) ==> LogSettled()
    {
      RecordEvent(Error);
    }

    /** Walks the bytes from the cursor to the next event that passes the filter. */
    method GetNextReplayEvent() returns (found: bool, event: Event)
      requires Valid() && CursorValid()
      modifies this`iteration, this`previous
      ensures CursorValid()
      ensures previous == old(iteration)
      ensures var k := Next(Log(), mask, old(iteration.index), old(iteration.penIsDown));
              && (found <==> k < |Log()|)
              && (found ==> event == Log()[k] && iteration.index == k + 1)
              && (!found ==> iteration.index == |Log()|)
              && iteration.penIsDown == old(iteration.penIsDown)
    {
      hide Parse, WellFormed, Offset, Encode, Decode, RecordSize, HasRecord, Filter;
      ghost var b, log, first := events.Contents(), Log(), iteration.index;
      var s := new StreamChunk(events, host);
      ParseAtOffset(b, iteration.index);
      s.SetMarker(iteration.offset, FromStart);
      previous := iteration;
      event := Null;
      while s.marker < s.length
        invariant s.Valid() && s.chunk == events
        invariant CursorValid() && s.marker == iteration.offset
        invariant first <= iteration.index <= |log|
        invariant previous == old(iteration) && iteration.penIsDown == old(iteration.penIsDown)
        invariant forall j :: first <= j < iteration.index ==> !Keep(log[j], mask[j], iteration.penIsDown)
        decreases s.length - s.marker
      {
        ghost var k := iteration.index;
        ParseAtOffset(b, k);
        event := ReadEvent(s);
        var eventEnabled := mask[iteration.index];
        iteration := iteration.(index := iteration.index + 1, offset := s.marker);
        if IsPenUp(event) {
          if !iteration.penIsDown {
            continue;
          }
          NextUnique(log, mask, first, iteration.penIsDown, k);
          return true, event;
        }
        if eventEnabled {
          NextUnique(log, mask, first, iteration.penIsDown, k);
          return true, event;
        }
      }
      ParseAtOffset(b, iteration.index);
      NextUnique(log, mask, first, iteration.penIsDown, |log|);
      found := false;
    }

    /** Turning replay on starts the machine over, however many replays have gone before. */
    method ReplayEvents(replay: bool)
      modifies this`replaying, this`iteration, this`previous, this`earlier, this`deliveries
      ensures replaying == replay
      ensures iteration == if replay then FIRST else old(iteration)
      ensures replay ==> earlier == reported && Consistent()
      ensures replay && Valid() ==> CursorValid() && Abstract() == START && NothingLost()
      ensures !replay ==> deliveries == old(deliveries) && earlier == old(earlier)
    {
      replaying := replay;
      if replay {
        ResetPlayback();
      }
    }

    /** Hands out the next event; turns replay off at the end of the log. The result says whether
        something was posted to the device's event queue. */
    method ReplayGetEvent() returns (result: bool)
      requires Valid() && CursorValid() && Consistent()
      requires replaying
      modifies this`iteration, this`previous, this`replaying, this`reported, this`deliveries, this`earlier
      ensures CursorValid() && Consistent() && earlier == old(earlier)
      ensures Abstract() == AfterGetEvent(Log(), mask, old(Abstract()))
      ensures old(NothingLost()) ==> NothingLost()
      ensures result <==> |reported| > |old(reported)|
                          && (reported[|reported| - 1].Key? || reported[|reported| - 1].Pen?)
    {
      hide Parse, WellFormed, Offset, Next, Lossless;
      if NothingLost() {
        StepLossless(Log(), mask, Abstract(), ForEvent);
      }
      result := false;
      var found, event := GetNextReplayEvent();
      if found {
        iteration := iteration.(penIsDown := IsPenDown(event));
        match event {
          case Key(_, _, _) => result := true;
          case Pen(_, _) => result := true;
          case AppSwitch(_, _, _, _) => result := false;
          case Null => result := false;
          case Error => result := false;
        }
        deliveries := deliveries + [Logged(iteration.index - 1, event, ForEvent)];
        reported := reported + [event];
      } else {
        ReplayEvents(false);
      }
    }

    /** Hands out the next event if it is a pen event; otherwise pushes it back and makes up a pen-up.
        The ordinary branch leaves the pen state alone. */
    method ReplayGetPen() returns (result: bool)
      requires Valid() && CursorValid() && Consistent()
      requires replaying
      modifies this`iteration, this`previous, this`reported, this`deliveries
      ensures CursorValid() && Consistent()
      ensures Abstract() == AfterGetPen(Log(), mask, old(Abstract()))
      ensures old(NothingLost()) ==> NothingLost()
      ensures result
    {
      hide Parse, WellFormed, Offset, Next, Lossless;
      if NothingLost() {
        StepLossless(Log(), mask, Abstract(), ForPen);
      }
      var found, event := GetNextReplayEvent();
      ghost var delivery := Fabricated;
      if !found {
        event := Pen(-1, -1);
        iteration := iteration.(penIsDown := false);
      } else if !event.Pen? {
        assert previous.offset != -1;
        iteration := previous;
        previous := previous.(offset := -1);
        event := Pen(-1, -1);
        iteration := iteration.(penIsDown := false);
      } else {
        delivery := Logged(iteration.index - 1, event, ForPen);
      }
      deliveries := deliveries + [delivery];
      reported := reported + [event];
      result := true;
    }

    /** How many events a full replay would hand out now; the playback position is restored. */
    method CountEnabledEvents() returns (result: int)
      requires Valid()
      modifies this`iteration, this`previous
      ensures iteration == old(iteration)
      ensures result == |Filter(Log(), mask, 0, false)|
    {
      hide Parse, WellFormed, Offset, Filter, Pending;
      result := 0;
      var oldIterationState := iteration;
      iteration := FIRST;
      ghost var log, counted := Log(), [];
      ParseAtOffset(events.Contents(), 0);
      PendingFirst(log, mask);
      var found, event := GetNextReplayEvent();
      while found
        invariant CursorValid() && result == |counted|
        invariant Pending(log, mask, counted, found, event, iteration.index)
        decreases |log| - iteration.index, found
      {
        result := result + 1;
        ghost var done := counted;
        counted := counted + [event];
        found, event := ReplayOn(event, done);
      }
      PendingDone(log, mask, counted, event, iteration.index);
      iteration := oldIterationState;
    }

    method CountNumEvents() returns (result: int)
      requires events.Valid() && WellFormed(events.Contents())
      ensures result == |Log()|
    {
      hide Parse, WellFormed, Offset, Encode, Decode, RecordSize, HasRecord, Filter;
      result := 0;
      ghost var b := events.Contents();
      var s := new StreamChunk(events, host);
      ParseAtOffset(b, 0);
      while s.marker < s.length
        invariant fresh(s) && s.Valid() && s.chunk == events
        invariant 0 <= result <= |Log()| && s.marker == Offset(b, result)
        decreases s.length - s.marker
      {
        ParseAtOffset(b, result);
        var event := ReadEvent(s);
        result := result + 1;
      }
      ParseAtOffset(b, result);
    }

    /** Replaces the log by what the filter passes and enables all of it; the playback position is left behind. */
    method CullEvents()
      requires Valid() && events.usedSize + 13 <= MAX_LENGTH
      modifies this`mask, this`iteration, this`previous, this`loadFailed, this`earlier, this`deliveries
      modifies events, events.ptr
      ensures Valid() && !loadFailed && LogSettled()
      ensures Log() == Culled(old(Log()), old(mask))
      ensures mask == Enabled(|Log()|)
      ensures old(LogSettled()) ==> PenUpsFollowDowns(Log(), false) && Culled(Log(), mask) == Log()
      ensures events.usedSize <= old(events.usedSize)
      ensures events.ptr == old(events.ptr) || fresh(events.ptr)
    {
      hide Parse, WellFormed, EncodeAll, Filter, Culled, AllSettled, PenUpsFollowDowns;
      var newEvents := new Chunk();
      var s := new StreamChunk(newEvents, host);
      ResetPlayback();
      ParseAtOffset(events.Contents(), 0);
      CopyReplayedEvents(s);
      CulledBytes(Log(), mask);
      events.Assign(newEvents);
      var n := CountNumEvents();
      mask := Enabled(n);
      loadFailed := false;
    }

    /** The loop of `CullEvents`: a full replay, each event written to the stream instead of the device. */
    method CopyReplayedEvents(s: StreamChunk)
      requires Valid() && CursorValid() && events.usedSize + 13 <= MAX_LENGTH && iteration == FIRST
      requires s.Valid() && s.Contents() == [] && s.chunk != events && s.chunk.ptr != events.ptr
      modifies this`iteration, this`previous, s, s.chunk, s.chunk.ptr
      ensures s.Valid() && s.Contents() == EncodeAll(Filter(Log(), mask, 0, false))
      ensures s.chunk.ptr == old(s.chunk.ptr) || fresh(s.chunk.ptr)
      ensures s.length <= events.usedSize
    {
      hide Parse, WellFormed, Offset, Encode, Filter, Pending, Next;
      ghost var b, log := events.Contents(), Log();
      ghost var kept := [];
      PendingFirst(log, mask);
      var found, event := GetNextReplayEvent();
      CursorAdvances(b, 0, iteration.index, found);
      while found
        invariant unchanged(events) && unchanged(events.ptr) && CursorValid()
        invariant s.Valid() && s.Contents() == EncodeAll(kept) && s.marker == s.length
        invariant s.chunk.ptr == old(s.chunk.ptr) || fresh(s.chunk.ptr)
        invariant iteration.offset <= |b|
        invariant Pending(log, mask, kept, found, event, iteration.index)
        invariant s.length + (if found then |Encode(event)| else 0) <= iteration.offset
        decreases |log| - iteration.index, found
      {
        AppendEvent(s, event);
        EncodeAllAppend(kept, event);
        ghost var done := kept;
        kept := kept + [event];
        found, event := ReplayOn(event, done);
      }
      PendingDone(log, mask, kept, event, iteration.index);
    }

    /** Lets the pen state follow the event in hand and fetches the next one. */
    method ReplayOn(event: Event, ghost done: seq<Event>) returns (found: bool, next: Event)
      requires Valid() && CursorValid()
      requires Pending(Log(), mask, done, true, event, iteration.index)
      modifies this`iteration, this`previous
      ensures CursorValid()
      ensures Pending(Log(), mask, done + [event], found, next, iteration.index)
      ensures iteration.index >= old(iteration.index) && (found ==> iteration.index > old(iteration.index))
      ensures old(iteration.offset) <= iteration.offset <= |events.Contents()|
      ensures found ==> old(iteration.offset) + |Encode(next)| <= iteration.offset
    {
      hide Parse, WellFormed, Offset, Encode, Filter, Pending;
      PendingNext(Log(), mask, done, event, iteration.index);
      ghost var from := iteration.index;
      iteration := iteration.(penIsDown := IsPenDown(event));
      found, next := GetNextReplayEvent();
      CursorAdvances(events.Contents(), from, iteration.index, found);
    }

    method GetNumEvents() returns (result: int)
      requires Valid()
      ensures result == |mask| && if loadFailed then result > |Log()| else result == |Log()|
    {
      result := |mask|;
    }

    /** The event at `index`; past the end the last event, and before the start (or in an empty log) the argument. */
    method GetEvent(index: int, initial: Event) returns (event: Event)
      requires Valid()
      ensures event == if index < 0 || Log() == [] then initial
                       else if index < |Log()| then Log()[index] else Log()[|Log()| - 1]
    {
      hide Parse, WellFormed, Offset, Encode, Decode, RecordSize, HasRecord, Filter;
      event := initial;
      ghost var b, log := events.Contents(), Log();
      ghost var k := 0;
      var s := new StreamChunk(events, host);
      var countdown := index;
      ParseAtOffset(b, 0);
      while countdown >= 0 && s.marker < s.length
        invariant fresh(s) && s.Valid() && s.chunk == events
        invariant 0 <= k <= |log| && s.marker == Offset(b, k)
        invariant countdown == index - k && (k > 0 ==> countdown >= -1)
        invariant event == if k == 0 then initial else log[k - 1]
        decreases s.length - s.marker
      {
        ParseAtOffset(b, k);
        countdown := countdown - 1;
        event := ReadEvent(s);
        k := k + 1;
      }
      ParseAtOffset(b, k);
    }

    method EnableEvents(begin: int, end: int)
      requires Valid()
      modifies this`mask
      ensures Valid() && |mask| == |old(mask)|
      ensures forall i :: 0 <= i < |mask| ==> mask[i] == (old(mask)[i] || begin <= i < end)
      ensures old(CursorValid()) ==> CursorValid()
    {
      SetMask(begin, end, true);
    }

    method DisableEvents(begin: int, end: int)
      requires Valid()
      modifies this`mask
      ensures Valid() && |mask| == |old(mask)|
      ensures forall i :: 0 <= i < |mask| ==> mask[i] == (old(mask)[i] && !(begin <= i < end))
      ensures old(CursorValid()) ==> CursorValid()
    {
      SetMask(begin, end, false);
    }

    /** The loop shared by `EnableEvents` and `DisableEvents`: the range is clipped to the mask. */
    method SetMask(begin: int, end: int, value: bool)
      requires Valid()
      modifies this`mask
      ensures Valid() && |mask| == |old(mask)|
      ensures forall i :: 0 <= i < |mask| ==> mask[i] == if begin <= i < end then value else old(mask)[i]
    {
      var first := if begin < 0 then 0 else begin;
      var last := if end > |mask| then |mask| else end;
      var ii := first;
      while ii < last
        invariant first <= ii
        invariant |mask| == |old(mask)|
        invariant forall i :: 0 <= i < |mask| ==> mask[i] == if first <= i < ii && i < last then value else old(mask)[i]
      {
        mask := mask[ii := value];
        ii := ii + 1;
      }
    }

    /** The index of the first error event, -1 when there is none. */
    method FindFirstError() returns (result: int)
      requires Valid()
      ensures -1 <= result < |Log()|
      ensures result >= 0 ==> Log()[result].Error?
      ensures forall j :: 0 <= j < (if result < 0 then |Log()| else result) ==> !Log()[j].Error?
    {
      hide Parse, WellFormed, Offset, Encode, Decode, RecordSize, HasRecord, Filter;
      result := 0;
      ghost var b, log := events.Contents(), Log();
      ParseAtOffset(b, 0);
      var s := new StreamChunk(events, host);
      while s.marker < s.length
        invariant fresh(s) && s.Valid() && s.chunk == events
        invariant 0 <= result <= |log| && s.marker == Offset(b, result)
        invariant forall j :: 0 <= j < result ==> !log[j].Error?
        decreases s.length - s.marker
      {
        ParseAtOffset(b, result);
        var event := ReadEvent(s);
        if event.Error? {
          return;
        }
        result := result + 1;
      }
      ParseAtOffset(b, result);
      result := -1;
    }

    method SaveEvents() returns (saved: seq<byte>)
      requires Valid() && events.usedSize + 8 <= MAX_LENGTH
      ensures saved == History(events.Contents())
    {
      hide Parse, WellFormed, BigEndian32, Splice;
      var bytes := events.ptr[..events.usedSize];
      var chunk := new Chunk();
      var s := new StreamChunk(chunk, host);
      s.PutUInt32(CURRENT_VERSION);
      SpliceAtEnd([], BigEndian32(CURRENT_VERSION));
      assert s.Contents() == BigEndian32(CURRENT_VERSION);
      PutCounted(s, bytes);
      saved := chunk.ptr[..chunk.usedSize];
    }

    /** Empties the log first; when the session holds no history the old mask stays behind. */
    method LoadEvents(session: Session)
      requires Valid()
      requires session.Saved? ==> IsHistory(session.history)
      modifies this`mask, this`loadFailed, events, events.ptr
      ensures Valid()
      ensures events.ptr == old(events.ptr) || fresh(events.ptr)
      ensures session.Saved? ==>
                !loadFailed && events.Contents() == SavedBytes(session.history) && mask == Enabled(|Log()|)
      ensures session.Saved? && AllSettled(Parse(SavedBytes(session.history))) ==> LogSettled()
      ensures session.Unsaved? ==>
                Log() == [] && LogSettled() && mask == old(mask) && loadFailed == (old(loadFailed) || mask != [])
    {
      hide Parse, WellFormed;
      events.SetLength(0);
      ParseEmpty();
      if session.Saved? {
        ExtractHistory(session.history);
        var n := CountNumEvents();
        mask := Enabled(n);
        loadFailed := false;
      } else {
        loadFailed := loadFailed || mask != [];
      }
    }

    /** Reads the version and the counted bytes of a saved history into the event chunk. */
    method ExtractHistory(history: seq<byte>)
      requires events.Valid() && IsHistory(history)
      modifies events, events.ptr
      ensures events.Valid() && events.Contents() == SavedBytes(history)
      ensures events.ptr == old(events.ptr) || fresh(events.ptr)
    {
      hide WellFormed, FromBigEndian32;
      var chunk := ChunkHolding(history);
      var s := new StreamChunk(chunk, host);
      var version := s.GetUInt32();
      assert s.Rest() == history[4..];
      FrontOfHistory(history, FromBigEndian32(history[4..8]));
      ReadCounted(s, events);
    }
  }

  /** The failing load: after one recorded event the mask keeps its bit while the log is empty. */
  method FailedLoad(host: ByteOrder, e: Event) returns (bits: int, events: int)
    ensures bits == 1 && events == 0
  {
    hide Parse, WellFormed;
    var playback := new EventPlayback(host);
    playback.RecordEvents(true);
    playback.RecordEvent(e);
    playback.LoadEvents(Unsaved);
    bits := playback.GetNumEvents();
    events := playback.CountNumEvents();
  }

  lemma FrontOfHistory(h: seq<byte>, n: nat)
    requires 8 + n <= |h|
    ensures h[4..][..4] == h[4..8] && h[4..][4..4 + n] == h[8..8 + n]
  {
  }

  /** `operator<<` of a chunk, at the end of a stream. */
  method PutCounted(s: StreamChunk, bytes: seq<byte>)
    requires s.Valid() && s.marker == s.length && s.length + 4 + |bytes| <= MAX_LENGTH
    modifies s, s.chunk, s.chunk.ptr
    ensures s.Valid() && s.Contents() == old(s.Contents()) + BigEndian32(|bytes|) + bytes
    ensures s.chunk.ptr == old(s.chunk.ptr) || fresh(s.chunk.ptr)
  {
    hide BigEndian32, Splice;
    SpliceAtEnd(s.Contents(), BigEndian32(|bytes|));
    SpliceAtEnd(s.Contents() + BigEndian32(|bytes|), bytes);
    s.PutUInt32(|bytes|);
    s.PutBytes(bytes);
  }

  /** `operator>>` of a chunk: a length word, then that many bytes. */
  method ReadCounted(s: StreamChunk, chunk: Chunk)
    requires s.Valid() && chunk.Valid() && s.chunk != chunk && s.chunk.ptr != chunk.ptr
    requires |s.Rest()| >= 4 && 4 + FromBigEndian32(s.Rest()[..4]) <= |s.Rest()| <= MAX_LENGTH
    modifies s`marker, chunk, chunk.ptr
    ensures chunk.Valid() && (chunk.ptr == old(chunk.ptr) || fresh(chunk.ptr))
    ensures chunk.Contents() == old(s.Rest()[4..4 + FromBigEndian32(s.Rest()[..4])])
  {
    hide FromBigEndian32, Splice;
    ghost var r := s.Rest();
    var len := s.GetUInt32();
    var short, data := s.GetBytes(len);
    assert data == r[4..4 + len];
    chunk.SetLength(len);
    SpliceWhole(chunk.Contents(), data);
    chunk.Fill(0, data);
  }

  /** The log that culling writes. */
  lemma CulledBytes(log: seq<Event>, mask: seq<bool>)
    requires Masked(log, mask)
    ensures var bytes, c := EncodeAll(Filter(log, mask, 0, false)), Culled(log, mask);
            && WellFormed(bytes) && Parse(bytes) == c && AllSettled(c)
            && (AllSettled(log) ==> PenUpsFollowDowns(c, false) && Culled(c, Enabled(|c|)) == c)
  {
    hide Filter, Parse, WellFormed, EncodeAll, AllSettled;
    ParseEncodeAll(Filter(log, mask, 0, false));
    StoredAllSettles(Filter(log, mask, 0, false));
    CulledClosed(log, mask);
    CulledTwice(log, mask);
  }

  /** A new chunk with the given bytes, as the session file hands one out. */
  method ChunkHolding(bytes: seq<byte>) returns (chunk: Chunk)
    requires |bytes| <= MAX_LENGTH
    ensures fresh(chunk) && fresh(chunk.ptr) && chunk.Valid() && chunk.Contents() == bytes
  {
    chunk := new Chunk();
    chunk.SetLength(|bytes|);
    SpliceWhole(chunk.Contents(), bytes);
    chunk.Fill(0, bytes);
  }

  /** A session file either holds an event history or not. */
  datatype Session = Unsaved | Saved(history: seq<byte>)

  /** What the loader relies on: a length word followed by that many bytes of whole records. */
  predicate IsHistory(h: seq<byte>) {
    && 8 <= |h| <= MAX_LENGTH
    && 8 + FromBigEndian32(h[4..8]) <= |h|
    && WellFormed(SavedBytes(h))
  }

  function SavedBytes(h: seq<byte>): seq<byte>
    requires 8 <= |h| && 8 + FromBigEndian32(h[4..8]) <= |h|
  {
    h[8..8 + FromBigEndian32(h[4..8])]
  }

  /** The layout of a saved history: version 1, the length of the log, and the log. */
  lemma HistoryLayout(bytes: seq<byte>)
    requires |bytes| <= MAX_INT32
    ensures var h, n: int := History(bytes), |bytes|;
            && |h| == 8 + n && h[8..] == bytes && h[..4] == [0, 0, 0, 1]
            && Word32(h[4], h[5], h[6], h[7]) == n
  {
    var h, n: int := History(bytes), |bytes|;
    assert h[..4] == BigEndian32(1) && h[4..8] == BigEndian32(n);
    BigEndian32RoundTrip(n);
    assert h[4..8][0] == h[4] && h[4..8][1] == h[5] && h[4..8][2] == h[6] && h[4..8][3] == h[7];
  }

  /** Loading what was saved brings back the very bytes of the log. */
  lemma HistoryRoundTrip(bytes: seq<byte>)
    requires |bytes| + 8 <= MAX_LENGTH && WellFormed(bytes)
    ensures IsHistory(History(bytes)) && SavedBytes(History(bytes)) == bytes
  {
    hide BigEndian32, FromBigEndian32, WellFormed;
    var h := History(bytes);
    assert h[4..8] == BigEndian32(|bytes|);
    BigEndian32RoundTrip(|bytes|);
    assert h[8..8 + |bytes|] == bytes;
  }

  /** A full replay in progress: `done` has been handed out, and `event` is next when `found`. */
  ghost predicate Pending(log: seq<Event>, mask: seq<bool>, done: seq<Event>, found: bool, event: Event, index: int)
  {
    && Masked(log, mask) && 0 <= index <= |log|
    && Filter(log, mask, 0, false)
       == done + if found then [event] + Filter(log, mask, index, IsPenDown(event)) else []
  }

  lemma PendingFirst(log: seq<Event>, mask: seq<bool>)
    requires Masked(log, mask)
    ensures var k := Next(log, mask, 0, false);
            if k < |log| then Pending(log, mask, [], true, log[k], k + 1)
            else forall e, i :: 0 <= i <= |log| ==> Pending(log, mask, [], false, e, i)
  {
    FilterNext(log, mask, 0, false);
  }

  lemma PendingNext(log: seq<Event>, mask: seq<bool>, done: seq<Event>, event: Event, index: int)
    requires Pending(log, mask, done, true, event, index)
    ensures var k := Next(log, mask, index, IsPenDown(event));
            if k < |log| then Pending(log, mask, done + [event], true, log[k], k + 1)
            else forall e, i :: 0 <= i <= |log| ==> Pending(log, mask, done + [event], false, e, i)
  {
    FilterNext(log, mask, index, IsPenDown(event));
    var rest := Filter(log, mask, index, IsPenDown(event));
    assert done + ([event] + rest) == (done + [event]) + rest;
  }

  lemma PendingDone(log: seq<Event>, mask: seq<bool>, done: seq<Event>, event: Event, index: int)
    requires Pending(log, mask, done, false, event, index)
    ensures Filter(log, mask, 0, false) == done
  {
  }

  /** Writing a decoded event back never takes more bytes than its record did. */
  lemma ReencodingShrinks(b: seq<byte>)
    requires HasRecord(b)
    ensures |Encode(Decode(b))| <= RecordSize(b[0])
  {
  }

  lemma {:induction false} OffsetMonotone(b: seq<byte>, i: nat, j: nat)
    requires WellFormed(b) && i <= j <= |Parse(b)|
    ensures Offset(b, i) <= Offset(b, j)
    decreases j
  {
    if i < j {
      ParseAtOffset(b, j - 1);
      OffsetMonotone(b, i, j - 1);
    }
  }

  /** From one cursor to the next there is room to write back the event in between. */
  lemma CursorAdvances(b: seq<byte>, i: nat, j: nat, found: bool)
    requires WellFormed(b) && i <= j <= |Parse(b)|
    requires found ==> i < j
    ensures Offset(b, i) <= Offset(b, j) <= |b|
    ensures found ==> Offset(b, i) + |Encode(Parse(b)[j - 1])| <= Offset(b, j)
  {
    hide Encode, Decode, Parse, WellFormed, Offset, RecordSize;
    OffsetMonotone(b, i, j);
    ParseAtOffset(b, j);
    if found {
      OffsetMonotone(b, i, j - 1);
      ParseAtOffset(b, j - 1);
      ReencodingShrinks(b[Offset(b, j - 1)..]);
    }
  }
}
