# Gremlin record and replay, and the formats it rests on

This project models the part of the Palm OS Emulator that makes up random input ("Gremlins"), records
it, and plays it back, together with the byte formats, the generator, the database installer and the
report writer that surround it. Everything is stated about the C++ code under `src/core`.

* **Streams and archives.** `Streams` models `Chunk`, a growable block of memory, and `EmStreamChunk`, a
  marker-based stream over it, as classes over a real array; `Byteswapping` spells the swap macros out
  over bit operations and shows that a canonical word is big-endian in the file on either kind of host.
  `ChunkFiles` is the archive of tagged chunks, searched by scanning; a file of writes behaves as an
  association list.
* **Events.** `Events` holds the variable-length record format, as two pure functions, and the theory of
  byte logs: which logs can be walked, what a walk reads, where the k-th record starts. `EventStreams`
  proves the stream operators, field by field, to compute those functions.
* **Replay.** `Replay` is the list-level meaning: a filter that keeps pen-ups iff the pen is down and
  everything else iff it is enabled, culling as a closure, and a machine for any interleaving of
  `ReplayGetEvent` and `ReplayGetPen`. `PenState` follows the pen through such interleavings and says which
  pen-ups are lost. `EventPlayback` is the class with the byte log, the mask and the
  cursor; each of its methods is proved to refine the list.
* **Gremlins.** `Random` has the linear congruential generator and its cycle structure, `KeyChoice` the
  weighted pick, `Gremlins` the state machine of `GetFakeEvent` and `GetPenMovement` feeding the recorder.
  `GremlinChoices` says what it does with each number it draws and with the text it has to type.
  `GremlinRuns` is about whole runs of everything that makes a Gremlin record, in any order; `RecordReplay` is
  the end-to-end theorem, and `MirroredReplay` the one for a device that asks in the replay as it asked before.
* **Minimization.** `Minimize` is the search for the events that an error needs: a stack of ranges, disabled,
  replayed, and enabled again or split. It ends for all answers, and what it leaves is minimal.
* **Installing databases.** `PalmDatabase` is the file layout and the validator in its machine
  arithmetic; `FileImport` is the time-sliced installer; `PalmDate` splits a 1904-based date.
* **Text and reports.** `MapFile` reads and writes key/value files, `EventOutput` merges key runs into
  numbered steps, `ObjectRank` ranks form objects.

Functions that cannot be called by a C++ program but say what the code means (`Next`, `Filter`, `Parse`,
`Entries`, `GoodDatabase`, `Report`, ...) are specification functions. Methods keep the shape of the code:
the same loops, the same branches, the same constants. Device and ROM calls are parameters. What the
installer's device answers (`Answers` in `FileImport`) is unrestricted; what the Gremlin's device answers
(`Rom` and `Screen` in `Gremlins`) is anything that keeps the promises in `WellBehaved` and `Usable`.

## What turned out not to hold, and exactly when it does

* Recording and replaying is not lossless once the device polls the pen. `GetPenMovement`, which its own comment
  says is never called (src/core/CGremlins.cpp:2265), runs whenever a Gremlin is on and the ROM waits in
  EvtGetPen (src/core/Hordes.cpp:1341-1345, src/core/Patches/EmPatchMgr.cpp:1001-1004). It may record a pen-up
  when the pen is not down (`MoveStrays`), and an error noted while a pen-up is due separates it from its
  pen-down (`FaultStrays`). A replay drops such pen-ups and nothing else. `RecordReplayLossless` says that it
  drops nothing exactly when no act lifts a pen that is not down, `OnlyMovesStray` that pen movements are to blame
  as long as errors keep out of the way. If the replaying device polls where the recording one did, even strays
  come out, unless it goes on polling after the pen has been lifted: `MirroredReplay` has the exact condition,
  `PoliteReplay` one on the run, and `ImpoliteReplay` a run that breaks it.
* A minimized log of one event has not been tried without it (`SingleNeverTried`). The comment on
  `MakeAnotherPass` asks for a reduction by a tenth (src/core/EmMinimize.cpp:883-889); the code makes another pass
  after any.
* The record format does not round-trip pen points with `x >= 256` and `y < 256`: that branch writes the
  tag of the opposite compression (src/core/EmEventPlayback.cpp:1179-1183). `RoundTripIffExact` says for
  which events it does, `WideTapReturnsWrong` shows a point the recorder accepts, and `RecordReplayLossless`
  carries the condition to whole runs.
* Culling is idempotent, and closes the pen-ups, on every log this code has recorded (`CullRecorded`) and on
  every log that has been culled once (`CullSettles`). On a log read from a history that this code did not
  write, one culling may not be enough: `FirstCullingNotLast` gives the bytes of two, `CulledClosed` and
  `CulledTwice` the exact conditions.
* `ReplayGetPen` does not update the pen state in its ordinary branch. `PenUpSkipped` is a run in which an
  enabled pen-up is lost and the device keeps its pen down, `PenUpRepeated` one in which a pen-up comes twice.
  `AgreesAfterStep` and `AgreesIffKept` say exactly when the two pen states agree, and `PenUpsLost` which
  pen-ups a run delivers.
* A failed `LoadEvents` empties the log but keeps the mask. The mask is longer than the log exactly when a load
  has failed with a mask in place since the last clear, cull or successful load (`GetNumEvents`, `FailedLoad`),
  and never shorter.
* An install that ends with an error leaves no database, except exactly in the cases of `RunLeavesDatabase`:
  the complete database, still open, when the end step fails (`LeftOpen`), and an empty one that nothing knows
  of when it was created but not found (`LeftEmpty`), then or in an earlier attempt.
* A refusal for which the device gives no reason counts as no error. The step is taken again, but a database
  in progress has been deleted; the install then may end without an error and without a database
  (`LostInSilence`). `SuccessIsWhole` says that nothing else makes a successful install incomplete.
* Cancelling after a finished install deletes the installed database, because its identifier is kept
  (`CancelledRun`).
* The comment beside the stored error event says five bytes (src/core/EmEventPlayback.cpp:73); the code
  writes and reads one.
* `WriteChunk` writes wherever the marker stands. It adds a chunk exactly when the marker is at the end
  (`AppendsIffAtEnd`); elsewhere it may, for one, replace a chunk (`OverwriteReplaces`).
* A text map survives writing and reading exactly when it is clean (`RoundTripIffClean`); a key that
  starts a comment is lost (`CommentKeyLost`).
* The look-ahead behind a run of writeable keys dereferences the end of the list exactly when the list
  ends in a writeable key (`LookAheadInside`), as a single letter does (`LookAheadPastEnd`).

## Model

| member | source | states |
|---|---|---|
| Byteswapping.Swap16Value | src/core/Byteswapping.h:31-32 | The 16-bit macro, built from shifts and bitwise or, exchanges the two octets of every word. |
| Byteswapping.Swap32Octets | src/core/Byteswapping.h:34-37 | The 32-bit macro, built from shifts, masks and ors, reverses the four octets of every word. |
| Byteswapping.SwapInvolution16 | src/core/Byteswapping.h:31-32 | Swapping a 16-bit word twice gives it back. |
| Byteswapping.SwapInvolution32 | src/core/Byteswapping.h:34-37 | Swapping a 32-bit word stays within 32 bits, and twice gives it back. |
| Byteswapping.CanonicalImage16 | src/core/Byteswapping.h:142-157 | The memory image of a canonical 16-bit word is big-endian, on hosts of either byte order. |
| Byteswapping.CanonicalImage32 | src/core/Byteswapping.h:142-157 | The memory image of a canonical 32-bit word is big-endian, on hosts of either byte order. |
| Byteswapping.CanonicalRead16 | src/core/Byteswapping.h:142-157 | Two file bytes loaded into memory and made canonical read as a big-endian number, on hosts of either byte order. |
| Byteswapping.CanonicalRead32 | src/core/Byteswapping.h:142-157 | The same for four file bytes. |
| Streams.Chunk.constructor | src/core/ChunkFile.cpp:540-545 | A new chunk is empty. |
| Streams.Chunk.SetLength | src/core/ChunkFile.cpp:691-711 | Growth keeps all contents, shrinking keeps the surviving prefix, only growth past the allocation or length 0 moves the block, and the used length never exceeds the allocated one. |
| Streams.Chunk.Assign | src/core/ChunkFile.cpp:625-635 | Assignment makes the contents equal and leaves the other chunk alone, self-assignment included. |
| Streams.StreamChunk.SetMarker | src/core/EmStream.cpp:48-80 | The marker goes to the wanted position if it is inside the stream, else to the nearer end. |
| Streams.StreamChunk.SetLength | src/core/ChunkFile.cpp:759-765 | Resizing the stream resizes the chunk, keeps the common prefix and pulls the marker inside. |
| Streams.StreamChunk.PutBytes | src/core/ChunkFile.cpp:778-798 | A put overwrites or extends the byte sequence at the marker, and moves the marker past the data. |
| Streams.StreamChunk.GetBytes | src/core/ChunkFile.cpp:812-831 | A get delivers the bytes that are there, changes no byte, and reports an error iff the request is cut short. |
| Streams.StreamChunk.PutUInt16 | src/core/EmStream.cpp:200-205 | On any host the stream receives the big-endian image of the number. |
| Streams.StreamChunk.PutUInt32 | src/core/EmStream.cpp:216-221 | The same for 32 bits. |
| Streams.StreamChunk.GetUInt16 | src/core/EmStream.cpp:342-347 | On any host two available bytes are read as a big-endian number. |
| Streams.StreamChunk.GetUInt32 | src/core/EmStream.cpp:358-363 | The same for four bytes. |
| Streams.SpliceTwice | src/core/ChunkFile.cpp:778-798 | Two consecutive puts leave the same bytes as one put of the concatenation, whether they overwrite, extend or both. |
| Streams.SpliceReadBack | src/core/ChunkFile.cpp:778-831 | What was put is got back at the same place, and every byte outside it is unchanged. |
| ChunkFiles.ChunkFile.WriteChunk | src/core/ChunkFile.cpp:485-503 | Puts tag, size and data at the marker; at the end of a whole archive this appends one entry to its list of entries and leaves the marker at the end. |
| ChunkFiles.ChunkFile.FindChunk | src/core/ChunkFile.cpp:76-107 | The scan ends, is first-match lookup in the entry list, answers -1 iff the tag is absent and the size (possibly 0) otherwise, with the marker at that entry's data. |
| ChunkFiles.ChunkFile.ReadChunkAt | src/core/ChunkFile.cpp:124-167 | Delivers the index-th entry, tag and data; finds nothing for a negative or too large index. |
| ChunkFiles.ChunkFile.ReadChunk | src/core/ChunkFile.cpp:186-199 | Delivers the data of the first entry with the tag, iff there is one. |
| ChunkFiles.ChunkFile.WriteInt32 | src/core/ChunkFile.cpp:403-408 | Puts a chunk that holds the number in big-endian order, on any host, at the marker; at the end of a whole archive this appends an entry. |
| ChunkFiles.ChunkFile.WriteInt16 | src/core/ChunkFile.cpp:389-394 | The same for 16 bits. |
| ChunkFiles.ChunkFile.ReadInt32 | src/core/ChunkFile.cpp:263-273 | Found iff the tag is present; reads four bytes from the start of the first such entry's data as a big-endian number, past its end if it is shorter. |
| ChunkFiles.ChunkFile.ReadInt16 | src/core/ChunkFile.cpp:239-249 | The same for 16 bits. |
| ChunkFiles.EntriesAppend | src/core/ChunkFile.cpp:485-503 | Appending one entry's bytes to a whole archive yields a whole archive with that entry last and all others undisturbed. |
| ChunkFiles.EntryLayout | src/core/ChunkFile.cpp:485-503 | A chunk is four octets of tag and four of size, most significant first, and the data. |
| ChunkFiles.AppendsIffAtEnd | src/core/ChunkFile.cpp:485-503 | A write to a whole archive leaves a whole archive with one more entry, at its end, exactly when it was made at the end. |
| ChunkFiles.OverwriteReplaces | src/core/ChunkFile.cpp:485-503 | A write at the start over a chunk of the same size replaces it. |
| ChunkFiles.EntryAtOffset | src/core/ChunkFile.cpp:76-107 | The file offset kept by the scan is the start of the entry it has counted to, and it reaches the end exactly after the last entry. |
| ChunkFiles.FileHoldsWrites | src/core/ChunkFile.cpp:375-503 | For every history of chunk and number writes to an empty stream, reading the file by position gives back the history. |
| ChunkFiles.FirstWriteFound | src/core/ChunkFile.cpp:186-284 | After any such history a tag finds the first write made with it, and a number comes back as written. |
| ChunkFiles.AbsentTagNotFound | src/core/ChunkFile.cpp:76-107 | After any such history a tag is not found iff no write used it. |
| Events.DecodeEncode | src/core/EmEventPlayback.cpp:1138-1357 | Decoding a stored event, whatever bytes follow, consumes exactly its record; the value is the event but for pen points out of the exact domain, whose distortion is spelled out. |
| Events.RecordLayout | src/core/EmEventPlayback.cpp:1230-1357 | For every tag number: how long its record is and which octets make up which field. |
| Events.TagWritten | src/core/EmEventPlayback.cpp:1138-1220 | Which tag number each event is stored under: the short forms wherever they fit, and 4 for a wide point on a high line. |
| Events.RoundTripIffExact | src/core/EmEventPlayback.cpp:1138-1357 | Decode after encode is the identity exactly on all non-pen events, the pen-up, and nonnegative points with x < 256 or y >= 256. |
| Events.WideTapReturnsWrong | src/core/EmEventPlayback.cpp:1179-1183 | The point (384, 0), which the recorder accepts, comes back as (1, -32768). |
| Events.StoredKeepsKind | src/core/EmEventPlayback.cpp:353-363 | Storing keeps the kind of every event and, for every point the recorder accepts, whether it lifts the pen; what has been stored twice is exact, and what has been stored once unless the point was twisted. |
| Events.ParseAppend | src/core/EmEventPlayback.cpp:786-796 | Appending records to a byte log appends events and moves no earlier record. |
| Events.ParseEncodeAll | src/core/EmEventPlayback.cpp:1138-1357 | Any concatenation of encoded events decodes, record by record up to the last byte, to their stored values in order. |
| Events.OffsetIsEncodedLength | src/core/EmEventPlayback.cpp:961-978 | In such a log the offset of the k-th record is the summed encoded length of the first k events. |
| Events.ParseAtOffset | src/core/EmEventPlayback.cpp:961-978 | At the k-th offset stands the k-th record, the next offset lies behind it, and the offset is the end of the bytes exactly when no event is left. |
| EventStreams.WriteEvent | src/core/EmEventPlayback.cpp:1138-1220 | The stream insertion operator puts exactly the event's record at the marker. |
| EventStreams.ReadEvent | src/core/EmEventPlayback.cpp:1230-1357 | The extraction operator reads exactly the record at the marker, of any kind, and leaves the marker behind it. |
| Replay.NextUnique | src/core/EmEventPlayback.cpp:961-1027 | The next event is the only index that passes the filter with none passing between it and the cursor. |
| Replay.FilterNext | src/core/EmEventPlayback.cpp:961-1027 | Fetching one event at a time, the pen state following each, walks through exactly the filtered list. |
| Replay.FilterClosed | src/core/EmEventPlayback.cpp:961-1027 | In what passes the filter every pen-up is immediately preceded by a pen-down, and nothing is invented. |
| Replay.FilterKeepsAll | src/core/EmEventPlayback.cpp:961-1027 | With every event enabled the filter loses nothing exactly when every pen-up follows a pen-down. |
| Replay.CulledIsFilterIffExact | src/core/EmEventPlayback.cpp:440-465 | Culling keeps the passing events unchanged exactly when all their coordinates are exact; it always keeps their number. |
| Replay.CulledClosed | src/core/EmEventPlayback.cpp:440-465 | For every log: in the culled log each pen-up is immediately preceded by a pen-down, and a full replay of it drops nothing, exactly when all passing points that are stored as pen-ups follow points that are not; always so for a log as this code stores it. |
| Replay.CulledTwice | src/core/EmEventPlayback.cpp:440-465 | For every log: culling again with every event enabled changes nothing exactly under that condition and when no twisted point passed; always so for a log as this code stores it. |
| Replay.CullRecorded | src/core/EmEventPlayback.cpp:440-465 | For every recorded list and every mask, with no condition: the culled log is closed, a full replay of it drops nothing, and culling it again changes nothing. |
| Replay.CullSettles | src/core/EmEventPlayback.cpp:440-465 | For every log and all masks: after two cullings the log is closed and a further one changes nothing. |
| Replay.FirstCullingNotLast | src/core/EmEventPlayback.cpp:440-465 | The bytes of two foreign logs, what they read as, and how a second culling changes them. |
| Replay.StepLossless | src/core/EmEventPlayback.cpp:638-776 | Either replay call keeps: the log indices delivered so far, pen-ups aside, are exactly the enabled ones below the cursor, in order and once each. |
| Replay.RunLossless | src/core/EmEventPlayback.cpp:638-776 | So does every interleaving of the two calls, from any such state. |
| Replay.InterleavingLossless | src/core/EmEventPlayback.cpp:638-776 | From the reset state, under every interleaving, each enabled event below the cursor that is not a pen-up has been delivered exactly once and in log order; events that are not pen events come only from ReplayGetEvent. |
| Replay.PushBackRefetches | src/core/EmEventPlayback.cpp:720-776 | After a push-back the cursor index is where it was and the next fetch delivers the same event at the same index. |
| PenState.StepTracks | src/core/EmEventPlayback.cpp:638-776 | The pen state kept by the cursor is always that of the last delivery that was not handed out of the log by ReplayGetPen. |
| PenState.AgreesAfterStep | src/core/EmEventPlayback.cpp:720-776 | After ReplayGetPen the kept pen state is the device's exactly when the pen event found, if any, leaves the pen as kept; after a delivery by ReplayGetEvent it always is. |
| PenState.AgreesIffKept | src/core/EmEventPlayback.cpp:638-776 | Throughout a list of deliveries the kept pen state is the device's exactly when everything ReplayGetPen hands out of the log leaves the device's pen as it is. |
| PenState.StepPenUp | src/core/EmEventPlayback.cpp:961-1000 | A call that moves the cursor past a pen-up delivers it exactly when the kept pen state is down, whatever the mask says. |
| PenState.PenUpsLost | src/core/EmEventPlayback.cpp:638-776 | Under every interleaving a pen-up below the cursor has been delivered exactly when the kept pen state was down as it was passed; it is lost with the device's pen down only right behind an event ReplayGetPen has handed out. |
| PenState.PenUpSkipped | src/core/EmEventPlayback.cpp:720-776 | A run that loses an enabled pen-up and ends with the device's pen down. |
| PenState.PenUpRepeated | src/core/EmEventPlayback.cpp:720-776 | A run that delivers a second pen-up with the pen already up. |
| Replay.GetEventsFilter | src/core/EmEventPlayback.cpp:638-713 | n calls of ReplayGetEvent deliver the first n events of the filtered list, and replay is still on iff n does not exceed its length. |
| EventPlayback.EventPlayback.constructor | src/core/EmEventPlayback.cpp:114-118 | The player starts with an empty log, in the machine's start state, neither recording nor replaying. |
| EventPlayback.EventPlayback.ResetPlayback | src/core/EmEventPlayback.cpp:934-942 | The cursor returns to the first record with the pen up, the saved position becomes unusable, and a new replay starts with nothing lost. |
| EventPlayback.EventPlayback.Reset | src/core/EmEventPlayback.cpp:123-129 | Ends both modes and rewinds. |
| EventPlayback.EventPlayback.Clear | src/core/EmEventPlayback.cpp:424-432 | Log and mask are emptied, both modes end, and the cursor is valid again. |
| EventPlayback.EventPlayback.RecordEvent | src/core/EmEventPlayback.cpp:786-796 | While recording, one stored event is appended to the parsed log with an enabled mask bit, a valid cursor stays valid and a settled log settled; otherwise nothing changes. |
| EventPlayback.EventPlayback.RecordPenEvent | src/core/EmEventPlayback.cpp:353-363 | The same for a pen point or the pen-up. |
| EventPlayback.EventPlayback.RecordErrorEvent | src/core/EmEventPlayback.cpp:408-414 | The same for the note that an error has occurred. |
| EventPlayback.EventPlayback.GetNextReplayEvent | src/core/EmEventPlayback.cpp:961-1027 | Walking the bytes from the cursor finds the event the list filter finds next, or the end iff there is none; the byte offset stays the offset of the index, and the old position is saved for a push-back. |
| EventPlayback.EventPlayback.ReplayEvents | src/core/EmEventPlayback.cpp:613-621 | Turning replay on puts the player in the machine's start state, however many replays have gone before; turning it off leaves the cursor. |
| EventPlayback.EventPlayback.ReplayGetEvent | src/core/EmEventPlayback.cpp:638-713 | Refines the machine's step for events, and keeps that since the last rewinding no enabled event below the cursor is lost, repeated or out of order; true iff a key or pen event was posted. |
| EventPlayback.EventPlayback.ReplayGetPen | src/core/EmEventPlayback.cpp:720-776 | Refines the machine's step for pen requests, push-back included, and keeps the same; the saved position is always usable there. |
| EventPlayback.EventPlayback.CountEnabledEvents | src/core/EmEventPlayback.cpp:474-497 | Counts what a full replay would deliver now, and restores the playback position. |
| EventPlayback.EventPlayback.CullEvents | src/core/EmEventPlayback.cpp:440-465 | The log becomes the stored form of what a full replay delivers, all enabled, in no more bytes than before. If the log was as this code stores it, every pen-up then follows a pen-down and culling again would change nothing. |
| EventPlayback.CulledBytes | src/core/EmEventPlayback.cpp:440-465 | The bytes culling writes parse as the culled log, whatever the log was. |
| EventPlayback.EventPlayback.CountNumEvents | src/core/EmEventPlayback.cpp:532-546 | Counts the events of the log. |
| EventPlayback.EventPlayback.GetNumEvents | src/core/EmEventPlayback.cpp:521-524 | The mask length: the number of events exactly when no load has failed with a mask in place since the last clear, cull or successful load, and more than that otherwise. |
| EventPlayback.EventPlayback.GetEvent | src/core/EmEventPlayback.cpp:556-564 | The event at the index; the last event for an index past the end; the caller's event for a negative index or an empty log. |
| EventPlayback.EventPlayback.EnableEvents | src/core/EmEventPlayback.cpp:573-585 | Exactly the mask bits in the range, clipped to the mask, are turned on. |
| EventPlayback.EventPlayback.DisableEvents | src/core/EmEventPlayback.cpp:592-604 | Exactly the mask bits in the range, clipped to the mask, are turned off. |
| EventPlayback.EventPlayback.FindFirstError | src/core/EmEventPlayback.cpp:805-826 | The least index of an error event, -1 iff there is none. |
| EventPlayback.EventPlayback.SaveEvents | src/core/EmEventPlayback.cpp:217-226 | The saved history is a version word, a length word and the very bytes of the log. |
| EventPlayback.EventPlayback.LoadEvents | src/core/EmEventPlayback.cpp:262-281 | A successful load installs the saved bytes with every event enabled; a failed one empties the log and keeps the mask. |
| EventPlayback.FailedLoad | src/core/EmEventPlayback.cpp:262-281 | The failing load: after one recorded event the mask counts one and the log none. |
| EventPlayback.HistoryRoundTrip | src/core/EmEventPlayback.cpp:217-281 | What is saved for any log is a loadable history and loads as the same bytes. |
| EventPlayback.HistoryLayout | src/core/EmEventPlayback.cpp:217-226 | A saved history is the version word 1, the length of the log and the log. |
| EventPlayback.EventPlayback.ReplayOn | src/core/EmEventPlayback.cpp:448-456 | One turn of the full-replay loops of culling and counting: what has been handed out plus what is still to come stays the filtered list, and there is room to write the next event back. |
| EventPlayback.ReencodingShrinks | src/core/EmEventPlayback.cpp:440-454 | Writing a decoded event back never takes more bytes than the record it came from. |
| Random.Generator.Srand | src/core/CGremlins.cpp:186-189 | The next state follows the seed alone. |
| Random.Generator.Rand | src/core/CGremlins.cpp:176-184 | One step of the recurrence modulo 2^32, delivering its bits 16 to 30. |
| Random.Generator.RandN | src/core/CGremlins.cpp:201-206 | A scaled pick, always in [0, N) for positive N and 0 for N = 0, at the cost of one step. |
| Random.FullPeriod | src/core/CGremlins.cpp:176-184 | From every seed the states at two positions are equal exactly when 2^32 divides the distance of the positions. |
| Random.SingleCycle | src/core/CGremlins.cpp:176-184 | From every seed the generator runs through all 2^32 states and returns to the seed. |
| Random.EquidistributedOutput | src/core/CGremlins.cpp:176-184 | Over a full cycle each value 0 to 32767 is returned exactly 2^17 times. |
| Random.ScaledIs | src/core/CGremlins.cpp:201-206 | k is picked of n exactly by the raw values r with 32768k <= rn < 32768(k + 1). |
| Random.ScaledMonotone | src/core/CGremlins.cpp:201-206 | A larger raw value never picks a smaller number. |
| KeyChoice.TotalFits | src/core/CGremlins.cpp:259-336 | For every character encoding the sum of the chances is positive and at most 7872, far inside its 16-bit field. |
| KeyChoice.TableEntries | src/core/CGremlins.cpp:259-336 | Exactly which keys have which chance: letters 60, the space five times and return ten times as much, and so on. |
| KeyChoice.TableTotals | src/core/CGremlins.cpp:259-336 | The sums over the control, printing, letter, extended and virtual keys, when every byte can be a character. |
| KeyChoice.SumProbabilities | src/core/CGremlins.cpp:2079-2086 | The summing loop computes that sum and never overflows. |
| KeyChoice.PickKey | src/core/CGremlins.cpp:2088-2102 | The running subtraction finds the key whose slice of the cumulated chances holds the number. |
| KeyChoice.SelectUnique | src/core/CGremlins.cpp:2093-2102 | There is only one such key. |
| KeyChoice.ExactlyWeighted | src/core/CGremlins.cpp:2079-2107 | Of the numbers below the sum exactly chanceForKey[i] pick an eligible key i, and none picks an ineligible one. |
| KeyChoice.NeverPastTheTable | src/core/CGremlins.cpp:2104-2107 | The exit past the table is taken iff the number is at or above the sum; every key picked is eligible and has a positive chance. |
| Gremlins.Gremlins.constructor | src/core/CGremlins.cpp:1338-1348 | A new Gremlin is uninitialised and has no key sum. |
| Gremlins.Gremlins.Initialize | src/core/CGremlins.cpp:1413-1447 | Starts over from the seed with counter 0 and neither a pen-up due nor text pending; the key sum and the last point survive. |
| Gremlins.Gremlins.SendCharsToType | src/core/CGremlins.cpp:1911-1925 | True iff text was pending; then exactly its first character is recorded and posted, and the text behind that character stays pending. |
| Gremlins.Gremlins.ChooseQuote | src/core/CGremlins.cpp:2023-2068 | The pending text becomes the quote that two draws choose, of the local table in 8 of 10 cases, whole when the field has room, and otherwise up to the first character past the room that draws less than 33. It fits the buffer. |
| Gremlins.CutShortKeepsFront | src/core/CGremlins.cpp:2057-2066 | The cut keeps everything before the character it starts at, and keeps a prefix. |
| Gremlins.CutShortMeans | src/core/CGremlins.cpp:2057-2066 | The text ends at the first character, from the full point on, that draws less than 33 of 100, or is kept; one draw is made for each character asked. |
| Gremlins.QuoteIsQueued | src/core/CGremlins.cpp:2023-2068 | The same of the step function, with nothing else changed. |
| Gremlins.PendingFits | src/core/CGremlins.cpp:1949-2241 | No call ever lets the pending text outgrow its 2048-byte buffer. |
| Gremlins.Gremlins.TypeRandomKey | src/core/CGremlins.cpp:2077-2122 | Sums the chances once, picks a key, sets the command bit for virtual keys and page keys, records and posts it. |
| Gremlins.Gremlins.SwitchToRandomApp | src/core/CGremlins.cpp:2181-2240 | In 5 of 100 draws switches to a listed executable and records it with the application left; otherwise records a null event. |
| Gremlins.Gremlins.GetFakeEvent | src/core/CGremlins.cpp:1949-2241 | New state, result, bytes and mask bits recorded (none while recording is off) and events posted are those of the pure step function, for all device answers; the pending text stays within its buffer. |
| Gremlins.Gremlins.BumpCounter | src/core/CGremlins.cpp:2335-2339 | The counter advances modulo 2^32. |
| Gremlins.Gremlins.GetPenMovement | src/core/CGremlins.cpp:2263-2322 | No pen-up is due any more; in half the draws the pen is lifted and time to catch up asked for, otherwise it goes to a point near the last one or anywhere; the point is recorded and posted. |
| Gremlins.Gremlins.FakeLocalMovement | src/core/CGremlins.cpp:782-810 | A point within a line's height of the last, in 16-bit arithmetic, pulled onto the screen - below it to y = 1. |
| Gremlins.Gremlins.RandomScreenXY | src/core/CGremlins.cpp:830-860 | Two draws give a point of the screen. |
| Gremlins.MovesOnScreen | src/core/CGremlins.cpp:782-860 | The point a movement goes to lies on the screen, unless that is a single line high. |
| Gremlins.Gremlins.Emit | src/core/CGremlins.cpp:1994-2006 | One event is recorded and, unless it is a null event, handed to the device; nothing else changes. |
| Gremlins.AfterTwice | src/core/CGremlins.cpp:1949-2241 | What consecutive calls leave in the log, the mask and the device queue composes to what the whole run recorded. |
| Gremlins.OneEventPerCall | src/core/CGremlins.cpp:1949-2241 | A call records exactly one event if it gets past the inited/until checks and none otherwise; the key sum stays unset or right. |
| GremlinChoices.TypesNextCharacter | src/core/CGremlins.cpp:1911-1925 | With text pending and nothing else owed, a request types the character at its front and leaves the rest. |
| GremlinChoices.TypesWholeText | src/core/CGremlins.cpp:2008-2015 | A pending text is typed completely and in order, one character a request, the devices' character sizes deciding; then nothing is pending. |
| GremlinChoices.OwedFirst | src/core/CGremlins.cpp:1981-2006 | Catching up is a null event and nothing else; a due pen-up comes next, and forgets the last point. |
| GremlinChoices.EventByChance | src/core/CGremlins.cpp:2015-2240 | For each of the hundred values of the first draw, with and without a field in focus: what is recorded. |
| GremlinChoices.TypingByChance | src/core/CGremlins.cpp:2023-2077 | The second draw begins a quote in 10 of 100 cases if a field is in focus, and its first character is typed at once; otherwise a key is drawn. |
| GremlinChoices.KeyByChance | src/core/CGremlins.cpp:2077-2122 | The key typed is the one whose slice of the summed chances holds the number drawn, a virtual key or a byte that can be a character, with the command bit exactly for virtual keys, page up and page down. |
| GremlinChoices.SwitchByChance | src/core/CGremlins.cpp:2181-2240 | In 5 of 100 draws an application is picked by one more draw and switched to if it is executable, with the application left recorded; otherwise a null event. |
| GremlinChoices.HalfLift | src/core/CGremlins.cpp:2284-2311 | A pen movement lifts the pen for exactly the upper half of the raw values. |
| GremlinChoices.LiftingMovement | src/core/CGremlins.cpp:2284-2315 | Then the last point is forgotten and time to catch up asked for. |
| GremlinChoices.MovementByChance | src/core/CGremlins.cpp:2284-2315 | Otherwise, if the pen was up or in 5 of 100 draws, the point is any of the screen; else the last one moved by up to a line each way, with 16-bit wrap-around, pulled to the edges - from below the screen to y = 1. |
| GremlinRuns.EventShape | src/core/CGremlins.cpp:1949-2241 | A request for an event records exactly one past the checks: null if there is catching up to do, else a pen-up iff one was due; a pen-up falls due iff the event puts the pen down. |
| GremlinRuns.ActShape | src/core/Hordes.cpp:1309-1345 | Each act records at most one event, a recordable one, and a pen-up exactly when it is a request with a pen-up due and no catching up, or a movement that draws 50 or more. |
| GremlinRuns.RunFollowsDowns | src/core/Hordes.cpp:1309-1345 | Over every mix of event requests, pen movements, errors and counter bumps, each recorded pen-up stands right behind a pen-down exactly when no act lifts a pen that the last event recorded has not put down. |
| GremlinRuns.OnlyMovesStray | src/core/Hordes.cpp:1341-1345 | As long as no error is noted while a pen-up is due, that condition is about pen movements alone. |
| GremlinRuns.EventsNeverStray | src/core/CGremlins.cpp:1949-2241 | Without errors and pen movements it always holds. |
| GremlinRuns.FilterDropsStrays | src/core/EmEventPlayback.cpp:961-1027 | With every event enabled a replay drops exactly the pen-ups that do not stand right behind a pen-down. |
| GremlinRuns.MoveStrays | src/core/CGremlins.cpp:2263-2322 | A run that records a single, stray pen-up, which a replay drops. |
| GremlinRuns.FaultStrays | src/core/ErrorHandling.cpp:2225-2227 | A run in which an error separates a pen-up from its pen-down, and a replay drops the pen-up. |
| RecordReplay.RecordReplayLossless | src/core/EmEventPlayback.cpp:638-713 | For every recorded run of any acts: replaying its bytes with every event enabled delivers each recorded event but the stray pen-ups once, in order, and stops. Nothing is missing iff no act lifted a pen that was not down; the very events come back iff moreover every pen point is in the codec's exact domain. |
| RecordReplay.RecordRun | src/core/Hordes.cpp:1309-1345 | A run of any acts on the object records into the emptied log what the pure run records. |
| RecordReplay.ReplayAll | src/core/EmEventPlayback.cpp:638-713 | Replaying through the player's own calls until it stops hands the reporter exactly the filtered log and leaves the log and mask alone. |
| RecordReplay.RecordAndReplay | src/core/EmEventPlayback.cpp:638-713 | On the objects: clear, record, initialise, run any acts, rewind, replay. The reporter receives each recorded event but the stray pen-ups once, in order, in its stored form, with the same two conditions for nothing missing and nothing changed. |
| MirroredReplay.MirroredRun | src/core/EmEventPlayback.cpp:638-776 | For every log and every list of calls with pen calls only for pen events: replaying with one call for each event delivers exactly the log iff no event call meets a pen-up with the kept pen state up, and no pen call that meets one has a point next. |
| MirroredReplay.MirroredReplay | src/core/Patches/EmPatchMgr.cpp:961-1004 | For every recorded run: with ReplayGetPen where a pen movement recorded and ReplayGetEvent elsewhere, the replay delivers exactly what was recorded, in its stored form, iff that condition holds. |
| MirroredReplay.PoliteReplay | src/core/Patches/EmPatchMgr.cpp:961-1004 | It holds, strays included, if no pen movement is asked for while there is catching up to do and no error is noted while a pen-up is due. |
| MirroredReplay.ImpoliteReplay | src/core/EmEventPlayback.cpp:720-776 | A run of two movements whose mirrored replay delivers the point before the pen-up. |
| Minimize.Minimizer.Start | src/core/EmMinimize.cpp:379-426 | Searches iff the log holds an error event: from the first one on everything is culled, and the first replay is set up on what remains. |
| Minimize.Minimizer.SplitCurrentLevel | src/core/EmMinimize.cpp:963-1029 | Splits the current range until its first part is at most 1024 long; says no iff it is a single event. |
| Minimize.HalvesEven | src/core/EmMinimize.cpp:982-1006 | The two parts of a range lie side by side, differ by at most one event, and inherit its mark unless they are single. |
| Minimize.SplitStops | src/core/EmMinimize.cpp:963-1029 | Splitting ends with a first part of at most 1024 events, and goes no further than it must. |
| Minimize.NextRangeMeans | src/core/EmMinimize.cpp:1193-1209 | Of the next range, one that is not marked and not too large is tried whole, and any other one is split first. |
| Minimize.SingleClearsMarks | src/core/EmMinimize.cpp:1071-1100 | When a single event has turned out to be needed, no range is marked any more. |
| Minimize.AnswersMean | src/core/EmMinimize.cpp:472-571 | What each answer does to the mask: the range enabled again, nothing, or all that an early error had not taken up disabled. |
| Minimize.Minimizer.SplitAndStartAgain | src/core/EmMinimize.cpp:1055-1103 | Refines the step of the search; the mutual recursion ends. |
| Minimize.Minimizer.DisableAndStartAgain | src/core/EmMinimize.cpp:1113-1147 | Refines the step of the search: passes over a single pen-up, else disables exactly the current range and rewinds. |
| Minimize.Minimizer.NextSubRange | src/core/EmMinimize.cpp:1156-1210 | Refines the step of the search: drops the current range and goes on with the next, or ends the pass. |
| Minimize.Minimizer.MinimizationPassComplete | src/core/EmMinimize.cpp:619-672 | Refines the step of the search: culls, and starts another pass, the last pass, or nothing. |
| Minimize.Minimizer.NoErrorOccurred | src/core/EmMinimize.cpp:472-505 | Refines the answer that the replay ended without the error. |
| Minimize.Minimizer.ErrorOccurred | src/core/EmMinimize.cpp:515-571 | Refines the answer that it ended in the error, early or not, and counts the events that are left out. |
| Minimize.AnswerKeeps | src/core/EmMinimize.cpp:472-571 | For every answer the search invariant is kept and strictly fewer answers are to come. |
| Minimize.SearchEnds | src/core/EmMinimize.cpp:472-672 | For every sequence of answers the search ends; of the log it leaves, exactly that was delivered by a replay that ended in the error, and, in a log of two events or more, no event but a pen-up could be left out by itself: the replay without it did not end in the error. |
| Minimize.BegunWaits | src/core/EmMinimize.cpp:379-426 | From the start on a log of n events at most n^2 + 4n + 3 answers are needed. |
| Minimize.CutOff | src/core/EmMinimize.cpp:541-565 | Disabling everything behind an early error leaves exactly what the replay had delivered, and at most a pen-up behind it. |
| Minimize.CulledIsClosed | src/core/EmMinimize.cpp:404-410 | A recorded log that has been culled has exact points and every pen-up right behind a pen-down. |
| Minimize.SingleNeverTried | src/core/EmMinimize.cpp:963-985 | A log of a single event goes straight to the last pass, without a replay that leaves it out. |
| PalmDatabase.BoundariesInRange | src/core/EmFileImport.cpp:1508-1620 | In a good file every data boundary lies between the end of the entry table and the end of the file. |
| PalmDatabase.HeaderFields | src/core/EmPalmStructs.i:785-801 | Read from the image of any header - its fields in order, big-endian - every value used is the field of that name, and the table ends behind 10 or 8 bytes an entry. |
| PalmDatabase.EntryImages | src/core/EmPalmStructs.i:1971-2032 | The i-th entry of the table is the image of what is read from it: offset, attributes and three octets of ID, or type, ID and offset. |
| PalmDatabase.ChecksFindFault | src/core/EmFileImport.cpp:1532-1617 | What the checks on the machine-computed size find, wrap-around included, is what is wrong with the entry in exact arithmetic. |
| PalmDatabase.ValidateEntries | src/core/EmFileImport.cpp:1508-1620 | In the code's 32-bit and 64-bit arithmetic: no error iff the list id is 0, resource names are distinct, the first offset is past the table and offsets ascend to the file's end (strictly for resources); the error is that of the first faulty entry. |
| PalmDatabase.FaultySpoils | src/core/EmFileImport.cpp:1532-1617 | Whatever entry check fails, including a wrapped last size, the file is not good. |
| PalmDatabase.FaultlessIsGood | src/core/EmFileImport.cpp:1532-1617 | If no entry check fails the file is good. |
| PalmDatabase.EntriesErrorIffBad | src/core/EmFileImport.cpp:1508-1620 | The error function the loop computes is ErrNone exactly on the good files. |
| PalmDatabase.EntriesErrorMeans | src/core/EmFileImport.cpp:1508-1620 | The error is that of the list id iff it is not 0, and else that of the first entry that is not in order. |
| PalmDatabase.FaultMeans | src/core/EmFileImport.cpp:1532-1617 | Exactly when an entry is a duplicate, too small or out of range, over names and offsets, and which of the two codes it gets. |
| PalmDatabase.ValidateHeader | src/core/EmFileImport.cpp:1419-1492 | The error is that of a missing end iff no NUL is among the first 32 bytes, that of an unprintable name iff there is one and a byte before the first is outside 0x20..0x7E, that of a small file iff the name is good and the table passes the end, and none otherwise; the date warnings are given as documented. |
| PalmDatabase.HeaderErrorMeans | src/core/EmFileImport.cpp:1419-1492 | The same of the error function. |
| PalmDatabase.ValidateDatabase | src/core/EmFileImport.cpp:1636-1663 | Accepts exactly the good database files, too short ones refused first. |
| FileImport.ItemsTileFile | src/core/EmFileImport.cpp:886-1043 | The data of the first n installed items, concatenated, is the file from the first offset to the n-th boundary: nothing lost, nothing copied twice. |
| FileImport.EntryReproduced | src/core/EmFileImport.cpp:886-1043 | The item made of an entry says what the entry's bytes say: type and ID, or attributes and the big-endian unique ID, and the data its offset points to. |
| FileImport.ItemsReproduceTable | src/core/EmFileImport.cpp:886-1043 | The items are one for each resource and each record with data, in table order, each reproducing its entry. |
| FileImport.InstalledReproducesTable | src/core/EmFileImport.cpp:886-1088 | So is the database that a finished install leaves, with the file's modification number. |
| FileImport.InstalledSize | src/core/EmFileImport.cpp:886-1043 | The installed sizes sum to the file size less the first offset. |
| FileImport.StepInstalling | src/core/EmFileImport.cpp:551-573 | Every step, whatever the device answers, leaves a good file and an entry index in range for the next. |
| FileImport.StartErrorMeans | src/core/EmFileImport.cpp:709-866 | The first step fails with the error of the file, for want of memory, or with the code of the first of seven device requests that is refused; it goes on exactly when none is. |
| FileImport.MiddleErrorMeans | src/core/EmFileImport.cpp:886-1043 | A middle step fails exactly when room is refused - want of memory having one error for resources and one for records - or a record's attributes are; otherwise the next entry's turn comes. |
| FileImport.EndErrorMeans | src/core/EmFileImport.cpp:1061-1088 | The end step fails only with the code for setting the number. |
| FileImport.SlicingIrrelevant | src/core/EmFileImport.cpp:316-335 | However the steps are cut into time slices, the result is that of the uncut run, failures included. |
| FileImport.RunWholeOrNothing | src/core/EmFileImport.cpp:709-1088 | After every run, whatever the device answers: a database that the install knows of holds all entries taken so far and no other, open until the end; a finished install holds all of them or none. |
| FileImport.FailureLeavesDatabase | src/core/EmFileImport.cpp:709-1088 | A failing step leaves a database exactly when it is the end step with a database in hand (then complete, open and known), or a first step that created one and did not find it, or one that fails before creating any and has not removed such a one of an earlier attempt (then empty and unknown). |
| FileImport.RunLeavesDatabase | src/core/EmFileImport.cpp:316-335 | A run that ends with an error leaves a database exactly when its last step is such a step. |
| FileImport.StepAbandons | src/core/EmFileImport.cpp:886-1043 | A step without error loses the database exactly when room for an entry is refused without a reason. |
| FileImport.SuccessIsWhole | src/core/EmFileImport.cpp:316-335 | A run that ends without an error has installed the whole file, except exactly when it met such a refusal; then it has installed nothing. |
| FileImport.LeftOpen | src/core/EmFileImport.cpp:1061-1088 | An end step that fails: the complete database stays, open. |
| FileImport.LeftEmpty | src/core/EmFileImport.cpp:764-771 | A created database that is not found: it stays, empty and unknown. |
| FileImport.LostInSilence | src/core/EmFileImport.cpp:995-1006 | A refusal without a reason: the install ends without an error and without a database. |
| FileImport.SuccessfulRun | src/core/EmFileImport.cpp:316-335 | If the device grants every request the install is done after exactly two steps more than there are entries, and not before. |
| FileImport.InstallsWholeFile | src/core/EmFileImport.cpp:316-335 | Then, for every slicing, the database holds the entries in order and its data is the file from the first offset to its end. |
| FileImport.CancelledRun | src/core/EmFileImport.cpp:350-364 | Cancelling after any run deletes whatever was installed; at most an empty database that was not found stays, and only if no step but the first was ever taken. |
| FileImport.StrayFromFirstStep | src/core/EmFileImport.cpp:709-866 | A database that the install does not know of comes from the first step, with no other step taken and no entry installed. |
| FileImport.FileImport.DeleteCurrentDatabase | src/core/EmFileImport.cpp:1197-1210 | Closes and deletes the database in progress iff its identifier is known, and forgets both identifiers. |
| FileImport.FileImport.ValidateStream | src/core/EmFileImport.cpp:1143-1182 | Database files are validated, other files refused, and streams that are not files left alone. |
| FileImport.FileImport.HomeBrewInstallStart | src/core/EmFileImport.cpp:709-866 | Refines the start step for every combination of answers; past it the buffer holds the file. |
| FileImport.FileImport.CurrentSize | src/core/EmFileImport.cpp:912-922 | The size computed by 32-bit subtraction is exactly that of the entry's byte range, which lies inside the file. |
| FileImport.FileImport.HomeBrewInstallMiddle | src/core/EmFileImport.cpp:886-1043 | Refines the middle step: an item added goes behind the others and reproduces the current entry's bytes; empty records are passed over, and a refusal deletes the database. |
| FileImport.FileImport.HomeBrewInstallEnd | src/core/EmFileImport.cpp:1061-1088 | Refines the end step: restores the modification number and closes, or leaves the database open on a failure. |
| FileImport.FileImport.IncrementalInstall | src/core/EmFileImport.cpp:551-573 | Dispatches to the step of the current state. |
| FileImport.FileImport.Continue | src/core/EmFileImport.cpp:316-335 | Takes steps until the slice is used up or the install is done, keeping the object valid. |
| FileImport.FileImport.Cancel | src/core/EmFileImport.cpp:350-364 | Discards the database in progress and ends the install, keeping the error. |
| PalmDate.SplitDate | src/core/EmFileImport.cpp:1665-1732 | Every 32-bit count splits into a valid Gregorian date and time that recomposes, from 1904-01-01, to the same count; the weekday is that of the date. |
| PalmDate.TableEnd | src/core/EmFileImport.cpp:1718-1720 | The table search never leaves the 49 entries. |
| PalmDate.CycleEntry | src/core/EmFileImport.cpp:1667-1702 | Each table entry is the number of days before its month by the Gregorian leap rule, and neighbouring entries differ by the length of the month. |
| PalmDate.WeekdayFromDayNumber | src/core/EmFileImport.cpp:1708-1711 | Counting days from a Friday gives the weekday of Sakamoto's congruence, for every date in range. |
| PalmDate.SecondsInjective | src/core/EmFileImport.cpp:1665-1732 | No other calendar date and time recomposes to the same count. |
| MapFile.Read | src/core/EmMapFile.cpp:41-101 | Consumes the stream to its end; the map is what the text means line by line, later entries replacing earlier ones. |
| MapFile.Write | src/core/EmMapFile.cpp:135-146 | Puts one line for every key, in the map's order of visit, at the marker. |
| MapFile.StripClean | src/core/Miscellaneous.cpp:2370-2408 | Stripping leaves no blank at either end and leaves clean strings alone. |
| MapFile.StripMeans | src/core/Miscellaneous.cpp:2370-2408 | What stripping takes away are exactly the blanks and tabs at the ends, and whatever follows a NUL. |
| MapFile.LineMeans | src/core/EmMapFile.cpp:57-88 | A line contributes an entry iff, behind its leading blanks, it is not empty, starts with no semicolon or number sign, and contains an equals sign; the first one parts key and value. |
| MapFile.LinesMean | src/core/EmMapFile.cpp:50-96 | Lines end at every line feed and carriage return and at the end of the text. |
| MapFile.ReadClean | src/core/EmMapFile.cpp:41-101 | Whatever the text, every key and value read is clean: one line, no NUL, no edge blanks, and keys without an equals sign or a comment mark in front. |
| MapFile.WrittenLineParses | src/core/EmMapFile.cpp:135-146 | The line written for a clean entry parses as that entry. |
| MapFile.RoundTripIffClean | src/core/EmMapFile.cpp:41-146 | A map is read back from what was written for it, in any order of visit, exactly when it is clean. |
| MapFile.CommentKeyLost | src/core/EmMapFile.cpp:41-146 | A map whose key starts with a comment mark does not come back. |
| MapFile.ReadWriteRead | src/core/EmMapFile.cpp:41-146 | For every text, reading what was written for what was read gives the same map. |
| EventOutput.LookAheadInside | src/core/EmEventOutput.cpp:1454-1496 | The look-ahead behind every writeable key stays inside the list exactly when the list does not end in one. |
| EventOutput.LookAheadPastEnd | src/core/EmEventOutput.cpp:1454-1496 | On a list of a single letter the look-ahead leaves the list. |
| EventOutput.EventOutput.OutputKeyEventStep | src/core/EmEventOutput.cpp:1436-1533 | Despite look-ahead and step-back, takes up exactly the run of writeable keys from the iterator on, one glyph each in order, or the one key that is not writeable, and writes a step that fits their codes and modifiers. |
| EventOutput.EventOutput.OutputEvents | src/core/EmEventOutput.cpp:1104-1157 | The stream receives the start step and the whole report of the gathered list, of which every step fits its events. |
| EventOutput.EventOutput.OutputPenEventStep | src/core/EmEventOutput.cpp:1703-1720 | A tap is one numbered step; lifting the stylus is none. |
| EventOutput.EachEventOnce | src/core/EmEventOutput.cpp:1104-1157 | Every event but pen-ups and null events is taken up by exactly one step, in list order. |
| EventOutput.ConsecutiveNumbers | src/core/EmEventOutput.cpp:1104-1157 | From any point of the list and any number on, numbered steps carry consecutive numbers. |
| EventOutput.WholeReportNumbered | src/core/EmEventOutput.cpp:1104-1157 | The report is numbered from 1 on without gaps. |
| EventOutput.MergesMaximalRuns | src/core/EmEventOutput.cpp:1436-1533 | Each write step is a run of writeable keys that cannot be extended on either side. |
| EventOutput.WriteableKeysWritten | src/core/EmEventOutput.cpp:1376-1412 | No step of another kind takes up a writeable key. |
| EventOutput.StepsFit | src/core/EmEventOutput.cpp:1376-1533 | In every report a key with the command bit has a key step of its own; one without it is written iff its code is wide, described as writeable, or undescribed and printing or extended; the words and the way it is shown are those for its code; and no other step takes up an event of another kind. |
| EventOutput.DescriptionIs | src/core/EmEventOutput.cpp:1238-1321 | Which codes are described, and as what. |
| EventOutput.MenuKeyIsButton | src/core/EmEventOutput.cpp:1501-1510 | The menu key a Gremlin types is a button to tap, not text. |
| ObjectRank.FindObjectRank | src/core/EmEventOutput.cpp:511-563 | None iff no other collected object has the kind, last iff there are others and all of them precede it, and otherwise the number of those that do, less than the number of the others. |
| ObjectRank.RankMeans | src/core/EmEventOutput.cpp:480-563 | The same of the rank function, preceding meaning above, or beside and to the left. |
| ObjectRank.PlacesFollowOrder | src/core/EmEventOutput.cpp:480-563 | With distinct corners, one object has the lower place iff it stands above, or beside and left of, the other. |
| ObjectRank.PlacesCoverRange | src/core/EmEventOutput.cpp:511-563 | With distinct corners the places are exactly 0 to count - 1, each taken once, reading "last" as count - 1. |

## Left out

- Streams.Chunk.SetLength: does not model negative lengths, nor lengths above 2^31 - 101 where the 32-bit sum with the spare bytes overflows; every method that grows a chunk carries that bound, which the C++ code does not check.
- Streams.Chunk.Assign: two different chunks are assumed not to share their block, which the class never lets happen.
- Streams.StreamChunk.GetUInt16: a read cut short by the end of the stream leaves the C++ variable partly undefined; the contract then promises only that the marker stays inside. The same goes for the members in the next two lines.
- Streams.StreamChunk.GetUInt32: as above.
- ChunkFiles.ChunkFile.ReadInt32: as above where the stream ends before the number does; likewise ReadInt16.
- EventStreams.ReadEvent: reads whole records with a known tag only; on other bytes the C++ operator stops at an assertion or reads leftovers.
- EventPlayback.EventPlayback.LoadEvents: a history found in the session is taken to be whole (a length word and that many bytes of whole records); the loader checks nothing, and a damaged history is not modelled.
- ChunkFiles.ChunkFile.ReadChunkAt: whole archives only, as FindChunk below.
- ChunkFiles.ChunkFile.ReadChunk: whole archives only, as FindChunk below.
- ChunkFiles.ChunkFile.FindChunk: archives consist of whole chunks with sizes below 2^31; damaged archives, where the signed size runs backwards, are not modelled.
- Gremlins.Gremlins.GetFakeEvent: the device's answers are any values that keep the promises in WellBehaved: 18 quotes per table that fit the buffer, a character size between 1 and what is left, and a point with nonnegative coordinates. Exceptions thrown by a refused application switch and turning the Gremlins off at the end are not part of this model.
- Gremlins.Gremlins.FakeEventXY: the choice of a point inside the current form is the device's answer, together with the number of random draws it takes.
- KeyChoice.SumProbabilities: the set of bytes that can be characters is fixed for one device; the sum cached for one encoding is not tracked across a change of encoding.
- FileImport.RunWholeOrNothing: deleting a database is taken to succeed, as the code does not look, and so are closing and releasing. The assertions on the buffer and the identifiers, which a step taken again after a refusal without a reason would fail in a debug build, are not part of this model; it follows the release build.
- FileImport.FileImport.HomeBrewInstallStart: the application-info block is an answer, not a byte copy: the validator does not check its offset.
- FileImport.FileImport.Continue: the clock is the number of steps a slice allows; a slice that allows none takes none, as the code would.
- FileImport.FileImport.constructor: a stream that is not a file is taken to hold a good database, because the code installs it without validation.
- PalmDate.SplitDate: the formatting with strftime, which is given the day of the month one low, is left out.
- MapFile.Write: the order of visit is any enumeration of the keys, of which the order of std::map is one. Streams are memory streams.
- EventOutput.EventOutput.OutputEvents: requires that the list does not end in a writeable key, which is the exact condition under which the code stays inside the list. The words of the steps, object and form names, and the gathering of that information are left out.
- ObjectRank.FindObjectRank: counts are unbounded, where the code narrows them to 16 bits; a form holds fewer objects than that. Places are a bijection only for distinct corners, as equal corners share a place.
- Swaps of 64-bit words and the in-place word swap of emulated memory, which none of these formats uses.
- Insertion and extraction of signed numbers, which are casts of the unsigned ones.
- ReadInt and WriteInt for 8-bit and signed numbers, which put the same bytes as the members above.
- The Exchange Manager install method, which is a sequence of device calls.
- Logging, dialogs, menus, sessions and compression of session files.
- Minimize.Minimizer.Start: the log loaded before is taken to be as this code stores events; loading the initial state of the device before each replay, progress, saving the result and describing it are not part of this model.
- Minimize.SearchEnds: an answer is whatever the replay shows; a device that answers differently to the same events is not excluded, so minimal means that the replay without the event was made and did not end in the error.
- GremlinRuns.RunFollowsDowns: the event limit of the horde, which stops a run earlier, and saving and resuming it are not part of this model; a run is any sequence of acts.
