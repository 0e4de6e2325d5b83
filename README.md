# JV-Data ingestion pipeline, in Dafny

This project models the core of a JRA-VAN data collector in Dafny.

- The collector reads fixed-width JV-Data records from the JV-Link COM component.
- It decodes each record by its two-character tag (RA, SE, UM, O1, WF, YS or a passthrough).
- It upserts the records into SQLite tables in batches, and records every run in a `process_history` table.
- A small two-level cache sits in front of the HTTP API.

The model has one module per file:

| file | module | models |
|---|---|---|
| `wrappers.dfy` | `Wrappers` | `Option`, `Result` and the outcome of a COM call |
| `pytext.dfy` | `PyText` | Python's `str.strip`, slicing with clamped bounds, `int()` on text, decimal formatting |
| `field_decoder.dfy` | `FieldDecoder` | `JVDataParser.mid_b2s`, `mid_b2i`, `parse_ymd`, `parse_hms` and `parse_time` |
| `slots.dfy` | `Slots` | the filter "keep the filled slots, in slot order" behind every repeated group |
| `records.dfy` | `Records` | the record kinds and the specification function of each `parse_*`, and `parse` itself |
| `record_parser.dfy` | `RecordParser` | the loops of `parse_ra`, `parse_o1`, `parse_wf` and `parse_ys`, proved equal to those functions |
| `code_master.dfy` | `CodeMaster` | the code tables and `CodeMaster.get_name` |
| `store.dfy` | `Store` | the database tables as maps, the row each `save_*` writes, and `build_race_key` |
| `batch.dfy` | `Batch` | the commit discipline of `_save_batch_records` and `_save_records_individually` |
| `ingest.dfy` | `Ingest` | the state machine of `process_data`, as a function of the replies `gets` gives |
| `client.dfy` | `JvLink` | `JVLinkClient`: the `is_initialized`/`is_open` state machine, and `get_error_message` |
| `history.dfy` | `History` | the `process_history` rows, `start_process_history`, `finish_process_history` and the resume cursor |
| `cache.dfy` | `Cache` | `CacheService`: L1 and L2 as maps, `get`, `set`, `clear` and `_get_ttl` |
| `manager.dfy` | `Manager` | `JVDataManager`: the save methods, the `process_data` loop and the three run flows, as a class |

The code with loops and mutable state is imperative Dafny, as in the source:

- the slot loops of the parsers;
- the save methods and the `process_data` loop, as methods of `Manager.DataManager`;
- the client handle, as `JvLink.Client`;
- the cache, as `Cache.CacheService`.

Each method's postcondition ties its result, or its new state, to a specification function. The lemmas state what the source promises about those functions.

Things outside the program are parameters:

- What the COM object answers: the `Dispatch` outcome, the `JVInit`, `JVOpen`, `JVRTOpen`, `JVGets`, `JVStatus` and `JVClose` replies.
- Which database connections fail to open: a set of connection numbers, `faults`.
- What the clock reads.
- Whether a Redis call fails.

## Model

| member | source | states |
|---|---|---|
| PyText.Strip | src/jvdata_parser.py:33 | the stripped text has no surrounding whitespace, is no longer than its input, is empty exactly when the input is all whitespace, and leaves stripped text alone |
| PyText.SliceBound | src/jvdata_parser.py:32 | a slice bound is clamped into the sequence: kept when inside, cut to the length when past the end |
| PyText.PySlice | src/jvdata_parser.py:32 | a Python slice never faults: for bounds `0 <= a <= b` it is the clamped sub-sequence, at most `b - a` long |
| PyText.PyInt | src/jvdata_parser.py:53 | `int()` of blank text raises; of stripped text, it is the integer literal the text spells |
| PyText.IntLiteral | src/jvdata_parser.py:53 | an integer literal is never empty |
| PyText.NatToDecimal | src/jvdata_parser.py:108-113 | the decimal spelling of a number is a non-empty digit run, one digit long exactly below 10 |
| PyText.IntToDecimal | src/jvdata_parser.py:108-113 | `str()` of an integer is non-empty and stripped, and all digits exactly when the integer is not negative |
| PyText.Pad2 | src/jvdata_parser.py:113 | a `:02d` rendering is at least two characters, exactly two digits below 100 |
| PyText.ZeroPadded | src/jvdata_parser.py:17-55 | a zero-padded field is all digits and exactly the field width when the number fits |
| PyText.DigitsValueOfDecimal | src/jvdata_parser.py:53 | the digits of a number's decimal spelling read back as that number |
| PyText.PyIntOfDigits | src/jvdata_parser.py:53 | `int()` of a digit run is its decimal value |
| PyText.PyIntOfNegative | src/jvdata_parser.py:53 | `int()` of a minus sign and a digit run is the negated value |
| PyText.PyIntOfDecimal | src/jvdata_parser.py:53 | `int(str(n)) == n` for every integer |
| PyText.PyIntOfNatDecimal | src/jvdata_parser.py:53 | `int(str(n)) == n` for every natural number |
| PyText.LeadingZerosIgnored | src/jvdata_parser.py:53 | leading zeros do not change the value of a digit run |
| PyText.PyIntOfZeroPadded | src/jvdata_parser.py:53 | `int()` reads a zero-padded number back |
| PyText.Pad2OfTwoDigits | src/jvdata_parser.py:108-113 | two digits read as a number and rendered with `:02d` give the same two digits |
| PyText.OneDigitRoundTrip | src/jvdata_parser.py:108-113 | one digit read with `int()` and rendered with `str()` gives the same digit |
| FieldDecoder.MidB2S | src/jvdata_parser.py:17-36 | `mid_b2s` is total: its result is stripped, no longer than the field, and empty when the field starts past the end |
| FieldDecoder.MidB2I | src/jvdata_parser.py:39-55 | `mid_b2i` of a blank field is `None` |
| FieldDecoder.ParseTime | src/jvdata_parser.py:96-116 | `parse_time` gives a time only for a field that is four characters long once stripped |
| FieldDecoder.RaceTime | src/jvdata_parser.py:107-113 | a 4-character time converts exactly when its three parts each pass `int()` |
| FieldDecoder.MidB2SWindow | src/jvdata_parser.py:17-36 | the field at 1-based offset `start` is the stripped window of `length` bytes there |
| FieldDecoder.MidB2STruncated | src/jvdata_parser.py:30-36 | a field that runs past the end of the buffer gives the stripped tail, never a fault |
| FieldDecoder.MidB2SRoundTrip | src/jvdata_parser.py:17-36 | a stripped text written at an offset reads back unchanged |
| FieldDecoder.MidB2IRoundTrip | src/jvdata_parser.py:39-55 | a number written zero-padded into its field reads back as itself, so `"0"` gives 0 and never `None` |
| FieldDecoder.MidB2IBlank | src/jvdata_parser.py:51-55 | a blank field reads as `None` |
| FieldDecoder.MidB2SInside | src/jvdata_parser.py:30-36 | a field inside the buffer is its stripped bytes |
| FieldDecoder.DigitsInside | src/jvdata_parser.py:30-36 | a digit field inside the buffer reads back unchanged |
| FieldDecoder.YmdRoundTrip | src/jvdata_parser.py:58-74 | `parse_ymd` of eight digits splits them into year, month and day and keeps the whole date |
| FieldDecoder.HmsRoundTrip | src/jvdata_parser.py:77-93 | `parse_hms` of six digits splits them into hour, minute and second and keeps the whole time |
| FieldDecoder.RaceTimeOfDigits | src/jvdata_parser.py:107-113 | four digits `d0d1d2d3` become `d0:d1d2.d3` |
| FieldDecoder.ParseTimeOfDigits | src/jvdata_parser.py:96-116 | `parse_time` of a 4-digit field is `d0:d1d2.d3` |
| FieldDecoder.ParseTimeTruncated | src/jvdata_parser.py:107-116 | `parse_time` of a field cut short by the end of the buffer is `None` |
| FieldDecoder.RaceTimeAcceptsSignedSeconds | src/jvdata_parser.py:108-113 | `int()` accepts a sign, so a time such as `1-52` converts to `1:-5.2` instead of being refused |
| Slots.Somes | src/jvdata_parser.py:245-260 | the filled slots are no more than the slots |
| Slots.SomesSnoc | src/jvdata_parser.py:472-485 | one more slot appends its value exactly when it is filled |
| Slots.SomesAppend | src/jvdata_parser.py:472-485 | filtering two runs of slots is filtering each and concatenating |
| Slots.SomesMember | src/jvdata_parser.py:472-485 | a value is kept exactly when some slot holds it |
| Slots.SomesAt | src/jvdata_parser.py:472-485 | a filled slot's value sits in the output at the number of filled slots before it |
| Slots.SomesRankMonotone | src/jvdata_parser.py:472-485 | a filled slot has fewer filled slots before it than any later prefix holds |
| Slots.SomesOrder | src/jvdata_parser.py:472-485 | two filled slots keep their order in the output |
| Slots.SomesAllFilled | src/jvdata_parser.py:472-485 | when every slot is filled, nothing is dropped |
| Records.TimeSlot | src/jvdata_parser.py:245-248 | a slot is kept exactly when its stripped field is neither empty nor `000`, and then it is that field, at most 3 characters |
| Records.TimeSlots | src/jvdata_parser.py:245-260 | a time group reads exactly its slot count |
| Records.OddsSlot | src/jvdata_parser.py:472-485 | an O1 slot is emitted exactly when its horse number reads as a number above 0, and carries that number |
| Records.WeightSlot | src/jvdata_parser.py:515-526 | a WF slot is emitted exactly when its horse number reads as a number above 0, and carries that number |
| Records.ScheduleReadCount | src/jvdata_parser.py:552-567 | YS reads at most 397 slots, every slot read passes the guard `17+16i+16 <= len`, and it stops at the first slot that fails it |
| Records.ScheduleSlot | src/jvdata_parser.py:552-567 | a YS slot is emitted exactly when its date is neither empty nor `00000000` |
| Records.Tag | src/jvdata_parser.py:168 | the tag is at most two characters, and the first two bytes when both are ASCII |
| Records.Lower | src/jvdata_parser.py:171 | lower-casing keeps the length |
| Records.Decode | src/jvdata_parser.py:155-181 | `parse` raises exactly on a payload that is not bytes, and gives no record exactly for a buffer shorter than 2 |
| Records.TimeSlotsWellFormed | src/jvdata_parser.py:245-260 | a time group keeps at most its slot count of times, each non-empty, not `000`, at most 3 characters; every such slot is kept, in slot order |
| Records.TimesWellFormed | src/jvdata_parser.py:245-260 | at most 25 lap times, 4 first-furlong and 3 last-furlong times, each non-empty and not `000`; every such slot of each group is kept |
| Records.OddsAreFilledSlots | src/jvdata_parser.py:472-485 | O1 gives at most 28 odds, each from a filled slot with horse number above 0, and every filled slot is among them |
| Records.OddsInSlotOrder | src/jvdata_parser.py:472-485 | the O1 odds are in slot order |
| Records.WeightsAreFilledSlots | src/jvdata_parser.py:515-526 | WF gives at most 28 weights, each from a filled slot with horse number above 0, and every filled slot is among them |
| Records.WeightZogenOverlapsNextSlot | src/jvdata_parser.py:516-524 | a WF weight change is read from bytes +6..+8 of its 7-byte slot, two of which are the next slot's horse number |
| Records.ScheduleLastSlotUnread | src/jvdata_parser.py:552-567 | a YS buffer that ends exactly after slot `k` does not read slot `k`: the guard wants one byte more than the slot holds |
| Records.DecodeRaceAnyCase | src/jvdata_parser.py:168-173 | tags `RA`, `Ra`, `rA` and `ra` all dispatch to `parse_ra`, whose record says `RA` |
| Records.DecodeOtherKind | src/jvdata_parser.py:175-181 | any other ASCII tag gives the passthrough record: the tag, its description or `不明`, the size and the raw bytes |
| Records.DecodeNonAsciiTag | src/jvdata_parser.py:168 | a non-ASCII first byte is dropped from the tag, leaving a one-character tag described as `不明` |
| RecordParser.ParseTimes | src/jvdata_parser.py:245-260 | the lap and furlong loops keep exactly the filled slots, in slot order |
| RecordParser.ParseRa | src/jvdata_parser.py:184-262 | `parse_ra` is the RA layout of `Records` |
| RecordParser.ParseOddsSlots | src/jvdata_parser.py:472-485 | the O1 loop appends exactly the filled slots, in slot order |
| RecordParser.ParseO1 | src/jvdata_parser.py:435-487 | `parse_o1` is the O1 layout of `Records` |
| RecordParser.ParseWeightSlots | src/jvdata_parser.py:515-526 | the WF loop appends exactly the filled slots, in slot order |
| RecordParser.ParseWf | src/jvdata_parser.py:490-528 | `parse_wf` is the WF layout of `Records` |
| RecordParser.ParseKaisaiSlots | src/jvdata_parser.py:552-567 | the YS loop, with its early `break`, appends exactly the filled slots it reads |
| RecordParser.ParseYs | src/jvdata_parser.py:531-569 | `parse_ys` is the YS layout of `Records` |
| RecordParser.Parse | src/jvdata_parser.py:155-181 | `parse` is `Records.Decode` |
| CodeMaster.GetName | src/jvdata_parser.py:707-722 | the name in the `<TYPE>_CODE` table, or the code itself when the table or the code is unknown |
| CodeMaster.GetNameIgnoresCase | src/jvdata_parser.py:718 | the code type is upper-cased before the table is looked up |
| CodeMaster.GetNameJyo | src/jvdata_parser.py:576-589 | a racecourse code gives its name from `JYO_CODE` |
| CodeMaster.GetNameGrade | src/jvdata_parser.py:590-597 | `GRADE` looks codes up in `GRADE_CODE` and gives back unknown codes unchanged |
| CodeMaster.BlankGradeUnreachable | src/jvdata_parser.py:590-597 | the blank-grade key `" "` never matches a stripped field, so a blank grade stays empty |
| CodeMaster.DotlessIMatchesIjyo | src/jvdata_parser.py:718 | Python upper-cases the dotless `ı` to `I`, so the type `ıjyo` reaches `IJYO_CODE` |
| Store.BuildRaceKey | jravan/manager.py:789-797 | the race key is the concatenation of its six parts, as long as they together |
| Store.IntColumn | jravan/manager.py:626-628 | an empty column is `NULL`, and a non-empty one converts exactly when `int()` accepts it |
| Store.RaceRowOf | jravan/manager.py:606-646 | a race row exists exactly when kaiji, nichiji and the race number convert, and is keyed by the built race key |
| Store.ScheduleRowOf | jravan/manager.py:770-787 | a schedule row exists exactly when kaiji and nichiji convert |
| Store.OddsEntries | jravan/manager.py:727-748 | one odds row per horse |
| Store.WeightEntries | jravan/manager.py:750-768 | one weight row per horse |
| Store.RaceKeyRoundTrip | jravan/manager.py:789-797 | the race key built from the 16 key bytes of a record is those bytes |
| Store.UpsertAllKeys | jravan/manager.py:727-768 | upserting rows adds exactly their keys to the table |
| Store.UpsertAllOverrides | jravan/manager.py:727-768 | `INSERT OR REPLACE` replaces whole rows: the new rows win over the old table |
| Store.UpsertAllIdempotent | jravan/manager.py:727-768 | upserting the same rows twice is upserting them once |
| Store.UpsertAllLastWins | jravan/manager.py:727-768 | of rows with the same key, the last one is kept |
| Store.SaveRecordIdempotent | jravan/manager.py:576-787 | saving a record twice leaves the tables as saving it once, when every row it writes has a key without NULLs (an SE record with a horse number, a YS record whose meetings all have kaiji and nichiji) |
| Store.SaveKaisaisOverlay | jravan/manager.py:770-787 | YS meetings with kaiji and nichiji all filled in are all keyed: they lay the same rows over any table, or fail whatever it holds |
| Store.SaveKaisaisIdempotent | jravan/manager.py:770-787 | saving the meetings of a YS record a second time changes nothing when all have kaiji and nichiji |
| Store.BlankKaijiDuplicates | jravan/manager.py:770-787 | a YS meeting with a blank kaiji is stored with a NULL kaiji, so every save of the record appends its row again, on any tables |
| Store.NullHorseNumberDuplicates | jravan/manager.py:648-689 | an SE record without a horse number is inserted again on every save, since a `NULL` never conflicts with `UNIQUE(race_key, umaban)` |
| Store.RaceWithBadKaijiFails | jravan/manager.py:626-628 | an RA record whose kaiji is not a number makes `save_record` raise |
| Store.SaveKaisaisFailsOnAnyBadRow | jravan/manager.py:770-787 | one YS meeting whose kaiji or nichiji does not convert fails the whole record |
| Batch.SaveOne | jravan/manager.py:559-574 | a record saved alone changes the database exactly when its connection opens and its save succeeds |
| Batch.SaveBatch | jravan/manager.py:526-557 | an empty batch does nothing; otherwise it uses one connection, plus one per record when it falls back |
| Batch.SaveBatches | jravan/manager.py:526-557 | saving batches never hands back connection numbers |
| Batch.SaveBatchesMatchesSaveAll | jravan/manager.py:526-557 | while every connection opens, saving batch by batch leaves the tables as one transaction over all their records, when that transaction succeeds |
| Batch.SaveAllAppend | jravan/manager.py:533-547 | one transaction over two runs of records is the first run, then the second on its result, and fails when either fails |
| Batch.SaveAllFailsOnAnyFailure | jravan/manager.py:533-557 | one failing save fails the whole transaction |
| Batch.SaveEachAppend | jravan/manager.py:559-574 | saving records one by one over two runs composes |
| Batch.FailingRecordIsSkipped | jravan/manager.py:568-574 | a record whose connection or save fails is skipped and the records after it are still saved |
| Batch.SaveEachMatchesSaveAll | jravan/manager.py:526-574 | without faults, saving one by one gives what one transaction gives |
| Batch.BatchFallbackRecovers | jravan/manager.py:550-557 | when the batch connection fails, the fallback saves the whole batch record by record |
| Batch.SaveBatchesSnoc | jravan/manager.py:479-482 | the batches are saved one after another, each from the connection number the last one left |
| Ingest.Run | jravan/manager.py:465-519 | the loop uses no more replies than it has, counting the one that raised |
| Ingest.Accepted | jravan/manager.py:469-482 | the accepted records are no more than the replies |
| Ingest.StepKeepsOrder | jravan/manager.py:469-482 | each pass hands on exactly the record its reply carries, after all earlier ones |
| Ingest.StepCountsRecords | jravan/manager.py:469-490 | `processed` grows by one exactly for a parsed record |
| Ingest.NonDataStatusesAreNeutral | jravan/manager.py:492-510 | `-1` and `-3` consume no record and leave both counters alone; `-1` counts a new file name only |
| Ingest.StepPollsEveryTenthWait | jravan/manager.py:504-510 | each pass keeps `status()` polled once per ten waits |
| Ingest.StepKeepsBatchesSized | jravan/manager.py:479-482 | each pass keeps the batch below the batch size and every flushed batch exactly at it |
| Ingest.RunKeepsOrder | jravan/manager.py:465-519 | the loop hands on the accepted records of the replies it used, in arrival order |
| Ingest.RunKeepsCounted | jravan/manager.py:465-519 | `processed` counts the records handed on |
| Ingest.RunBounded | jravan/manager.py:465 | the loop never counts past `max_records` |
| Ingest.AcceptedAppend | jravan/manager.py:469-482 | the records accepted from two runs of replies are those of each, concatenated |
| Ingest.RunPollsEveryTenthWait | jravan/manager.py:504-510 | over the whole loop, `status()` is polled once per ten waits |
| Ingest.RunKeepsBatchesSized | jravan/manager.py:479-482 | over the whole loop, batches stay under the batch size and flushes hold exactly that many |
| Ingest.BadStatusesStop | jravan/manager.py:512-518 | a run of bad statuses that brings `errors` to 11 stops the loop on the eleventh |
| Ingest.ProcessDataSavesInOrder | jravan/manager.py:479-522 | every accepted record is saved exactly once and in arrival order; when `gets` raises, the unflushed batch is lost |
| Ingest.ProcessDataStoresAccepted | jravan/manager.py:479-557 | when `gets` does not raise and every connection opens, the flushed batches leave the tables as one transaction over the accepted records |
| Ingest.RunHoldsAccepted | jravan/manager.py:465-519 | from the start, the flushed and held records are the accepted ones of the replies used |
| Ingest.ProcessDataCounts | jravan/manager.py:465-524 | `processed` never exceeds `max_records` and is the number of records accepted |
| Ingest.ProcessDataPolls | jravan/manager.py:504-510 | `status()` is polled once for every ten waits |
| Ingest.ProcessDataBatchSizes | jravan/manager.py:479-522 | every flush holds at most `batch_size` records, and all but the last exactly that many |
| Ingest.ElevenErrorsStop | jravan/manager.py:512-518 | eleven bad statuses in a row stop the loop after the eleventh, with nothing saved |
| Ingest.ParseErrorsDoNotStop | jravan/manager.py:484-490 | a parse error counts as an error but never stops the loop, whatever the count |
| JvLink.ErrorMessage | jravan/client.py:160-162 | the `ERROR_CODES` message, or `未定義エラー(` and the code and `)` for any other code |
| JvLink.UndefinedMessageNamesCode | jravan/client.py:160-162 | the message for an unknown code spells that code |
| JvLink.ReadData | jravan/client.py:287-302 | `read` hands bytes on for a text or byte payload |
| JvLink.GetsData | jravan/client.py:315-342 | `gets` hands on a payload that is not bytes unchanged, and `None` as empty bytes |
| JvLink.ReadResult | jravan/client.py:277-302 | a closed handle reads `(-401, b"", "")`, a malformed COM result `(-100, b"", "")`, else the COM status and file name; it raises exactly when `JVRead` does on an open handle |
| JvLink.GetsResult | jravan/client.py:304-342 | as `read`, and a handle without `JVGets` falls back to `read`; it raises exactly when `JVGets` raises anything but `AttributeError`, or `JVRead` raises in the fallback |
| JvLink.GetsAgreesWithRead | jravan/client.py:304-342 | `gets` and `read` agree on the status, the file name and a byte payload |
| JvLink.GetsPayloadParses | jravan/client.py:304-342 | a `gets` payload that is bytes never makes `parse` raise |
| JvLink.Client.constructor | jravan/client.py:110-114 | a new handle has no COM object, is not initialized and not open |
| JvLink.Client.Initialize | jravan/client.py:116-148 | `-100` without a COM object or when `JVInit` raises; initialized exactly when `JVInit` gives 0 |
| JvLink.Client.Close | jravan/client.py:361-373 | closes an open handle with the `JVClose` code, and otherwise returns 0 with no effect |
| JvLink.Client.Open | jravan/client.py:204-244 | `(-201, 0, 0, "")` and no change before initialize; otherwise open exactly when the code is not negative |
| JvLink.Client.OpenRealtime | jravan/client.py:246-275 | `-201` and no change before initialize; otherwise open exactly when the code is 0 |
| JvLink.Client.Read | jravan/client.py:277-302 | `read` is `ReadResult` of the handle's state |
| JvLink.Client.Gets | jravan/client.py:304-342 | `gets` is `GetsResult` of the handle's state |
| JvLink.Client.Status | jravan/client.py:344-353 | `-1` without a COM object, else the COM reply |
| JvLink.Client.SetSavePath | jravan/client.py:164-180 | `-1` without a COM object, else the COM reply |
| JvLink.Client.SetSaveFlag | jravan/client.py:182-195 | `-1` without a COM object, else the COM reply |
| JvLink.CloseIsIdempotent | jravan/client.py:361-373 | a second `close` returns 0 and leaves the handle closed and its other flags alone |
| History.Started | jravan/manager.py:831-842 | one RUNNING row is appended, with the next id, the run's type, spec and cursor, and nothing else changes |
| History.Finished | jravan/manager.py:844-858 | only the row with that id changes: its status, counts, and the clock as `to_time` and `finished_at` |
| History.LatestSuccess | jravan/manager.py:805-811 | the chosen row is a SUCCESS row with the latest `finished_at`, and there is none exactly when no row succeeded |
| History.LastUpdateTime | jravan/manager.py:799-816 | a cursor returned is the `to_time` of some SUCCESS row |
| History.NoSuccessNoCursor | jravan/manager.py:815-829 | without a SUCCESS row the result is `None`: the fallbacks are unreachable |
| History.StartKeepsCursor | jravan/manager.py:831-842 | starting a run does not move the resume cursor |
| History.SuccessSetsCursorToClock | jravan/manager.py:854 | finishing the newest run with SUCCESS makes the cursor that clock reading, not a 14-digit time |
| History.LatestIsLastOfTies | jravan/manager.py:805-811 | of SUCCESS rows finished at the same time, the earlier one is not chosen |
| History.CursorIgnoresDataSpec | jravan/manager.py:805-811 | the cursor is the same whatever the rows' data specs |
| Cache.GetTtl | api/cache.py:87-97 | 60 for a dataspec starting `0B`, checked first; 86400 for `RACE`, `HOSE` and `HOYU`; 600 otherwise |
| Cache.CacheGet | api/cache.py:47-66 | an L1 hit answers without L2; a value returned is in L1 afterwards; L2 never changes; a miss changes nothing |
| Cache.CacheSet | api/cache.py:68-85 | L1 then holds the value and no other key changes; L2 is untouched without Redis or on a Redis error |
| Cache.CacheClear | api/cache.py:99-107 | L1 is emptied; every key outside the `jra:*` scan survives unchanged; a scanned key survives only an error; without Redis the store is untouched |
| Cache.GetAfterSet | api/cache.py:47-85 | a `get` after a `set` of the same key returns that value, whatever Redis does |
| Cache.SetReachesL2 | api/cache.py:56-83 | with Redis, a value set is found in L2 once L1 is lost, and promoted into L1 |
| Cache.PromotionServesFromL1 | api/cache.py:52-62 | after a hit, the next `get` is served from L1 unchanged |
| Cache.ClearForgets | api/cache.py:99-107 | after a `clear` that succeeds, `get` finds nothing |
| Cache.TtlChoices | api/cache.py:87-97 | the TTL is one of 60, 600 and 86400, and 60 for every `0B` spec |
| Cache.CacheService.constructor | api/cache.py:15-39 | L1 empty; Redis available exactly when its ping succeeded |
| Cache.CacheService.Get | api/cache.py:47-66 | `get` is `CacheGet` on the service's state |
| Cache.CacheService.Set | api/cache.py:68-85 | `set` is `CacheSet` on the service's state |
| Cache.CacheService.Clear | api/cache.py:99-107 | `clear` is `CacheClear` on the service's state |
| Manager.Items | jravan/manager.py:465-467 | the loop sees one item per `gets` reply |
| Manager.ItemOf | jravan/manager.py:467 | an item raises exactly when `gets` does, and otherwise carries what `gets` returned |
| Manager.OpenCode | jravan/manager.py:311-317 | the open call gives no code exactly when the COM call raises |
| Manager.ReadLimit | jravan/manager.py:311-325 | stored data is read up to the read count `JVOpen` reported; realtime data up to 10000 |
| Manager.RunRecord | jravan/manager.py:303-339 | a run adds one row, last; it returns `True` exactly when that row is SUCCESS with the loop's counts; it is left RUNNING after a failed init or an escaping exception; any other `False` is ERROR 0/0 |
| Manager.BudgetStopRecordsSuccess | jravan/manager.py:325-328 | a run stopped by its error budget is still recorded SUCCESS, with 11 errors, and returns `True` |
| Manager.Connection.constructor | jravan/manager.py:239-267 | a new connection sees the committed tables |
| Manager.DataManager.constructor | jravan/manager.py:26-45 | empty tables, no history, a fresh handle |
| Manager.DataManager.SaveRaceRecord | jravan/manager.py:606-646 | the race row replaces the row with its key, or the save raises and writes nothing |
| Manager.DataManager.SaveResultRecord | jravan/manager.py:648-689 | one result row is put into `results` |
| Manager.DataManager.SaveHorseRecord | jravan/manager.py:691-725 | the horse row replaces the row with its `ketto_num` |
| Manager.DataManager.SaveOddsRecord | jravan/manager.py:727-748 | one upsert per horse, in slot order |
| Manager.DataManager.SaveWeightRecord | jravan/manager.py:750-768 | one upsert per horse, in slot order |
| Manager.DataManager.SaveScheduleRecord | jravan/manager.py:770-787 | the meetings are upserted, or the save raises on a bad meeting |
| Manager.DataManager.InsertSchedules | jravan/manager.py:772-787 | the meeting loop is `Store.SaveKaisais` |
| Manager.DataManager.SaveRecord | jravan/manager.py:576-604 | `save_record` is `Store.SaveRecord`, raising exactly when that fails |
| Manager.DataManager.SaveBatchRecords | jravan/manager.py:526-557 | the batch is committed in one transaction, or saved record by record when that fails |
| Manager.DataManager.SaveInTransaction | jravan/manager.py:533-547 | the transaction commits exactly when every save succeeds, and then holds all of them |
| Manager.DataManager.SaveRecordsIndividually | jravan/manager.py:559-574 | each record on its own connection, one connection per record |
| Manager.DataManager.SaveAlone | jravan/manager.py:566-574 | one record on its own connection |
| Manager.DataManager.ProcessData | jravan/manager.py:447-524 | the counts, and what is saved, are those of `Ingest.ProcessData` over the same replies |
| Manager.DataManager.ReadLoop | jravan/manager.py:465-519 | the loop ends where `Ingest.Run` does, with its flushed batches saved |
| Manager.DataManager.ReadOne | jravan/manager.py:465-519 | one pass leaves the rest of the loop ending where it would have |
| Manager.DataManager.ReadStep | jravan/manager.py:466-519 | one pass of the loop body is `Ingest.Step` |
| Manager.DataManager.TakeRecord | jravan/manager.py:469-490 | a positive status parses, counts and batches as `Ingest.Step` does |
| Manager.DataManager.StartProcessHistory | jravan/manager.py:831-842 | inserts the RUNNING row on a connection of its own, or raises and inserts nothing |
| Manager.DataManager.FinishProcessHistory | jravan/manager.py:844-858 | updates the row on a connection of its own, or raises and changes nothing |
| Manager.DataManager.GetLastUpdateTime | jravan/manager.py:799-829 | the resume cursor of the history, on a connection of its own |
| Manager.DataManager.InitializeJvlink | jravan/manager.py:269-288 | `True` exactly when `initialize` gives 0; the handle then is initialized, it keeps its open flag, and it holds a COM object once dispatched |
| Manager.DataManager.OpenStream | jravan/manager.py:311-325 | the open call's code and read limit; the handle is open exactly when the flow accepts the code, and its COM and initialized flags are unchanged |
| Manager.DataManager.FinishRun | jravan/manager.py:325-339 | the history updates of a run after the stage it reached, as `Closing` |
| Manager.DataManager.RunStream | jravan/manager.py:305-339 | reads only after a good init and an accepted open code, then as `Ingest.ProcessData`; always closes the handle |
| Manager.DataManager.StartRun | jravan/manager.py:290-339 | a failed history insert escapes with nothing done; otherwise the row is started and closed as `Closing` says, and a run that never reads leaves the tables alone |
| Manager.DataManager.DownloadSetupData | jravan/manager.py:290-339 | a SETUP run from cursor `99999999999999`, read as `Ingest.ProcessData` with batches of 100; a run that never reads leaves the tables alone |
| Manager.DataManager.UpdateData | jravan/manager.py:341-399 | an UPDATE run from `from_date` and `000000`, or else from the resume cursor, which may be `None`; a run that never reads leaves the tables alone |
| Manager.DataManager.GetRealtimeData | jravan/manager.py:401-445 | a REALTIME run recorded with the race key, reading up to 10000 records only when `open_realtime` gives 0; a run that never reads leaves the tables alone |

## Left out

- COM interop: `win32com`, `JVInit`, `JVOpen`, `JVRTOpen`, `JVGets`, `JVRead`, `JVStatus` and `JVClose` are foreign calls. Their replies are parameters. The `data_spec`, `from_time` and `option` handed to the open call are not modelled, because they only reach COM.
- `JvLink.Client`: an exception from `JVClose`, `JVStatus`, `JVSetSavePath` or `JVSetSaveFlag` is not modelled; they are taken to return their code. `get_version` is not modelled.
- SQLite mechanics: connection setup, pragmas and the DDL of `setup_database` are not modelled. Tables are maps keyed by their `UNIQUE` columns. Row ids and `updated_at` timestamps are not kept.
- `setup_database` (jravan/manager.py:47-227) cannot run as written, for two reasons. First, the index statements at jravan/manager.py:218-227 are indented deeper than the statement before them, so Python rejects the whole module with an `IndentationError` and no `JVDataManager` code can run. Second, even with that indentation corrected, the first `cursor.execute` runs after the `with` block's `finally` (jravan/manager.py:265-267) has closed the connection, which `sqlite3` refuses.
- `Manager.DataManager.constructor`: in the source `__init__` cannot succeed, because the module does not load and, even if it did, `setup_database` raises on its first statement. The model builds the manager as if `setup_database` had created the empty tables.
- `Manager.DataManager.GetLastUpdateTime`: the query runs on a cursor whose connection the `with` block has already closed, which real `sqlite3` refuses. The model reads the table as the query intends.
- `History.LatestSuccess`: of SUCCESS rows with the same `finished_at`, SQLite's `LIMIT 1` may pick either. The model picks the later row.
- Database failures: only a connection that cannot be opened is a fault (the set `faults`); a failed `commit` is not modelled. A save raises only where a conversion raises.
- Shift-JIS decoding is the identity on ASCII. The lossy `errors='ignore'` fallback is not modelled.
- `PyText.IsSpace` and `PyText.IsDigit` follow Python on ASCII only: a character beyond ASCII is never whitespace or a digit here, while Python's `str.strip` and `int` also accept characters such as `U+3000` and full-width digits.
- `Records.Decode`: a payload that is not bytes raises even when shorter than 2; for such objects Python's own behaviour depends on the object.
- `Ingest.Run`: the stream of replies is finite, so the loop also ends when it runs out, which the program never observes.
- `Manager.ReadLimit`: a negative read count is taken as 0; the loop reads nothing in both cases.
- `Manager.DataManager.ReadLoop`: the loop's local variables are bundled as one `Ingest.State`.
- `Manager.DataManager.FinishRun`: the `try` block's last update and the `except` block are restated as one method over the stage the run reached.
- Clocks: `CURRENT_TIMESTAMP` and `datetime.now()` are clock-reading parameters.
- `time.sleep`, logging, progress output and the file system (`os.makedirs`) are not modelled.
- Cache internals: `TTLCache` expiry and eviction, the Redis client, pickling and the md5/json key are not modelled. The key is a datatype of the dataspec and the arguments, and a Redis failure is a parameter.
- `api/main.py`, `main.py`, `jravan/__main__.py`, the install and registry scripts, and the COM probe scripts are not part of this model.
- `RecordParser.parse_se` and `parse_um` are modelled as the flat layouts `Records.EntryOf` and `Records.HorseOf`. They have no loop and no property beyond their fields.
