/**
 * `JVDataParser.parse` and its per-kind parsers as the loops they are: each
 * reads the fixed fields, then walks the slots of its repeated group and
 * appends the filled ones. Each method is proved to build exactly the record
 * module `Records` defines for the same buffer.
 */
module RecordParser {
  import opened Wrappers
  import opened PyText
  import opened FieldDecoder
  import opened Slots
  import opened Records

  /** The loop over `n` three-byte time slots from `base`: a time is appended
      when it is neither blank nor `000`. */
  method ParseTimes(data: Bytes, base: int, n: nat) returns (times: seq<string>)
    ensures times == Somes(TimeSlots(data, base, n))
  {
    ghost var slots := TimeSlots(data, base, n);
    times := [];
    var i := 0;
    while i < n
      invariant 0 <= i <= n
      invariant times == Somes(slots[..i])
    {
      var lap := TimeSlot(data, base, i);
      assert slots[i] == lap;
      SomesPrefixStep(slots, i);
      if lap.Some? {
        times := times + [lap.value];
      }
      i := i + 1;
    }
    assert slots[..n] == slots;
  }

  /** `parse_ra`. */
  method ParseRa(data: Bytes) returns (r: RaceRecord)
    ensures r == RaceOf(data)
  {
    var laps := ParseTimes(data, 286, 25);
    var haronS := ParseTimes(data, 361, 4);
    var haronL := ParseTimes(data, 373, 3);
    r := RaceRecord(MidB2S(data, 3, 1), ParseYmd(data, 4), ParseHms(data, 12), RaceKeyAt(data, 18),
                    RaceInfoAt(data), MidB2S(data, 273, 4),
                    MidB2I(data, 277, 2), MidB2I(data, 279, 2), MidB2I(data, 281, 2),
                    Condition(MidB2S(data, 283, 1), MidB2S(data, 284, 1), MidB2S(data, 285, 1)),
                    laps, haronS, haronL);
  }

  /** The loop over the 28 odds slots of `parse_o1`. */
  method ParseOddsSlots(data: Bytes) returns (odds: seq<HorseOdds>)
    ensures odds == OddsList(data)
  {
    ghost var slots := OddsSlots(data);
    odds := [];
    var i := 0;
    while i < 28
      invariant 0 <= i <= 28
      invariant odds == Somes(slots[..i])
    {
      var slot := OddsSlot(data, i);
      SomesPrefixStep(slots, i);
      if slot.Some? {
        odds := odds + [slot.value];
      }
      i := i + 1;
    }
    assert slots[..28] == slots;
  }

  /** `parse_o1`. */
  method ParseO1(data: Bytes) returns (r: OddsRecord)
    ensures r == OddsOf(data)
  {
    var odds := ParseOddsSlots(data);
    r := OddsRecord(MidB2S(data, 3, 1), ParseYmd(data, 4), RaceKeyAt(data, 12),
                    SaleAmounts(MidB2S(data, 28, 11), MidB2S(data, 39, 11)),
                    SaleAmounts(MidB2S(data, 50, 11), MidB2S(data, 61, 11)),
                    odds);
  }

  /** The loop over the 28 weight slots of `parse_wf`, 7 bytes apart. */
  method ParseWeightSlots(data: Bytes) returns (weights: seq<HorseWeight>)
    ensures weights == WeightList(data)
  {
    ghost var slots := WeightSlots(data);
    weights := [];
    var i := 0;
    while i < 28
      invariant 0 <= i <= 28
      invariant weights == Somes(slots[..i])
    {
      var weightInfo := WeightSlot(data, i);
      SomesPrefixStep(slots, i);
      if weightInfo.Some? {
        weights := weights + [weightInfo.value];
      }
      i := i + 1;
    }
    assert slots[..28] == slots;
  }

  /** `parse_wf`. */
  method ParseWf(data: Bytes) returns (r: WeightRecord)
    ensures r == WeightsOf(data)
  {
    var weights := ParseWeightSlots(data);
    r := WeightRecord(MidB2S(data, 3, 1), ParseYmd(data, 4), RaceKeyAt(data, 12), weights);
  }

  /** The loop over the schedule slots of `parse_ys`: at most 397, and it
      stops at the first slot that does not have 16 bytes after its start. */
  method ParseKaisaiSlots(data: Bytes) returns (kaisaiInfo: seq<Kaisai>)
    ensures kaisaiInfo == KaisaiList(data)
  {
    ghost var k := ScheduleReadCount(|data|);
    ghost var slots := ScheduleSlots(data);
    kaisaiInfo := [];
    var i := 0;
    while i < 397
      invariant 0 <= i <= k
      invariant kaisaiInfo == Somes(slots[..i])
    {
      var basePos := 17 + i * 16;
      if basePos + 16 > |data| {
        break;
      }
      var kaisai := ScheduleSlot(data, i);
      SomesPrefixStep(slots, i);
      if kaisai.Some? {
        kaisaiInfo := kaisaiInfo + [kaisai.value];
      }
      i := i + 1;
    }
    assert i == k;
    assert slots[..k] == slots;
  }

  /** `parse_ys`. */
  method ParseYs(data: Bytes) returns (r: ScheduleRecord)
    ensures r == ScheduleOf(data)
  {
    var kaisaiInfo := ParseKaisaiSlots(data);
    r := ScheduleRecord(MidB2S(data, 3, 1), ParseYmd(data, 4), MidB2S(data, 12, 4), MidB2S(data, 16, 1),
                        kaisaiInfo);
  }

  /** `parse`: `NoRecord` for fewer than two bytes, `ParseError` where the
      payload is not a byte buffer, otherwise the record of the kind the tag
      names, case-insensitively, or the passthrough form. */
  method Parse(p: Payload) returns (r: ParseResult<Record>)
    ensures r == Decode(p)
  {
    if p.Foreign? {
      return ParseError;
    }
    var data := p.bytes;
    if |data| < 2 {
      return NoRecord;
    }
    var recordType := Tag(data);
    var kind := Lower(recordType);
    if kind == "ra" {
      var rec := ParseRa(data);
      r := Parsed(Race(rec));
    } else if kind == "se" {
      r := Parsed(Entry(EntryOf(data)));
    } else if kind == "um" {
      r := Parsed(Horse(HorseOf(data)));
    } else if kind == "o1" {
      var rec := ParseO1(data);
      r := Parsed(Odds(rec));
    } else if kind == "wf" {
      var rec := ParseWf(data);
      r := Parsed(Weight(rec));
    } else if kind == "ys" {
      var rec := ParseYs(data);
      r := Parsed(Schedule(rec));
    } else {
      var description := if recordType in RecordTypes then RecordTypes[recordType] else "不明";
      r := Parsed(Other(recordType, description, |data|, data));
    }
  }
}
