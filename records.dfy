/**
 * The decoded forms of the six JV-Data record kinds the pipeline reads
 * (class `RecordParser`) and, for each kind, the function that decodes a
 * buffer into it. Offsets are 1-based, as in the JV-Data layouts. The
 * repeated groups are stated as filters over their slots (module `Slots`);
 * the loops that build them are in module `RecordParser`.
 */
module Records {
  import opened Wrappers
  import opened PyText
  import opened FieldDecoder
  import opened Slots

  /** The six fields that identify a race, as read from the record. */
  datatype RaceKey = RaceKey(year: string, monthday: string, jyoCode: string,
                             kaiji: string, nichiji: string, raceNum: string)

  /** The race key block at `start`: widths 4, 4, 2, 2, 2, 2. */
  function RaceKeyAt(data: Bytes, start: int): RaceKey {
    RaceKey(MidB2S(data, start, 4), MidB2S(data, start + 4, 4), MidB2S(data, start + 8, 2),
            MidB2S(data, start + 10, 2), MidB2S(data, start + 12, 2), MidB2S(data, start + 14, 2))
  }

  // ---------------------------------------------------------------- RA

  datatype RaceInfo = RaceInfo(youbi: string, raceName: string, fukushoName: string,
                               kakuteiJyuni: string, gradeCd: string, syubetsuCd: string,
                               kigoCd: string, jyuryoCd: string, jyokenCd: string,
                               kyori: Option<int>, trackCd: string, courseKbn: string)

  datatype Condition = Condition(tenkoCd: string, shibaBabaCd: string, dirtBabaCd: string)

  /** An RA record (race details). */
  datatype RaceRecord = RaceRecord(
    dataKubun: string, makeDate: Ymd, makeTime: Hms, raceKey: RaceKey, raceInfo: RaceInfo,
    hassotime: string, torokuTosu: Option<int>, syussoTosu: Option<int>, nyusenTosu: Option<int>,
    condition: Condition, lapTime: seq<string>, haronTimeS: seq<string>, haronTimeL: seq<string>)

  /** One three-byte time slot: kept unless it is blank or `000`. */
  function TimeSlot(data: Bytes, base: int, i: nat): (r: Option<string>)
    ensures r.Some? <==> MidB2S(data, base + i * 3, 3) !in {"", "000"}
    ensures r.Some? ==> r.value == MidB2S(data, base + i * 3, 3) && |r.value| <= 3
  {
    var t := MidB2S(data, base + i * 3, 3);
    if t != [] && t != "000" then Some(t) else None
  }

  /** The `n` three-byte time slots starting at `base`. */
  function TimeSlots(data: Bytes, base: int, n: nat): (r: seq<Option<string>>)
    ensures |r| == n
  {
    seq(n, i requires 0 <= i < n => TimeSlot(data, base, i))
  }

  /** The lap times: 25 slots at 286. */
  function Laps(data: Bytes): seq<string> { Somes(TimeSlots(data, 286, 25)) }

  /** The first-furlong times: 4 slots at 361. */
  function HaronS(data: Bytes): seq<string> { Somes(TimeSlots(data, 361, 4)) }

  /** The last-furlong times: 3 slots at 373. */
  function HaronL(data: Bytes): seq<string> { Somes(TimeSlots(data, 373, 3)) }

  function RaceInfoAt(data: Bytes): RaceInfo {
    RaceInfo(MidB2S(data, 34, 2), MidB2S(data, 36, 60), MidB2S(data, 96, 60), MidB2S(data, 156, 100),
             MidB2S(data, 256, 1), MidB2S(data, 257, 2), MidB2S(data, 259, 3), MidB2S(data, 262, 1),
             MidB2S(data, 263, 2), MidB2I(data, 266, 4), MidB2S(data, 270, 2), MidB2S(data, 272, 1))
  }

  /** `parse_ra`. */
  function RaceOf(data: Bytes): RaceRecord {
    RaceRecord(MidB2S(data, 3, 1), ParseYmd(data, 4), ParseHms(data, 12), RaceKeyAt(data, 18),
               RaceInfoAt(data), MidB2S(data, 273, 4),
               MidB2I(data, 277, 2), MidB2I(data, 279, 2), MidB2I(data, 281, 2),
               Condition(MidB2S(data, 283, 1), MidB2S(data, 284, 1), MidB2S(data, 285, 1)),
               Laps(data), HaronS(data), HaronL(data))
  }

  // ---------------------------------------------------------------- SE

  datatype EntryHorse = EntryHorse(seibetsuCd: string, barei: Option<int>, tozaiCd: string,
                                   hinsyuCd: string, keiroCd: string)

  /** A code and a name: an owner, a breeder, a trainer in the horse master. */
  datatype Party = Party(code: string, name: string)

  datatype Jockey = Jockey(code: string, name: string, nameRyaku: string)

  datatype Trainer = Trainer(code: string, name: string, nameRyaku: string, syozoku: string)

  datatype Prize = Prize(honsyo: Option<int>, fukasyo: Option<int>,
                         shutokujyo: Option<int>, shutoku: Option<int>)

  datatype Placing = Placing(kakuteiJyuni: Option<int>, time: Option<string>, chakusaCd: string,
                             chakusa: string, jyuniFuka: string, tanshoOdds: Option<int>,
                             ninsiki: Option<int>)

  /** An SE record (one horse in one race). */
  datatype EntryRecord = EntryRecord(
    dataKubun: string, makeDate: Ymd, raceKey: RaceKey, umaban: Option<int>, kettoNum: string,
    bamei: string, horseInfo: EntryHorse, owner: Party, futan: Option<int>, blinker: string,
    jockey: Jockey, bataijyu: Option<int>, zogen: string, ijyoCd: string, trainer: Trainer,
    banushi: Party, prize: Prize, result: Placing)

  /** `parse_se`. */
  function EntryOf(data: Bytes): EntryRecord {
    EntryRecord(
      MidB2S(data, 3, 1), ParseYmd(data, 4), RaceKeyAt(data, 12),
      MidB2I(data, 28, 2), MidB2S(data, 30, 10), MidB2S(data, 40, 36),
      EntryHorse(MidB2S(data, 76, 1), MidB2I(data, 77, 2), MidB2S(data, 79, 1),
                 MidB2S(data, 80, 1), MidB2S(data, 81, 2)),
      Party(MidB2S(data, 83, 6), MidB2S(data, 89, 64)),
      MidB2I(data, 153, 3), MidB2S(data, 156, 1),
      Jockey(MidB2S(data, 157, 5), MidB2S(data, 162, 34), MidB2S(data, 196, 8)),
      MidB2I(data, 204, 3), MidB2S(data, 207, 3), MidB2S(data, 210, 1),
      Trainer(MidB2S(data, 211, 5), MidB2S(data, 216, 34), MidB2S(data, 250, 8), MidB2S(data, 258, 4)),
      Party(MidB2S(data, 262, 6), MidB2S(data, 268, 64)),
      Prize(MidB2I(data, 332, 8), MidB2I(data, 340, 8), MidB2I(data, 348, 8), MidB2I(data, 356, 8)),
      Placing(MidB2I(data, 364, 2), ParseTime(data, 366), MidB2S(data, 370, 1), MidB2S(data, 371, 3),
              MidB2S(data, 374, 1), MidB2I(data, 375, 4), MidB2I(data, 379, 2)))
  }

  // ---------------------------------------------------------------- UM

  datatype HorseInfo = HorseInfo(seibetsuCd: string, hinsyuCd: string, keiroCd: string)

  datatype Blood = Blood(father: string, mother: string, bms: string)

  /** A UM record (horse master). */
  datatype HorseRecord = HorseRecord(
    dataKubun: string, makeDate: Ymd, kettoNum: string, delKubun: string, tourokuDate: Ymd,
    massyoDate: Ymd, bamei: string, birthDate: Ymd, horseInfo: HorseInfo, keito: string,
    blood: Blood, tozaiCd: string, trainer: Party, banushi: Party, breeder: Party,
    sanchiName: string)

  /** `parse_um`. */
  function HorseOf(data: Bytes): HorseRecord {
    HorseRecord(
      MidB2S(data, 3, 1), ParseYmd(data, 4), MidB2S(data, 12, 10), MidB2S(data, 22, 1),
      ParseYmd(data, 23), ParseYmd(data, 31), MidB2S(data, 39, 36), ParseYmd(data, 75),
      HorseInfo(MidB2S(data, 83, 1), MidB2S(data, 84, 1), MidB2S(data, 85, 2)),
      MidB2S(data, 87, 60),
      Blood(MidB2S(data, 147, 10), MidB2S(data, 157, 10), MidB2S(data, 167, 10)),
      MidB2S(data, 177, 1),
      Party(MidB2S(data, 178, 5), MidB2S(data, 183, 34)),
      Party(MidB2S(data, 217, 6), MidB2S(data, 223, 64)),
      Party(MidB2S(data, 287, 6), MidB2S(data, 293, 42)),
      MidB2S(data, 335, 20))
  }

  // ---------------------------------------------------------------- O1

  /** Win and place amounts, as text. */
  datatype SaleAmounts = SaleAmounts(tansho: string, fukusho: string)

  datatype HorseOdds = HorseOdds(umaban: int, tanshoOdds: Option<int>, fukushoOddsLow: Option<int>,
                                 fukushoOddsHigh: Option<int>, tanshoNinki: Option<int>,
                                 fukushoNinki: Option<int>)

  /** An O1 record (win and place odds). */
  datatype OddsRecord = OddsRecord(dataKubun: string, makeDate: Ymd, raceKey: RaceKey,
                                   totalSale: SaleAmounts, henkan: SaleAmounts, odds: seq<HorseOdds>)

  /** The first byte of odds slot `i`: slots are 16 bytes from 72. */
  function OddsBase(i: nat): int { 72 + i * 16 }

  /** Odds slot `i`: emitted when its horse number reads as a number above zero. */
  function OddsSlot(data: Bytes, i: nat): (r: Option<HorseOdds>)
    ensures r.Some? <==> MidB2I(data, OddsBase(i), 2).Some? && MidB2I(data, OddsBase(i), 2).value > 0
    ensures r.Some? ==> Some(r.value.umaban) == MidB2I(data, OddsBase(i), 2) && r.value.umaban > 0
  {
    var b := OddsBase(i);
    var umaban := MidB2I(data, b, 2);
    if umaban.Some? && umaban.value > 0 then
      Some(HorseOdds(umaban.value, MidB2I(data, b + 2, 4), MidB2I(data, b + 6, 4),
                     MidB2I(data, b + 10, 4), MidB2I(data, b + 14, 1), MidB2I(data, b + 15, 1)))
    else None
  }

  function OddsSlots(data: Bytes): (r: seq<Option<HorseOdds>>)
    ensures |r| == 28
  {
    seq(28, i requires 0 <= i < 28 => OddsSlot(data, i))
  }

  /** The odds of the horses, in slot order. */
  function OddsList(data: Bytes): seq<HorseOdds> { Somes(OddsSlots(data)) }

  /** `parse_o1`. */
  function OddsOf(data: Bytes): OddsRecord {
    OddsRecord(MidB2S(data, 3, 1), ParseYmd(data, 4), RaceKeyAt(data, 12),
               SaleAmounts(MidB2S(data, 28, 11), MidB2S(data, 39, 11)),
               SaleAmounts(MidB2S(data, 50, 11), MidB2S(data, 61, 11)),
               OddsList(data))
  }

  // ---------------------------------------------------------------- WF

  datatype HorseWeight = HorseWeight(umaban: int, bataijyu: Option<int>, zogenFuka: string, zogen: string)

  /** A WF record (horse weights). */
  datatype WeightRecord = WeightRecord(dataKubun: string, makeDate: Ymd, raceKey: RaceKey,
                                       weights: seq<HorseWeight>)

  /** The first byte of weight slot `i`: slots are 7 bytes apart from 28. */
  function WeightBase(i: nat): int { 28 + i * 7 }

  /** Weight slot `i`: emitted when its horse number reads as a number above
      zero. The change in weight is read from the three bytes at offset 6 of
      the slot, of which only the first lies inside the 7-byte slot. */
  function WeightSlot(data: Bytes, i: nat): (r: Option<HorseWeight>)
    ensures r.Some? <==> MidB2I(data, WeightBase(i), 2).Some? && MidB2I(data, WeightBase(i), 2).value > 0
    ensures r.Some? ==> Some(r.value.umaban) == MidB2I(data, WeightBase(i), 2) && r.value.umaban > 0
  {
    var b := WeightBase(i);
    var umaban := MidB2I(data, b, 2);
    if umaban.Some? && umaban.value > 0 then
      Some(HorseWeight(umaban.value, MidB2I(data, b + 2, 3), MidB2S(data, b + 5, 1), MidB2S(data, b + 6, 3)))
    else None
  }

  function WeightSlots(data: Bytes): (r: seq<Option<HorseWeight>>)
    ensures |r| == 28
  {
    seq(28, i requires 0 <= i < 28 => WeightSlot(data, i))
  }

  /** The weights of the horses, in slot order. */
  function WeightList(data: Bytes): seq<HorseWeight> { Somes(WeightSlots(data)) }

  /** `parse_wf`. */
  function WeightsOf(data: Bytes): WeightRecord {
    WeightRecord(MidB2S(data, 3, 1), ParseYmd(data, 4), RaceKeyAt(data, 12), WeightList(data))
  }

  // ---------------------------------------------------------------- YS

  datatype Kaisai = Kaisai(kaijiDate: string, jyoCode: string, kaiji: string, nichiji: string, youbi: string)

  /** A YS record (annual schedule). */
  datatype ScheduleRecord = ScheduleRecord(dataKubun: string, makeDate: Ymd, year: string,
                                           henkoId: string, kaisaiInfo: seq<Kaisai>)

  /** The first byte of schedule slot `i`: slots are 16 bytes from 17. */
  function ScheduleBase(i: nat): int { 17 + i * 16 }

  /** How many schedule slots `parse_ys` reads from a record of `n` bytes: it
      stops at the first slot `i` with `17 + 16 i + 16 > n`, and after 397. */
  function ScheduleReadCount(n: nat): (k: nat)
    ensures k <= 397
    ensures forall i :: 0 <= i < k ==> ScheduleBase(i) + 16 <= n
    ensures k < 397 ==> ScheduleBase(k) + 16 > n
  {
    if n < 33 then 0
    else if (n - 33) / 16 + 1 > 397 then 397
    else (n - 33) / 16 + 1
  }

  /** Schedule slot `i`: emitted when its date is neither blank nor `00000000`. */
  function ScheduleSlot(data: Bytes, i: nat): (r: Option<Kaisai>)
    ensures r.Some? <==> MidB2S(data, ScheduleBase(i), 8) !in {"", "00000000"}
  {
    var b := ScheduleBase(i);
    var date := MidB2S(data, b, 8);
    if date != [] && date != "00000000" then
      Some(Kaisai(date, MidB2S(data, b + 8, 2), MidB2S(data, b + 10, 2), MidB2S(data, b + 12, 2), MidB2S(data, b + 14, 2)))
    else None
  }

  function ScheduleSlots(data: Bytes): (r: seq<Option<Kaisai>>)
    ensures |r| == ScheduleReadCount(|data|)
  {
    seq(ScheduleReadCount(|data|), i requires 0 <= i < ScheduleReadCount(|data|) => ScheduleSlot(data, i))
  }

  /** The meetings of the year, in slot order. */
  function KaisaiList(data: Bytes): seq<Kaisai> { Somes(ScheduleSlots(data)) }

  /** `parse_ys`. */
  function ScheduleOf(data: Bytes): ScheduleRecord {
    ScheduleRecord(MidB2S(data, 3, 1), ParseYmd(data, 4), MidB2S(data, 12, 4), MidB2S(data, 16, 1),
                   KaisaiList(data))
  }

  // ---------------------------------------------------------------- dispatch

  /** A parsed record: one of the six kinds, or the passthrough form every
      other tag falls into. */
  datatype Record =
    | Race(race: RaceRecord)
    | Entry(entry: EntryRecord)
    | Horse(horse: HorseRecord)
    | Odds(odds: OddsRecord)
    | Weight(weight: WeightRecord)
    | Schedule(schedule: ScheduleRecord)
    | Other(recordType: string, description: string, size: nat, rawData: Bytes)
  {
    /** The `record_type` entry of the record. */
    function RecordType(): string {
      match this
      case Race(_) => "RA"
      case Entry(_) => "SE"
      case Horse(_) => "UM"
      case Odds(_) => "O1"
      case Weight(_) => "WF"
      case Schedule(_) => "YS"
      case Other(t, _, _, _) => t
    }
  }

  /** The names of the record kinds, by tag (`RECORD_TYPES`). */
  const RecordTypes: map<string, string> := map[
    "RA" := "レース詳細", "SE" := "馬毎レース情報", "HR" := "払戻", "H1" := "単勝オッズ",
    "H6" := "3連単オッズ", "O1" := "単複オッズ", "O2" := "馬連オッズ", "O3" := "ワイドオッズ",
    "O4" := "馬単オッズ", "O5" := "3連複オッズ", "O6" := "3連単オッズ", "WF" := "馬体重",
    "JG" := "重賞勝馬", "UM" := "競走馬マスタ", "KS" := "騎手マスタ", "CH" := "調教師マスタ",
    "BR" := "生産者マスタ", "BN" := "馬主マスタ", "RC" := "レコードマスタ", "HC" := "繁殖牝馬マスタ",
    "HS" := "種牡馬マスタ", "YS" := "年間スケジュール", "BT" := "血統", "CS" := "コース別成績",
    "DM" := "競争別成績", "TM" := "タイム型データマイニング", "SK" := "SKIP", "CK" := "チェック"]

  /** The description of a record: the six kinds carry their own. */
  function Description(rec: Record): string {
    match rec
    case Race(_) => "レース詳細"
    case Entry(_) => "馬毎レース情報"
    case Horse(_) => "競走馬マスタ"
    case Odds(_) => "単複オッズ"
    case Weight(_) => "馬体重"
    case Schedule(_) => "年間スケジュール"
    case Other(_, d, _, _) => d
  }

  /** What the stream hands to `parse`: a byte buffer, or some other object
      that the COM layer passed through unconverted. */
  datatype Payload = Buffer(bytes: Bytes) | Foreign

  /** The outcome of `parse`: no record (`None`), a record, or an exception. */
  datatype ParseResult<R> = NoRecord | Parsed(rec: R) | ParseError

  /** One byte decoded with `decode('ascii', errors='ignore')`: a byte
      above 127 is dropped. */
  function AsciiChar(c: char): (r: string)
    ensures |r| <= 1
  {
    if c as int < 128 then [c] else []
  }

  /** The record tag: the first two bytes decoded as ASCII, ignoring errors. */
  function Tag(data: Bytes): (r: string)
    requires |data| >= 2
    ensures |r| <= 2
    ensures data[0] as int < 128 && data[1] as int < 128 ==> r == data[..2]
  {
    AsciiChar(data[0]) + AsciiChar(data[1])
  }

  function LowerChar(c: char): char {
    if 'A' <= c <= 'Z' then (c as int + 32) as char else c
  }

  /** `str.lower` on ASCII text. */
  function Lower(s: string): (r: string)
    ensures |r| == |s|
  {
    seq(|s|, i requires 0 <= i < |s| => LowerChar(s[i]))
  }

  /** The tags whose lower-case form names one of the six record parsers. */
  predicate IsParsedKind(lower: string) {
    lower in {"ra", "se", "um", "o1", "wf", "ys"}
  }

  /** `RecordParser.parse` on a payload. */
  function Decode(p: Payload): (r: ParseResult<Record>)
    ensures r.ParseError? <==> p.Foreign?
    ensures r.NoRecord? <==> p.Buffer? && |p.bytes| < 2
  {
    match p
    case Foreign => ParseError
    case Buffer(data) =>
      if |data| < 2 then NoRecord
      else
        var tag := Tag(data);
        var kind := Lower(tag);
        if kind == "ra" then Parsed(Race(RaceOf(data)))
        else if kind == "se" then Parsed(Entry(EntryOf(data)))
        else if kind == "um" then Parsed(Horse(HorseOf(data)))
        else if kind == "o1" then Parsed(Odds(OddsOf(data)))
        else if kind == "wf" then Parsed(Weight(WeightsOf(data)))
        else if kind == "ys" then Parsed(Schedule(ScheduleOf(data)))
        else Parsed(Other(tag, if tag in RecordTypes then RecordTypes[tag] else "不明", |data|, data))
  }

  // ---------------------------------------------------------------- properties

  /** Every time kept from a group of time slots is a non-empty, non-`000`
      field of at most three characters, there are at most as many as slots,
      every slot that is neither blank nor `000` is kept, and in slot order. */
  lemma TimeSlotsWellFormed(data: Bytes, base: int, n: nat)
    ensures |Somes(TimeSlots(data, base, n))| <= n
    ensures forall t :: t in Somes(TimeSlots(data, base, n)) ==> t != [] && t != "000" && |t| <= 3
    ensures forall i :: 0 <= i < n && TimeSlot(data, base, i).Some? ==> TimeSlot(data, base, i).value in Somes(TimeSlots(data, base, n))
    ensures forall i, j :: 0 <= i < j < n && TimeSlot(data, base, i).Some? && TimeSlot(data, base, j).Some? ==>
      exists p, q :: 0 <= p < q < |Somes(TimeSlots(data, base, n))| &&
                     Somes(TimeSlots(data, base, n))[p] == TimeSlot(data, base, i).value &&
                     Somes(TimeSlots(data, base, n))[q] == TimeSlot(data, base, j).value
  {
    var slots := TimeSlots(data, base, n);
    forall t | t in Somes(slots)
      ensures t != [] && t != "000" && |t| <= 3
    {
      SomesMember(slots, t);
    }
    forall i | 0 <= i < n && TimeSlot(data, base, i).Some?
      ensures TimeSlot(data, base, i).value in Somes(slots)
    {
      assert slots[i] == TimeSlot(data, base, i);
      SomesMember(slots, TimeSlot(data, base, i).value);
    }
    forall i, j | 0 <= i < j < n && TimeSlot(data, base, i).Some? && TimeSlot(data, base, j).Some?
      ensures exists p, q :: 0 <= p < q < |Somes(slots)| &&
                             Somes(slots)[p] == TimeSlot(data, base, i).value &&
                             Somes(slots)[q] == TimeSlot(data, base, j).value
    {
      assert slots[i] == TimeSlot(data, base, i) && slots[j] == TimeSlot(data, base, j);
      SomesOrder(slots, i, j);
    }
  }

  /** The lap and furlong times of a race record are well formed, 25, 4 and
      3 at most. */
  lemma TimesWellFormed(data: Bytes)
    ensures |Laps(data)| <= 25 && |HaronS(data)| <= 4 && |HaronL(data)| <= 3
    ensures forall t :: t in Laps(data) ==> t != [] && t != "000" && |t| <= 3
    ensures forall t :: t in HaronS(data) ==> t != [] && t != "000" && |t| <= 3
    ensures forall t :: t in HaronL(data) ==> t != [] && t != "000" && |t| <= 3
    ensures forall i :: 0 <= i < 25 && TimeSlot(data, 286, i).Some? ==> TimeSlot(data, 286, i).value in Laps(data)
    ensures forall i :: 0 <= i < 4 && TimeSlot(data, 361, i).Some? ==> TimeSlot(data, 361, i).value in HaronS(data)
    ensures forall i :: 0 <= i < 3 && TimeSlot(data, 373, i).Some? ==> TimeSlot(data, 373, i).value in HaronL(data)
  {
    TimeSlotsWellFormed(data, 286, 25);
    TimeSlotsWellFormed(data, 361, 4);
    TimeSlotsWellFormed(data, 373, 3);
  }

  /** The odds list holds exactly the slots whose horse number is above
      zero: each entry comes from such a slot, and every such slot is listed. */
  lemma OddsAreFilledSlots(data: Bytes)
    ensures |OddsList(data)| <= 28
    ensures forall o :: o in OddsList(data) ==>
      o.umaban > 0 && exists i :: 0 <= i < 28 && OddsSlot(data, i) == Some(o)
    ensures forall i :: 0 <= i < 28 && OddsSlot(data, i).Some? ==> OddsSlot(data, i).value in OddsList(data)
  {
    var slots := OddsSlots(data);
    forall o | o in OddsList(data)
      ensures o.umaban > 0 && exists i :: 0 <= i < 28 && OddsSlot(data, i) == Some(o)
    {
      SomesMember(slots, o);
      var i :| 0 <= i < 28 && slots[i] == Some(o);
    }
    forall i | 0 <= i < 28 && OddsSlot(data, i).Some?
      ensures OddsSlot(data, i).value in OddsList(data)
    {
      assert slots[i] == OddsSlot(data, i);
      SomesMember(slots, OddsSlot(data, i).value);
    }
  }

  /** Odds entries keep slot order: a lower slot is listed first. */
  lemma OddsInSlotOrder(data: Bytes, i: nat, j: nat)
    requires i < j < 28 && OddsSlot(data, i).Some? && OddsSlot(data, j).Some?
    ensures exists p, q :: 0 <= p < q < |OddsList(data)| &&
                           OddsList(data)[p] == OddsSlot(data, i).value && OddsList(data)[q] == OddsSlot(data, j).value
  {
    var slots := OddsSlots(data);
    var x, y := OddsSlot(data, i), OddsSlot(data, j);
    assert slots[i] == x && slots[j] == y;
    SomesOrder(slots, i, j);
    var p, q :| 0 <= p < q < |Somes(slots)| && Somes(slots)[p] == x.value && Somes(slots)[q] == y.value;
    assert OddsList(data) == Somes(slots);
  }

  /** The weight list holds exactly the slots whose horse number is above zero. */
  lemma WeightsAreFilledSlots(data: Bytes)
    ensures |WeightList(data)| <= 28
    ensures forall w :: w in WeightList(data) ==>
      w.umaban > 0 && exists i :: 0 <= i < 28 && WeightSlot(data, i) == Some(w)
    ensures forall i :: 0 <= i < 28 && WeightSlot(data, i).Some? ==> WeightSlot(data, i).value in WeightList(data)
  {
    var slots := WeightSlots(data);
    forall w | w in WeightList(data)
      ensures w.umaban > 0 && exists i :: 0 <= i < 28 && WeightSlot(data, i) == Some(w)
    {
      SomesMember(slots, w);
      var i :| 0 <= i < 28 && slots[i] == Some(w);
    }
    forall i | 0 <= i < 28 && WeightSlot(data, i).Some?
      ensures WeightSlot(data, i).value in WeightList(data)
    {
      assert slots[i] == WeightSlot(data, i);
      SomesMember(slots, WeightSlot(data, i).value);
    }
  }

  /** The weight slots are 7 bytes apart but the change in weight is read
      from bytes 6 to 8 of its slot, so its last two bytes are the horse
      number of the next slot. */
  lemma WeightZogenOverlapsNextSlot(data: Bytes, i: nat)
    requires i < 27 && WeightBase(i + 1) + 1 <= |data|
    ensures WeightSlot(data, i).Some? ==> WeightSlot(data, i).value.zogen == MidB2S(data, WeightBase(i) + 6, 3)
    ensures MidB2S(data, WeightBase(i) + 6, 3) ==
      Strip([data[WeightBase(i) + 5]] + data[WeightBase(i + 1) - 1..WeightBase(i + 1) + 1])
    ensures MidB2S(data, WeightBase(i + 1), 2) == Strip(data[WeightBase(i + 1) - 1..WeightBase(i + 1) + 1])
  {
    var b := WeightBase(i);
    MidB2SInside(data, b + 5, 3);
    MidB2SInside(data, b + 6, 2);
    assert data[b + 5..b + 8] == [data[b + 5]] + data[b + 6..b + 8];
  }

  /** The schedule loop demands 16 bytes past the start of a slot, one more
      than the slot's last byte: a record of `32 + 16 k` bytes holds slot `k`
      complete, and it is not read. */
  lemma ScheduleLastSlotUnread(data: Bytes, k: nat)
    requires k < 397 && |data| == 32 + 16 * k
    ensures ScheduleBase(k) + 15 == |data|
    ensures |KaisaiList(data)| <= k
    ensures forall m :: m in KaisaiList(data) ==> exists i :: 0 <= i < k && ScheduleSlot(data, i) == Some(m)
  {
    var slots := ScheduleSlots(data);
    assert ScheduleReadCount(|data|) == k;
    forall m | m in KaisaiList(data)
      ensures exists i :: 0 <= i < k && ScheduleSlot(data, i) == Some(m)
    {
      SomesMember(slots, m);
      var i :| 0 <= i < |slots| && slots[i] == Some(m);
    }
  }

  /** The tag is matched without regard to case: `ra` is decoded as a race
      record and reported with type `RA`. */
  lemma DecodeRaceAnyCase(data: Bytes)
    requires |data| >= 2 && data[0] in "Rr" && data[1] in "Aa"
    ensures Decode(Buffer(data)) == Parsed(Race(RaceOf(data)))
    ensures Decode(Buffer(data)).rec.RecordType() == "RA"
  {
    assert Lower(Tag(data)) == "ra";
  }

  /** An ASCII tag of no parsed kind passes through with its tag, its
      description (`不明` when it is not a known kind), its size and its bytes. */
  lemma DecodeOtherKind(data: Bytes)
    requires |data| >= 2 && data[0] as int < 128 && data[1] as int < 128
    requires !IsParsedKind(Lower(data[..2]))
    ensures Decode(Buffer(data)) ==
      Parsed(Other(data[..2], if data[..2] in RecordTypes then RecordTypes[data[..2]] else "不明", |data|, data))
    ensures Decode(Buffer(data)).rec.RecordType() == data[..2]
  {
  }

  /** A non-ASCII byte in the tag is dropped before dispatch: the record is
      reported under a one-character type with the unknown description. */
  lemma DecodeNonAsciiTag(data: Bytes)
    requires |data| >= 2 && data[0] as int >= 128 && data[1] as int < 128
    ensures Decode(Buffer(data)) == Parsed(Other([data[1]], "不明", |data|, data))
  {
    assert Tag(data) == [data[1]];
    assert |Lower([data[1]])| == 1;
  }
}
