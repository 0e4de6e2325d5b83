/**
 * The tables `JVDataManager` writes and the upserts that write them
 * (`save_record` and the six `save_*_record`). A table is a map from its
 * unique key to its row: `INSERT OR REPLACE` replaces the whole row stored
 * under the key. SQLite never finds two NULLs equal under a UNIQUE
 * constraint, so rows whose key holds a NULL are never replaced and are kept
 * apart, in insertion order. Row ids and timestamps are not modelled.
 */
module Store {
  import opened Wrappers
  import opened PyText
  import opened FieldDecoder
  import opened Records
  import opened CodeMaster

  datatype RaceRow = RaceRow(
    raceKey: string, year: string, monthday: string, jyoCode: string, jyoName: string,
    kaiji: Option<int>, nichiji: Option<int>, raceNum: Option<int>, raceName: string,
    fukushoName: string, gradeCd: string, syubetsuCd: string, kyori: Option<int>, trackCd: string,
    trackName: string, tenkoCd: string, tenko: string, shibaBabaCd: string, shibaBaba: string,
    dirtBabaCd: string, dirtBaba: string, hassotime: string, torokuTosu: Option<int>,
    syussoTosu: Option<int>, dataKubun: string)

  datatype ResultRow = ResultRow(
    raceKey: string, umaban: Option<int>, kettoNum: string, bamei: string, seibetsuCd: string,
    barei: Option<int>, keiroCd: string, jockeyCode: string, jockeyName: string,
    jockeyNameRyaku: string, trainerCode: string, trainerName: string, trainerSyozoku: string,
    futan: Option<int>, bataijyu: Option<int>, zogen: string, kakuteiJyuni: Option<int>,
    time: Option<string>, chakusa: string, tanshoOdds: Option<int>, ninsiki: Option<int>,
    honsyo: Option<int>, fukasyo: Option<int>, dataKubun: string)

  datatype HorseRow = HorseRow(
    kettoNum: string, bamei: string, birthDate: string, seibetsuCd: string, hinsyuCd: string,
    keiroCd: string, keito: string, father: string, mother: string, bms: string, tozaiCd: string,
    trainerCode: string, trainerName: string, banushiCode: string, banushiName: string,
    breederCode: string, breederName: string, sanchiName: string, delKubun: string,
    dataKubun: string)

  datatype OddsRow = OddsRow(
    raceKey: string, umaban: int, tanshoOdds: Option<int>, fukushoOddsLow: Option<int>,
    fukushoOddsHigh: Option<int>, tanshoNinki: Option<int>, fukushoNinki: Option<int>,
    dataKubun: string)

  datatype WeightRow = WeightRow(raceKey: string, umaban: int, bataijyu: Option<int>,
                                 zogenFuka: string, zogen: string, dataKubun: string)

  datatype ScheduleRow = ScheduleRow(year: string, kaijiDate: string, jyoCode: string, jyoName: string,
                                     kaiji: Option<int>, nichiji: Option<int>, youbi: string, henkoId: string)

  /** The unique key of `schedules` when none of its columns is NULL. */
  datatype ScheduleKey = ScheduleKey(year: string, kaijiDate: string, jyoCode: string, kaiji: int, nichiji: int)

  /** A table with a UNIQUE key some of whose columns may be NULL: the rows
      with a complete key by key, the others in insertion order. */
  datatype Table<K, R> = Table(keyed: map<K, R>, loose: seq<R>)

  /** The six tables. */
  datatype Database = Database(
    races: map<string, RaceRow>,
    results: Table<(string, int), ResultRow>,
    horses: map<string, HorseRow>,
    odds: map<(string, int), OddsRow>,
    weights: map<(string, int), WeightRow>,
    schedules: Table<ScheduleKey, ScheduleRow>)

  const EmptyDatabase := Database(map[], Table(map[], []), map[], map[], map[], Table(map[], []))

  /** `build_race_key`: the six parts of the key written one after another. */
  function BuildRaceKey(k: RaceKey): (r: string)
    ensures |r| == |k.year| + |k.monthday| + |k.jyoCode| + |k.kaiji| + |k.nichiji| + |k.raceNum|
  {
    k.year + k.monthday + k.jyoCode + k.kaiji + k.nichiji + k.raceNum
  }

  /** `int(s) if s else None` on a column: NULL for an empty field, the
      number for an integer literal, `Failure` where `int` raises. */
  function IntColumn(s: string): (r: Result<Option<int>>)
    ensures s == [] ==> r == Success(None)
    ensures s != [] ==> (r.Success? <==> PyInt(s).Some?)
    ensures r.Success? && s != [] ==> r.value == PyInt(s)
  {
    if s == [] then Success(None)
    else match PyInt(s)
      case Some(n) => Success(Some(n))
      case None => Failure
  }

  // ---------------------------------------------------------------- rows

  /** The row `save_race_record` writes, or `Failure` when a non-empty
      kaiji, nichiji or race number is not an integer. */
  function RaceRowOf(rec: RaceRecord): (r: Result<RaceRow>)
    ensures r.Success? <==>
      IntColumn(rec.raceKey.kaiji).Success? && IntColumn(rec.raceKey.nichiji).Success? &&
      IntColumn(rec.raceKey.raceNum).Success?
    ensures r.Success? ==> r.value.raceKey == BuildRaceKey(rec.raceKey)
  {
    var k := rec.raceKey;
    var kaiji, nichiji, raceNum := IntColumn(k.kaiji), IntColumn(k.nichiji), IntColumn(k.raceNum);
    if kaiji.Failure? || nichiji.Failure? || raceNum.Failure? then Failure
    else
      var info, cond := rec.raceInfo, rec.condition;
      Success(RaceRow(
        BuildRaceKey(k), k.year, k.monthday, k.jyoCode, GetName("JYO", k.jyoCode),
        kaiji.value, nichiji.value, raceNum.value, info.raceName, info.fukushoName, info.gradeCd,
        info.syubetsuCd, info.kyori, info.trackCd, GetName("TRACK", info.trackCd),
        cond.tenkoCd, GetName("TENKO", cond.tenkoCd), cond.shibaBabaCd,
        GetName("SHIBA_BABA", cond.shibaBabaCd), cond.dirtBabaCd, GetName("DIRT_BABA", cond.dirtBabaCd),
        rec.hassotime, rec.torokuTosu, rec.syussoTosu, rec.dataKubun))
  }

  function ResultRowOf(rec: EntryRecord): ResultRow {
    ResultRow(
      BuildRaceKey(rec.raceKey), rec.umaban, rec.kettoNum, rec.bamei, rec.horseInfo.seibetsuCd,
      rec.horseInfo.barei, rec.horseInfo.keiroCd, rec.jockey.code, rec.jockey.name, rec.jockey.nameRyaku,
      rec.trainer.code, rec.trainer.name, rec.trainer.syozoku, rec.futan, rec.bataijyu, rec.zogen,
      rec.result.kakuteiJyuni, rec.result.time, rec.result.chakusa, rec.result.tanshoOdds,
      rec.result.ninsiki, rec.prize.honsyo, rec.prize.fukasyo, rec.dataKubun)
  }

  function HorseRowOf(rec: HorseRecord): HorseRow {
    HorseRow(
      rec.kettoNum, rec.bamei, rec.birthDate.formatted, rec.horseInfo.seibetsuCd, rec.horseInfo.hinsyuCd,
      rec.horseInfo.keiroCd, rec.keito, rec.blood.father, rec.blood.mother, rec.blood.bms, rec.tozaiCd,
      rec.trainer.code, rec.trainer.name, rec.banushi.code, rec.banushi.name, rec.breeder.code,
      rec.breeder.name, rec.sanchiName, rec.delKubun, rec.dataKubun)
  }

  function OddsRowOf(raceKey: string, dataKubun: string, o: HorseOdds): OddsRow {
    OddsRow(raceKey, o.umaban, o.tanshoOdds, o.fukushoOddsLow, o.fukushoOddsHigh,
            o.tanshoNinki, o.fukushoNinki, dataKubun)
  }

  function WeightRowOf(raceKey: string, dataKubun: string, w: HorseWeight): WeightRow {
    WeightRow(raceKey, w.umaban, w.bataijyu, w.zogenFuka, w.zogen, dataKubun)
  }

  /** The row `save_schedule_record` writes for one meeting, or `Failure`
      when its kaiji or nichiji is neither empty nor an integer. */
  function ScheduleRowOf(year: string, henkoId: string, k: Kaisai): (r: Result<ScheduleRow>)
    ensures r.Success? <==> IntColumn(k.kaiji).Success? && IntColumn(k.nichiji).Success?
  {
    var kaiji, nichiji := IntColumn(k.kaiji), IntColumn(k.nichiji);
    if kaiji.Failure? || nichiji.Failure? then Failure
    else Success(ScheduleRow(year, k.kaijiDate, k.jyoCode, GetName("JYO", k.jyoCode),
                             kaiji.value, nichiji.value, k.youbi, henkoId))
  }

  // ---------------------------------------------------------------- upserts

  /** `INSERT OR REPLACE` of a sequence of keyed rows, in order. */
  function UpsertAll<K, V>(m: map<K, V>, entries: seq<(K, V)>): map<K, V> {
    if |entries| == 0 then m
    else
      var e := entries[|entries| - 1];
      UpsertAll(m, entries[..|entries| - 1])[e.0 := e.1]
  }

  /** A result row is keyed by race and horse number, unless the horse
      number is NULL. */
  function PutResult(t: Table<(string, int), ResultRow>, row: ResultRow): Table<(string, int), ResultRow> {
    if row.umaban.Some? then t.(keyed := t.keyed[(row.raceKey, row.umaban.value) := row])
    else t.(loose := t.loose + [row])
  }

  /** A schedule row is keyed by its five key columns, unless kaiji or
      nichiji is NULL. */
  function PutSchedule(t: Table<ScheduleKey, ScheduleRow>, row: ScheduleRow): Table<ScheduleKey, ScheduleRow> {
    if row.kaiji.Some? && row.nichiji.Some? then
      t.(keyed := t.keyed[ScheduleKey(row.year, row.kaijiDate, row.jyoCode, row.kaiji.value, row.nichiji.value) := row])
    else t.(loose := t.loose + [row])
  }

  /** The keyed odds rows of one record, in slot order. */
  function OddsEntries(rec: OddsRecord): (r: seq<((string, int), OddsRow)>)
    ensures |r| == |rec.odds|
  {
    OddsEntriesOf(BuildRaceKey(rec.raceKey), rec.dataKubun, rec.odds)
  }

  function OddsEntriesOf(raceKey: string, dataKubun: string, odds: seq<HorseOdds>): (r: seq<((string, int), OddsRow)>)
    ensures |r| == |odds|
  {
    if |odds| == 0 then []
    else
      var o := odds[|odds| - 1];
      OddsEntriesOf(raceKey, dataKubun, odds[..|odds| - 1]) + [((raceKey, o.umaban), OddsRowOf(raceKey, dataKubun, o))]
  }

  /** The keyed weight rows of one record, in slot order. */
  function WeightEntries(rec: WeightRecord): (r: seq<((string, int), WeightRow)>)
    ensures |r| == |rec.weights|
  {
    WeightEntriesOf(BuildRaceKey(rec.raceKey), rec.dataKubun, rec.weights)
  }

  function WeightEntriesOf(raceKey: string, dataKubun: string, weights: seq<HorseWeight>): (r: seq<((string, int), WeightRow)>)
    ensures |r| == |weights|
  {
    if |weights| == 0 then []
    else
      var w := weights[|weights| - 1];
      WeightEntriesOf(raceKey, dataKubun, weights[..|weights| - 1]) + [((raceKey, w.umaban), WeightRowOf(raceKey, dataKubun, w))]
  }

  /** The schedule rows of the first meetings, written in order; `Failure`
      as soon as one of them does not convert. */
  function SaveKaisais(t: Table<ScheduleKey, ScheduleRow>, year: string, henkoId: string, ks: seq<Kaisai>):
    (r: Result<Table<ScheduleKey, ScheduleRow>>)
  {
    if |ks| == 0 then Success(t)
    else match SaveKaisais(t, year, henkoId, ks[..|ks| - 1])
      case Failure => Failure
      case Success(d) =>
        match ScheduleRowOf(year, henkoId, ks[|ks| - 1])
        case Failure => Failure
        case Success(row) => Success(PutSchedule(d, row))
  }

  /** `save_record`: the upsert for the record's kind, `Success(db)`
      unchanged for any other kind, `Failure` where the save raises. */
  function SaveRecord(db: Database, rec: Record): (r: Result<Database>)
  {
    match rec
    case Race(ra) =>
      (match RaceRowOf(ra)
       case Failure => Failure
       case Success(row) => Success(db.(races := db.races[row.raceKey := row])))
    case Entry(se) => Success(db.(results := PutResult(db.results, ResultRowOf(se))))
    case Horse(um) => Success(db.(horses := db.horses[um.kettoNum := HorseRowOf(um)]))
    case Odds(o1) => Success(db.(odds := UpsertAll(db.odds, OddsEntries(o1))))
    case Weight(wf) => Success(db.(weights := UpsertAll(db.weights, WeightEntries(wf))))
    case Schedule(ys) =>
      (match SaveKaisais(db.schedules, ys.year, ys.henkoId, ys.kaisaiInfo)
       case Failure => Failure
       case Success(t) => Success(db.(schedules := t)))
    case Other(_, _, _, _) => Success(db)
  }

  // ---------------------------------------------------------------- properties

  /** The race key is its six fields joined: a 16-digit key block reads
      back as itself. */
  lemma RaceKeyRoundTrip(pre: Bytes, key: Bytes, post: Bytes)
    requires |key| == 16 && AllDigits(key)
    ensures BuildRaceKey(RaceKeyAt(pre + key + post, |pre| + 1)) == key
  {
    var data, p := pre + key + post, |pre|;
    assert data[p..p + 16] == key;
    DigitsInside(data, p, key[..4]);
    DigitsInside(data, p + 4, key[4..8]);
    DigitsInside(data, p + 8, key[8..10]);
    DigitsInside(data, p + 10, key[10..12]);
    DigitsInside(data, p + 12, key[12..14]);
    DigitsInside(data, p + 14, key[14..]);
    assert key == key[..4] + key[4..8] + key[8..10] + key[10..12] + key[12..14] + key[14..];
  }

  /** Upserting keeps every row already stored and adds one key per entry. */
  lemma {:induction false} UpsertAllKeys<K, V>(m: map<K, V>, entries: seq<(K, V)>)
    ensures UpsertAll(m, entries).Keys == m.Keys + (set i | 0 <= i < |entries| :: entries[i].0)
  {
    if |entries| > 0 {
      var init := entries[..|entries| - 1];
      UpsertAllKeys(m, init);
      assert forall i :: 0 <= i < |init| ==> init[i] == entries[i];
      assert (set i | 0 <= i < |entries| :: entries[i].0) ==
        (set i | 0 <= i < |init| :: init[i].0) + {entries[|entries| - 1].0};
    }
  }

  /** Upserting a sequence of rows lays the last row stored under each key
      over the table: what was there before only survives under keys the
      sequence does not touch. */
  lemma {:induction false} UpsertAllOverrides<K, V>(m: map<K, V>, entries: seq<(K, V)>)
    ensures UpsertAll(m, entries) == m + UpsertAll(map[], entries)
  {
    if |entries| > 0 {
      var e := entries[|entries| - 1];
      var init := entries[..|entries| - 1];
      UpsertAllOverrides(m, init);
      var l := UpsertAll(map[], init);
      assert (m + l)[e.0 := e.1] == m + l[e.0 := e.1];
    }
  }

  /** Writing the same rows twice leaves the table as writing them once. */
  lemma UpsertAllIdempotent<K, V>(m: map<K, V>, entries: seq<(K, V)>)
    ensures UpsertAll(UpsertAll(m, entries), entries) == UpsertAll(m, entries)
  {
    var l := UpsertAll(map[], entries);
    UpsertAllOverrides(m, entries);
    UpsertAllOverrides(m + l, entries);
    assert (m + l) + l == m + l;
  }

  /** The last row written under a key is the one stored: of two horses in
      the same race with the same number, the later slot wins. */
  lemma {:induction false} UpsertAllLastWins<K, V>(m: map<K, V>, entries: seq<(K, V)>, i: nat)
    requires i < |entries|
    requires forall j :: i < j < |entries| ==> entries[j].0 != entries[i].0
    ensures entries[i].0 in UpsertAll(m, entries) && UpsertAll(m, entries)[entries[i].0] == entries[i].1
  {
    if i < |entries| - 1 {
      var init := entries[..|entries| - 1];
      assert forall j :: i < j < |init| ==> init[j] == entries[j];
      UpsertAllLastWins(m, init, i);
    }
  }

  /** Saving a record a second time changes nothing when every row it
      writes has a key without NULLs. */
  lemma SaveRecordIdempotent(db: Database, rec: Record)
    requires SaveRecord(db, rec).Success?
    requires rec.Entry? ==> rec.entry.umaban.Some?
    requires rec.Schedule? ==> forall i :: 0 <= i < |rec.schedule.kaisaiInfo| ==>
      rec.schedule.kaisaiInfo[i].kaiji != [] && rec.schedule.kaisaiInfo[i].nichiji != []
    ensures SaveRecord(SaveRecord(db, rec).value, rec) == SaveRecord(db, rec)
  {
    match rec
    case Race(ra) =>
      var row := RaceRowOf(ra).value;
      StoreTwice(db.races, row.raceKey, row);
    case Entry(se) =>
      var row := ResultRowOf(se);
      StoreTwice(db.results.keyed, (row.raceKey, row.umaban.value), row);
    case Horse(um) => StoreTwice(db.horses, um.kettoNum, HorseRowOf(um));
    case Odds(o1) => UpsertAllIdempotent(db.odds, OddsEntries(o1));
    case Weight(wf) => UpsertAllIdempotent(db.weights, WeightEntries(wf));
    case Schedule(ys) => SaveKaisaisIdempotent(db.schedules, ys.year, ys.henkoId, ys.kaisaiInfo);
    case Other(_, _, _, _) =>
  }

  /** Meetings whose kaiji and nichiji are both filled in are all keyed:
      saving them lays the same rows over any table, and a meeting that
      does not convert fails the save whatever the table holds. */
  lemma {:induction false} SaveKaisaisOverlay(t: Table<ScheduleKey, ScheduleRow>, year: string, henkoId: string, ks: seq<Kaisai>)
    requires forall i :: 0 <= i < |ks| ==> ks[i].kaiji != [] && ks[i].nichiji != []
    ensures var e := SaveKaisais(Table(map[], []), year, henkoId, ks);
      SaveKaisais(t, year, henkoId, ks) == (if e.Success? then Success(Table(t.keyed + e.value.keyed, t.loose)) else Failure)
    ensures var e := SaveKaisais(Table(map[], []), year, henkoId, ks);
      e.Success? ==> e.value.loose == []
  {
    if |ks| > 0 {
      var init, k := ks[..|ks| - 1], ks[|ks| - 1];
      SaveKaisaisOverlay(t, year, henkoId, init);
      SaveKaisaisOverlayStep(t, year, henkoId, ks);
    } else {
      OverlayNothing(t);
    }
  }

  /** Saving meetings whose kaiji and nichiji are filled in a second time
      changes nothing. */
  lemma SaveKaisaisIdempotent(t: Table<ScheduleKey, ScheduleRow>, year: string, henkoId: string, ks: seq<Kaisai>)
    requires forall i :: 0 <= i < |ks| ==> ks[i].kaiji != [] && ks[i].nichiji != []
    requires SaveKaisais(t, year, henkoId, ks).Success?
    ensures SaveKaisais(SaveKaisais(t, year, henkoId, ks).value, year, henkoId, ks) == SaveKaisais(t, year, henkoId, ks)
  {
    SaveKaisaisOverlay(t, year, henkoId, ks);
    var m := SaveKaisais(Table(map[], []), year, henkoId, ks).value.keyed;
    SaveKaisaisOverlay(Table(t.keyed + m, t.loose), year, henkoId, ks);
    OverlayTwice(t.keyed, m);
  }

  /** `INSERT OR REPLACE` of the same row twice stores it once. */
  lemma StoreTwice<K, V>(m: map<K, V>, k: K, v: V)
    ensures m[k := v][k := v] == m[k := v]
  {
  }

  /** Laying the same rows over a table twice lays them once. */
  lemma OverlayTwice<K, V>(a: map<K, V>, m: map<K, V>)
    ensures (a + m) + m == a + m
  {
  }

  /** One more meeting keeps the overlay `SaveKaisaisOverlay` states. */
  lemma SaveKaisaisOverlayStep(t: Table<ScheduleKey, ScheduleRow>, year: string, henkoId: string, ks: seq<Kaisai>)
    requires |ks| > 0 && ks[|ks| - 1].kaiji != [] && ks[|ks| - 1].nichiji != []
    requires var e := SaveKaisais(Table(map[], []), year, henkoId, ks[..|ks| - 1]);
      SaveKaisais(t, year, henkoId, ks[..|ks| - 1]) == (if e.Success? then Success(Table(t.keyed + e.value.keyed, t.loose)) else Failure) &&
      (e.Success? ==> e.value.loose == [])
    ensures var e := SaveKaisais(Table(map[], []), year, henkoId, ks);
      SaveKaisais(t, year, henkoId, ks) == (if e.Success? then Success(Table(t.keyed + e.value.keyed, t.loose)) else Failure) &&
      (e.Success? ==> e.value.loose == [])
  {
    var init, k := ks[..|ks| - 1], ks[|ks| - 1];
    var e0 := SaveKaisais(Table(map[], []), year, henkoId, init);
    var r := ScheduleRowOf(year, henkoId, k);
    if e0.Success? && r.Success? {
      FilledRowIsKeyed(year, henkoId, k);
      PutScheduleOverlay(t, e0.value.keyed, r.value);
    }
  }

  /** Laying no rows over a table leaves it as it was. */
  lemma OverlayNothing(t: Table<ScheduleKey, ScheduleRow>)
    ensures Table(t.keyed + map[], t.loose) == t
  {
    assert t.keyed + map[] == t.keyed;
  }

  /** A meeting whose kaiji and nichiji are filled in converts, if at all,
      to a row with both columns set. */
  lemma FilledRowIsKeyed(year: string, henkoId: string, k: Kaisai)
    requires k.kaiji != [] && k.nichiji != [] && ScheduleRowOf(year, henkoId, k).Success?
    ensures ScheduleRowOf(year, henkoId, k).value.kaiji.Some? && ScheduleRowOf(year, henkoId, k).value.nichiji.Some?
  {
  }

  /** A keyed schedule row written over a table with rows `m` laid on it
      is the row written into `m`, laid on the table. */
  lemma PutScheduleOverlay(t: Table<ScheduleKey, ScheduleRow>, m: map<ScheduleKey, ScheduleRow>, row: ScheduleRow)
    requires row.kaiji.Some? && row.nichiji.Some?
    ensures PutSchedule(Table(t.keyed + m, t.loose), row) == Table(t.keyed + PutSchedule(Table(m, []), row).keyed, t.loose)
    ensures PutSchedule(Table(m, []), row).loose == []
  {
    var key := ScheduleKey(row.year, row.kaijiDate, row.jyoCode, row.kaiji.value, row.nichiji.value);
    assert (t.keyed + m)[key := row] == t.keyed + m[key := row];
  }

  /** A YS meeting with a blank kaiji is stored with a NULL kaiji, which
      never conflicts with the key: every save appends its row again, so
      saving the record twice leaves two copies. */
  lemma BlankKaijiDuplicates(db: Database, ys: ScheduleRecord, k: Kaisai)
    requires ys.kaisaiInfo == [k] && k.kaiji == [] && ScheduleRowOf(ys.year, ys.henkoId, k).Success?
    ensures var row := ScheduleRowOf(ys.year, ys.henkoId, k).value;
      SaveRecord(db, Schedule(ys)) == Success(db.(schedules := Table(db.schedules.keyed, db.schedules.loose + [row])))
  {
    SaveOneMeeting(db.schedules, ys.year, ys.henkoId, k);
  }

  /** A schedule record with one meeting writes that meeting's row. */
  lemma SaveOneMeeting(t: Table<ScheduleKey, ScheduleRow>, year: string, henkoId: string, k: Kaisai)
    requires ScheduleRowOf(year, henkoId, k).Success?
    ensures SaveKaisais(t, year, henkoId, [k]) == Success(PutSchedule(t, ScheduleRowOf(year, henkoId, k).value))
  {
    assert [k][..0] == [];
  }

  /** An SE record with a blank horse number is appended on every save:
      saving it twice leaves two copies of its row. */
  lemma NullHorseNumberDuplicates(db: Database, se: EntryRecord)
    requires se.umaban.None?
    ensures SaveRecord(SaveRecord(db, Entry(se)).value, Entry(se)).value.results ==
      Table(db.results.keyed, db.results.loose + [ResultRowOf(se), ResultRowOf(se)])
  {
  }

  /** A race record whose kaiji is not an integer cannot be saved. */
  lemma RaceWithBadKaijiFails(db: Database, ra: RaceRecord)
    requires ra.raceKey.kaiji != [] && PyInt(ra.raceKey.kaiji).None?
    ensures SaveRecord(db, Race(ra)) == Failure
  {
  }

  /** A schedule record fails as a whole when any of its meetings does not
      convert, however many meetings before it did. */
  lemma {:induction false} SaveKaisaisFailsOnAnyBadRow(t: Table<ScheduleKey, ScheduleRow>, year: string, henkoId: string,
                                                      ks: seq<Kaisai>, i: nat)
    requires i < |ks| && ScheduleRowOf(year, henkoId, ks[i]).Failure?
    ensures SaveKaisais(t, year, henkoId, ks) == Failure
  {
    if i < |ks| - 1 {
      var init := ks[..|ks| - 1];
      assert init[i] == ks[i];
      SaveKaisaisFailsOnAnyBadRow(t, year, henkoId, init, i);
    }
  }
}
