/**
 * `JVDataManager`: it saves parsed records into the database, reads the
 * JV-Link stream into batches, and keeps the `process_history` table for
 * each run.
 *
 * - The committed database is the field `db`.
 * - The connection a save works on is a `Connection`, whose tables are the
 *   uncommitted working copy: a commit copies them into `db`, and a rollback
 *   or a close without commit drops them.
 * - Every `get_db_connection` consumes the next connection number,
 *   `attempts`. Connecting with a number in `faults` raises `sqlite3.Error`.
 * - Clock readings for `CURRENT_TIMESTAMP` are parameters.
 * - The COM replies the JV-Link handle will give are parameters too.
 */
module Manager {
  import opened Wrappers
  import opened Records
  import opened RecordParser
  import Store
  import opened Batch
  import Ingest
  import opened JvLink
  import opened History

  /** An open `sqlite3` connection, with the tables as its transaction sees them. */
  class Connection {
    var tables: Store.Database

    constructor(committed: Store.Database)
      ensures tables == committed
    {
      tables := committed;
    }
  }

  /** How a public `JVDataManager` method ends: it returns a bool, or an
      exception escapes it. */
  datatype Exit = Returned(ok: bool) | Raised

  /** The items `process_data` reads from a handle that is open or not:
      each `gets` reply, or an exception where `gets` raises. */
  function Items(isOpen: bool, replies: seq<GetsReply>): (s: seq<Ingest.Item<Payload>>)
    ensures |s| == |replies| && forall i :: 0 <= i < |replies| ==> s[i] == ItemOf(isOpen, replies[i])
  {
    seq(|replies|, i requires 0 <= i < |replies| => ItemOf(isOpen, replies[i]))
  }

  /** The item one `gets` reply gives. */
  function ItemOf(isOpen: bool, reply: GetsReply): (item: Ingest.Item<Payload>)
    ensures item.Raises? <==> GetsResult(isOpen, reply).None?
    ensures item.Read? ==> Some((item.ret, item.data, item.filename)) == GetsResult(isOpen, reply)
  {
    match GetsResult(isOpen, reply)
    case None => Ingest.Raises
    case Some((ret, data, filename)) => Ingest.Read(ret, data, filename)
  }

  /** `parse` is `Records.Decode` and `save` is `Store.SaveRecord`, point
      by point. */
  ghost predicate Agree(parse: Payload -> ParseResult<Record>, save: (Store.Database, Record) -> Result<Store.Database>) {
    (forall p {:trigger Decode(p)} :: parse(p) == Decode(p)) &&
    (forall d, r {:trigger Store.SaveRecord(d, r)} :: save(d, r) == Store.SaveRecord(d, r))
  }

  /** The resume cursor `download_setup_data` opens from and records. */
  const SetupCursor := "99999999999999"

  /** The `batch_size` the run flows leave at its default. */
  const BatchSize := 100

  /** The `max_records` of `get_realtime_data`. */
  const RealtimeLimit := 10000

  /** The COM replies a run meets besides its open call and its `gets`
      replies: whether `Dispatch` succeeds, what `JVInit` gives, what
      `JVSetSavePath` and `JVSetSaveFlag` answer, and what `JVClose`
      answers. */
  datatype Link = Link(dispatch: bool, init: Call<int>, savePathReply: int, saveFlagReply: int, closeRet: int)

  /** The open call of a run: `open` (`JVOpen`) for stored data, or
      `open_realtime` (`JVRTOpen`) for realtime data, with its COM reply. */
  datatype OpenCall = JvOpen(stored: Call<OpenReply>) | JvRtOpen(realtime: Call<int>)

  /** The code the open call of an initialized handle returns, or `None`
      when the COM call throws. */
  function OpenCode(open: OpenCall): (r: Option<int>)
    ensures r.None? <==> (open.JvOpen? && open.stored.Throws?) || (open.JvRtOpen? && open.realtime.Throws?)
  {
    match open
    case JvOpen(Throws) => None
    case JvOpen(Returns(Tuple4(ret, _, _, _))) => Some(ret)
    case JvOpen(Returns(Bare(code))) => Some(code)
    case JvRtOpen(Throws) => None
    case JvRtOpen(Returns(ret)) => Some(ret)
  }

  /** Whether a flow goes on to read after its open call returned `code`:
      stored data is read on any code that is not negative, realtime data
      only on 0. */
  predicate Accepts(open: OpenCall, code: int) {
    if open.JvOpen? then code >= 0 else code == 0
  }

  /** The `max_records` the flow hands `process_data`: the read count
      `JVOpen` reported (a negative count reads nothing, as 0 does), or
      10000 for realtime data. */
  function ReadLimit(open: OpenCall): (n: nat)
    ensures open.JvRtOpen? ==> n == RealtimeLimit
    ensures open.JvOpen? && open.stored.Returns? && open.stored.value.Tuple4? ==>
      n == if open.stored.value.readCount < 0 then 0 else open.stored.value.readCount
  {
    match open
    case JvOpen(Returns(Tuple4(_, readCount, _, _))) => if readCount < 0 then 0 else readCount
    case JvOpen(_) => 0
    case JvRtOpen(_) => RealtimeLimit
  }

  /** How far a run got once its history row was inserted: `initialize_jvlink`
      failed; the open call returned a code the flow refuses; something in
      the `try` block raised before the SUCCESS update (the open call or
      `process_data`); or `process_data` returned its counts. */
  datatype Stage = InitFailed | Rejected(code: int) | Threw | Drained(processed: nat, errors: nat)

  /** Whether a run that reached `stage` got as far as `process_data`:
      initialization succeeded and the open call returned a code the flow
      accepts. */
  predicate Reads(stage: Stage, open: OpenCall) {
    !stage.InitFailed? && OpenCode(open).Some? && Accepts(open, OpenCode(open).value)
  }

  /** The `process_history` table, the next connection number and the exit
      of a run after the stage it reached, with its first history update on
      connection `attempt`: the `try` block's own update (ERROR 0/0 after a
      refused open, SUCCESS with the counts after `process_data`), and when
      that or anything before it raised, the `except` block's ERROR 0/0
      update, whose own failure escapes the flow. A failed initialization
      updates nothing. */
  function Closing(h: seq<HistoryRow>, id: nat, stage: Stage, attempt: nat, faults: set<nat>, now: nat):
    (r: (seq<HistoryRow>, nat, Exit))
  {
    match stage
    case InitFailed => (h, attempt, Returned(false))
    case Threw => Recovered(h, id, attempt, faults, now)
    case Rejected(_) =>
      if attempt in faults then Recovered(h, id, attempt + 1, faults, now)
      else (Finished(h, id, ERROR, 0, 0, now), attempt + 1, Returned(false))
    case Drained(processed, errors) =>
      if attempt in faults then Recovered(h, id, attempt + 1, faults, now)
      else (Finished(h, id, SUCCESS, processed, errors, now), attempt + 1, Returned(true))
  }

  /** The `except` block of a run flow: ERROR 0/0 and `False`, or the
      exception of its own update. */
  function Recovered(h: seq<HistoryRow>, id: nat, attempt: nat, faults: set<nat>, now: nat): (seq<HistoryRow>, nat, Exit) {
    if attempt in faults then (h, attempt + 1, Raised)
    else (Finished(h, id, ERROR, 0, 0, now), attempt + 1, Returned(false))
  }

  // ---------------------------------------------------------------- properties

  /** What a run leaves in `process_history` once its row is inserted: one
      new row, last, with the run's type, spec and cursor, whatever else
      happens.
      - The flow returns `True` exactly when that row says SUCCESS, and
        then the row holds `process_data`'s counts and a clock reading as
        `to_time`.
      - A failed initialization, or an exception escaping the `except`
        block, leaves the row RUNNING for good.
      - Any other `False` leaves it ERROR with counts 0/0. */
  lemma RunRecord(h: seq<HistoryRow>, processType: string, dataSpec: string, fromTime: Option<Stamp>, started: nat,
                  stage: Stage, attempt: nat, faults: set<nat>, now: nat)
    requires WellNumbered(h)
    ensures var (h1, id) := Started(h, processType, dataSpec, fromTime, started);
      var (h2, _, exit) := Closing(h1, id, stage, attempt, faults, now);
      var row := h2[|h|];
      |h2| == |h| + 1 && h2[..|h|] == h && WellNumbered(h2) &&
      row.processType == processType && row.dataSpec == dataSpec && row.fromTime == fromTime && row.startedAt == started &&
      (exit == Returned(true) <==> row.status == SUCCESS) &&
      (exit == Returned(true) ==>
        row.processedCount == Some(stage.processed) && row.errorCount == Some(stage.errors) && row.toTime == Some(Clock(now))) &&
      (row.status == RUNNING <==> stage.InitFailed? || exit == Raised) &&
      (exit == Returned(false) && !stage.InitFailed? ==>
        row.status == ERROR && row.processedCount == Some(0) && row.errorCount == Some(0))
  {
    var (h1, id) := Started(h, processType, dataSpec, fromTime, started);
    assert h1[..|h|] == h;
    var (h2, _, exit) := Closing(h1, id, stage, attempt, faults, now);
    assert h2[..|h|] == h1[..|h|];
  }

  /** A run whose stream opens with eleven bad status codes stops on its
      error budget, yet its row is recorded SUCCESS with eleven errors and
      the flow returns `True`. */
  lemma BudgetStopRecordsSuccess(h: seq<HistoryRow>, processType: string, dataSpec: string, fromTime: Option<Stamp>,
                                 started: nat, limit: nat, data: Payload, rest: seq<Ingest.Item<Payload>>,
                                 attempt: nat, faults: set<nat>, now: nat)
    requires WellNumbered(h) && limit > 0 && attempt !in faults
    ensures var o := Ingest.ProcessData(Decode, limit, BatchSize, seq(11, _ => Ingest.Read(-100, data, "")) + rest);
      var (h1, id) := Started(h, processType, dataSpec, fromTime, started);
      var (h2, _, exit) := Closing(h1, id, Drained(o.processed, o.errors), attempt, faults, now);
      !o.raised && exit == Returned(true) && h2[|h|].status == SUCCESS && h2[|h|].errorCount == Some(11)
  {
    Ingest.ElevenErrorsStop(Decode, limit, BatchSize, data, rest);
    var o := Ingest.ProcessData(Decode, limit, BatchSize, seq(11, _ => Ingest.Read(-100, data, "")) + rest);
    RunRecord(h, processType, dataSpec, fromTime, started, Drained(o.processed, o.errors), attempt, faults, now);
  }

  /** What `initialize` returns to `initialize_jvlink` for a handle that has
      a COM object or not. */
  function InitializeResult(hasCom: bool, dispatch: bool, init: Call<int>): int {
    if !hasCom && !dispatch then -100
    else if init.Throws? then -100
    else init.value
  }

  class DataManager {
    var db: Store.Database
    var history: seq<HistoryRow>
    var attempts: nat
    const faults: set<nat>
    const savePath: string
    const jvlink: Client
    /** `RecordParser.parse` and `save_record`, as the specification
        functions `Records.Decode` and `Store.SaveRecord` (see `Wired`). */
    ghost const parse: Payload -> ParseResult<Record>
    ghost const save: (Store.Database, Record) -> Result<Store.Database>

    ghost predicate Valid()
      reads this, jvlink
    {
      jvlink.Valid() && WellNumbered(history) && Wired()
    }

    ghost predicate Wired() {
      Agree(parse, save)
    }

    /** `__init__`: empty tables, no history, and a fresh JV-Link handle.
        The `setup_database` connection is the first one. */
    constructor(savePath: string, faults: set<nat>)
      ensures Valid() && fresh(jvlink)
      ensures db == Store.EmptyDatabase && history == [] && this.faults == faults && this.savePath == savePath
      ensures !jvlink.hasCom && !jvlink.isInitialized && !jvlink.isOpen
      ensures attempts == 1
      ensures parse == Decode && save == Store.SaveRecord
    {
      parse := Decode;
      save := Store.SaveRecord;
      db := Store.EmptyDatabase;
      history := [];
      attempts := 1;
      this.faults := faults;
      this.savePath := savePath;
      jvlink := new Client();
    }

    // ------------------------------------------------------------ save_record

    /** `save_race_record`: one `INSERT OR REPLACE` into `races`. Converting
        kaiji, nichiji or the race number can raise first. */
    method SaveRaceRecord(conn: Connection, rec: RaceRecord) returns (ok: bool)
      modifies conn
      ensures ok == Store.RaceRowOf(rec).Success?
      ensures ok ==> conn.tables == old(conn.tables).(races := old(conn.tables).races[Store.BuildRaceKey(rec.raceKey) := Store.RaceRowOf(rec).value])
      ensures !ok ==> conn.tables == old(conn.tables)
    {
      var row := Store.RaceRowOf(rec);
      if row.Failure? {
        return false;
      }
      conn.tables := conn.tables.(races := conn.tables.races[row.value.raceKey := row.value]);
      ok := true;
    }

    /** `save_result_record`: one row into `results`. */
    method SaveResultRecord(conn: Connection, rec: EntryRecord)
      modifies conn
      ensures conn.tables == old(conn.tables).(results := Store.PutResult(old(conn.tables).results, Store.ResultRowOf(rec)))
    {
      conn.tables := conn.tables.(results := Store.PutResult(conn.tables.results, Store.ResultRowOf(rec)));
    }

    /** `save_horse_record`: one row into `horses`, keyed by `ketto_num`. */
    method SaveHorseRecord(conn: Connection, rec: HorseRecord)
      modifies conn
      ensures conn.tables == old(conn.tables).(horses := old(conn.tables).horses[rec.kettoNum := Store.HorseRowOf(rec)])
    {
      conn.tables := conn.tables.(horses := conn.tables.horses[rec.kettoNum := Store.HorseRowOf(rec)]);
    }

    /** `save_odds_record`: one row per horse into `odds`, in slot order. */
    method SaveOddsRecord(conn: Connection, rec: OddsRecord)
      modifies conn
      ensures conn.tables == old(conn.tables).(odds := Store.UpsertAll(old(conn.tables).odds, Store.OddsEntries(rec)))
    {
      var raceKey := Store.BuildRaceKey(rec.raceKey);
      var i := 0;
      while i < |rec.odds|
        invariant 0 <= i <= |rec.odds|
        invariant conn.tables == old(conn.tables).(odds := Store.UpsertAll(old(conn.tables).odds,
                                                     Store.OddsEntriesOf(raceKey, rec.dataKubun, rec.odds[..i])))
      {
        var odds := rec.odds[i];
        ghost var done := Store.OddsEntriesOf(raceKey, rec.dataKubun, rec.odds[..i]);
        var entry := ((raceKey, odds.umaban), Store.OddsRowOf(raceKey, rec.dataKubun, odds));
        assert rec.odds[..i + 1][..i] == rec.odds[..i];
        assert (done + [entry])[..|done|] == done;
        conn.tables := conn.tables.(odds := conn.tables.odds[entry.0 := entry.1]);
        i := i + 1;
      }
      assert rec.odds[..i] == rec.odds;
    }

    /** `save_weight_record`: one row per horse into `weights`, in slot order. */
    method SaveWeightRecord(conn: Connection, rec: WeightRecord)
      modifies conn
      ensures conn.tables == old(conn.tables).(weights := Store.UpsertAll(old(conn.tables).weights, Store.WeightEntries(rec)))
    {
      var raceKey := Store.BuildRaceKey(rec.raceKey);
      var i := 0;
      while i < |rec.weights|
        invariant 0 <= i <= |rec.weights|
        invariant conn.tables == old(conn.tables).(weights := Store.UpsertAll(old(conn.tables).weights,
                                                     Store.WeightEntriesOf(raceKey, rec.dataKubun, rec.weights[..i])))
      {
        var weight := rec.weights[i];
        ghost var done := Store.WeightEntriesOf(raceKey, rec.dataKubun, rec.weights[..i]);
        var entry := ((raceKey, weight.umaban), Store.WeightRowOf(raceKey, rec.dataKubun, weight));
        assert rec.weights[..i + 1][..i] == rec.weights[..i];
        assert (done + [entry])[..|done|] == done;
        conn.tables := conn.tables.(weights := conn.tables.weights[entry.0 := entry.1]);
        i := i + 1;
      }
      assert rec.weights[..i] == rec.weights;
    }

    /** `save_schedule_record`: one row per meeting into `schedules`. A
        meeting whose kaiji or nichiji does not convert raises; the rows
        before it are then rolled back with the rest of the transaction. */
    method SaveScheduleRecord(conn: Connection, rec: ScheduleRecord) returns (ok: bool)
      modifies conn
      ensures var r := Store.SaveKaisais(old(conn.tables).schedules, rec.year, rec.henkoId, rec.kaisaiInfo);
        ok == r.Success? && (ok ==> conn.tables == old(conn.tables).(schedules := r.value))
    {
      var r := InsertSchedules(conn.tables.schedules, rec.year, rec.henkoId, rec.kaisaiInfo);
      if r.Failure? {
        return false;
      }
      conn.tables := conn.tables.(schedules := r.value);
      ok := true;
    }

    /** The loop of `save_schedule_record` over the `schedules` table. */
    method InsertSchedules(t: Store.Table<Store.ScheduleKey, Store.ScheduleRow>, year: string, henkoId: string, ks: seq<Kaisai>)
      returns (r: Result<Store.Table<Store.ScheduleKey, Store.ScheduleRow>>)
      ensures r == Store.SaveKaisais(t, year, henkoId, ks)
    {
      var table := t;
      var i := 0;
      while i < |ks|
        invariant 0 <= i <= |ks|
        invariant Store.SaveKaisais(t, year, henkoId, ks[..i]) == Success(table)
      {
        assert ks[..i + 1][..i] == ks[..i];
        var row := Store.ScheduleRowOf(year, henkoId, ks[i]);
        if row.Failure? {
          Store.SaveKaisaisFailsOnAnyBadRow(t, year, henkoId, ks, i);
          return Failure;
        }
        table := Store.PutSchedule(table, row.value);
        i := i + 1;
      }
      assert ks[..i] == ks;
      return Success(table);
    }

    /** `save_record`: dispatch on the record type; a record of any other
        type writes nothing. `ok` is false where the save raises. */
    method SaveRecord(conn: Connection, rec: Record) returns (ok: bool)
      modifies conn
      ensures ok == Store.SaveRecord(old(conn.tables), rec).Success?
      ensures ok ==> conn.tables == Store.SaveRecord(old(conn.tables), rec).value
    {
      match rec {
        case Race(ra) =>
          ok := SaveRaceRecord(conn, ra);
        case Entry(se) =>
          SaveResultRecord(conn, se);
          ok := true;
        case Horse(um) =>
          SaveHorseRecord(conn, um);
          ok := true;
        case Odds(o1) =>
          SaveOddsRecord(conn, o1);
          ok := true;
        case Weight(wf) =>
          SaveWeightRecord(conn, wf);
          ok := true;
        case Schedule(ys) =>
          ok := SaveScheduleRecord(conn, ys);
        case Other(_, _, _, _) =>
          ok := true;
      }
    }

    // ------------------------------------------------------------ batches

    /** `_save_batch_records`: all records in one transaction on one
        connection, committed together; if the connection cannot be opened
        or any save raises, nothing is committed and the records are saved
        one by one. */
    method SaveBatchRecords(records: seq<Record>)
      requires Wired()
      modifies this
      ensures (db, attempts) == SaveBatch(save, old(db), records, old(attempts), faults)
      ensures history == old(history)
    {
      if records == [] {
        return;
      }
      var attempt := attempts;
      attempts := attempts + 1;
      if attempt in faults {
        SaveRecordsIndividually(records);
        return;
      }
      var committed, tables := SaveInTransaction(records);
      if !committed {
        SaveRecordsIndividually(records);
        return;
      }
      db := tables;
    }

    /** The `try` block of `_save_batch_records` on a connection that
        opened: every record saved in turn, stopping at the first that
        raises. The caller commits the tables when all of them saved. */
    method SaveInTransaction(records: seq<Record>) returns (committed: bool, tables: Store.Database)
      requires Wired()
      ensures committed == SaveAll(save, db, records).Success?
      ensures committed ==> tables == SaveAll(save, db, records).value
    {
      var conn := new Connection(db);
      var i := 0;
      while i < |records|
        invariant 0 <= i <= |records|
        invariant SaveAll(save, db, records[..i]) == Success(conn.tables)
      {
        assert records[..i + 1][..i] == records[..i];
        var ok := SaveRecord(conn, records[i]);
        if !ok {
          SaveAllFailsOnAnyFailure(save, db, records, i);
          return false, conn.tables;
        }
        i := i + 1;
      }
      assert records[..i] == records;
      return true, conn.tables;
    }

    /** `_save_records_individually`: each record on its own connection,
        committed on its own; a record whose connection or save raises is
        skipped. */
    method SaveRecordsIndividually(records: seq<Record>)
      requires Wired()
      modifies this
      ensures db == SaveEach(save, old(db), records, old(attempts), faults)
      ensures attempts == old(attempts) + |records| && history == old(history)
    {
      var i := 0;
      while i < |records|
        invariant 0 <= i <= |records|
        invariant db == SaveEach(save, old(db), records[..i], old(attempts), faults)
        invariant attempts == old(attempts) + i && history == old(history)
      {
        assert records[..i + 1][..i] == records[..i];
        SaveAlone(records[i]);
        i := i + 1;
      }
      assert records[..i] == records;
    }

    /** One iteration of `_save_records_individually`: the record on a
        connection of its own, committed when its save succeeds. */
    method SaveAlone(rec: Record)
      requires Wired()
      modifies this
      ensures db == SaveOne(save, old(db), rec, old(attempts), faults)
      ensures attempts == old(attempts) + 1 && history == old(history)
    {
      var attempt := attempts;
      attempts := attempts + 1;
      if attempt !in faults {
        var conn := new Connection(db);
        var ok := SaveRecord(conn, rec);
        if ok {
          db := conn.tables;
        }
      }
    }

    // ------------------------------------------------------------ process_data

    /** `process_data(max_records, batch_size)` over the `gets` replies
        `replies`; `statusReply` is what `JVStatus` answers on every tenth
        wait. The counts, and the batches handed to `_save_batch_records`,
        are those of `Ingest.ProcessData` over the same replies; when `gets`
        raises, `raised` is set and the counts mean nothing. */
    method ProcessData(replies: seq<GetsReply>, statusReply: int, maxRecords: nat, batchSize: nat)
      returns (processed: nat, errors: nat, raised: bool)
      requires Valid()
      modifies this
      ensures Valid() && history == old(history)
      ensures var o := Ingest.ProcessData(parse, maxRecords, batchSize, Items(jvlink.isOpen, replies));
        raised == o.raised && (!raised ==> processed == o.processed && errors == o.errors) &&
        (db, attempts) == SaveBatches(save, old(db), o.flushes, old(attempts), faults)
    {
      var st, control := ReadLoop(replies, statusReply, maxRecords, batchSize);
      processed, errors, raised := st.processed, st.errors, control == Ingest.Raise;
      if !raised && st.batch != [] {
        SaveBatchesSnoc(save, old(db), st.flushed, st.batch, old(attempts), faults);
        SaveBatchRecords(st.batch);
      }
    }

    /** The `while` loop of `process_data`. Its variables are the fields of
        an `Ingest.State`; the loop ends as `Ingest.Run` does, and the
        batches it flushed are saved one after another. */
    method ReadLoop(replies: seq<GetsReply>, statusReply: int, maxRecords: nat, batchSize: nat)
      returns (st: Ingest.State<Record>, control: Ingest.Control)
      requires Wired()
      modifies this
      ensures history == old(history)
      ensures var e := Ingest.Run(parse, maxRecords, batchSize, Ingest.Initial(), Items(jvlink.isOpen, replies));
        e.last == st && e.raised == (control == Ingest.Raise)
      ensures (db, attempts) == SaveBatches(save, old(db), st.flushed, old(attempts), faults)
    {
      ghost var stream := Items(jvlink.isOpen, replies);
      assert stream[0..] == stream;
      ghost var e := Ingest.Run(parse, maxRecords, batchSize, Ingest.Initial(), stream);
      st, control := Ingest.Initial(), Ingest.Continue;
      var k := 0;
      while st.processed < maxRecords && k < |replies| && control == Ingest.Continue
        invariant 0 <= k <= |replies|
        invariant history == old(history)
        invariant (db, attempts) == SaveBatches(save, old(db), st.flushed, old(attempts), faults)
        invariant control == Ingest.Continue ==>
          Ingest.Run(parse, maxRecords, batchSize, st, stream[k..]).last == e.last &&
          Ingest.Run(parse, maxRecords, batchSize, st, stream[k..]).raised == e.raised
        invariant control != Ingest.Continue ==> e.last == st && e.raised == (control == Ingest.Raise)
        decreases |replies| - k
      {
        st, control := ReadOne(replies[k], statusReply, maxRecords, batchSize, st, stream, k, old(db), old(attempts));
        k := k + 1;
      }
    }

    method ReadOne(reply: GetsReply, statusReply: int, maxRecords: nat, batchSize: nat, st: Ingest.State<Record>,
                   ghost stream: seq<Ingest.Item<Payload>>, ghost k: nat,
                   ghost db0: Store.Database, ghost attempts0: nat)
      returns (st': Ingest.State<Record>, control: Ingest.Control)
      requires Wired()
      requires k < |stream| && stream[k] == ItemOf(jvlink.isOpen, reply) && st.processed < maxRecords
      requires (db, attempts) == SaveBatches(save, db0, st.flushed, attempts0, faults)
      modifies this
      ensures history == old(history)
      ensures (db, attempts) == SaveBatches(save, db0, st'.flushed, attempts0, faults)
      ensures var r := Ingest.Run(parse, maxRecords, batchSize, st, stream[k..]);
        if control == Ingest.Continue then
          r.last == Ingest.Run(parse, maxRecords, batchSize, st', stream[k + 1..]).last &&
          r.raised == Ingest.Run(parse, maxRecords, batchSize, st', stream[k + 1..]).raised
        else r.last == st' && r.raised == (control == Ingest.Raise)
    {
      st', control := ReadStep(reply, statusReply, batchSize, st, db0, attempts0);
      Ingest.RunAdvances(parse, maxRecords, batchSize, st, stream, k);
    }

    /** One pass of the loop body: one `gets`, then the branch for its
        status. It is `Ingest.Step`, and a batch it hands to
        `_save_batch_records` is saved on top of the earlier ones. */
    method ReadStep(reply: GetsReply, statusReply: int, batchSize: nat, st: Ingest.State<Record>,
                   ghost db0: Store.Database, ghost attempts0: nat)
      returns (st': Ingest.State<Record>, control: Ingest.Control)
      requires Wired()
      requires (db, attempts) == SaveBatches(save, db0, st.flushed, attempts0, faults)
      modifies this
      ensures history == old(history)
      ensures (db, attempts) == SaveBatches(save, db0, st'.flushed, attempts0, faults)
      ensures (st', control) == Ingest.Step(parse, batchSize, st, ItemOf(jvlink.isOpen, reply))
    {
      st', control := st, Ingest.Continue;
      var ret, data, filename, raised := jvlink.Gets(reply);
      if raised {
        control := Ingest.Raise;
      } else if ret > 0 {
        st' := TakeRecord(data, batchSize, st, db0, attempts0);
      } else if ret == 0 {
        control := Ingest.Stop;
      } else if ret == -1 {
        if filename != st.lastFilename {
          st' := st.(fileCount := st.fileCount + 1, lastFilename := filename);
        }
      } else if ret == -3 {
        var waits := st.waitCount + 1;
        st' := st.(waitCount := waits);
        if waits % 10 == 0 {
          var _ := jvlink.Status(statusReply);
          st' := st'.(polls := st.polls + 1);
        }
      } else {
        var errors := st.errors + 1;
        st' := st.(errors := errors);
        if errors > 10 {
          control := Ingest.Stop;
        }
      }
    }

    /** The branch for a positive status: parse the payload; a parse that
        raises counts an error, a record joins the batch, and a full batch
        is saved and emptied. */
    method TakeRecord(data: Payload, batchSize: nat, st: Ingest.State<Record>,
                      ghost db0: Store.Database, ghost attempts0: nat)
      returns (st': Ingest.State<Record>)
      requires Wired()
      requires (db, attempts) == SaveBatches(save, db0, st.flushed, attempts0, faults)
      modifies this
      ensures history == old(history)
      ensures (db, attempts) == SaveBatches(save, db0, st'.flushed, attempts0, faults)
      ensures (st', Ingest.Continue) == Ingest.Step(parse, batchSize, st, Ingest.Read(1, data, ""))
    {
      var rec := Parse(data);
      match rec {
        case NoRecord =>
          st' := st;
        case ParseError =>
          st' := st.(errors := st.errors + 1);
        case Parsed(x) =>
          var batch := st.batch + [x];
          if |batch| >= batchSize {
            SaveBatchesSnoc(save, db0, st.flushed, batch, attempts0, faults);
            SaveBatchRecords(batch);
            st' := st.(processed := st.processed + 1, batch := [], flushed := st.flushed + [batch]);
          } else {
            st' := st.(processed := st.processed + 1, batch := batch);
          }
      }
    }
      // ------------------------------------------------------------ process_history

    /** `start_process_history`: on a connection of its own, insert a
        RUNNING row and return its id. */
    method StartProcessHistory(processType: string, dataSpec: string, fromTime: Option<Stamp>, now: nat)
      returns (id: nat, raised: bool)
      requires Valid()
      modifies this
      ensures Valid() && db == old(db) && attempts == old(attempts) + 1
      ensures raised == (old(attempts) in faults)
      ensures raised ==> history == old(history)
      ensures !raised ==> (history, id) == Started(old(history), processType, dataSpec, fromTime, now)
    {
      var attempt := attempts;
      attempts := attempts + 1;
      if attempt in faults {
        return 0, true;
      }
      id := |history| + 1;
      history := history + [HistoryRow(id, processType, dataSpec, fromTime, None, None, None, RUNNING, now, None)];
      raised := false;
    }

    /** `finish_process_history`: on a connection of its own, set the
        status, the counts, and the clock reading as both `to_time` and
        `finished_at`, of the row with that id. */
    method FinishProcessHistory(id: nat, status: Status, processed: int, errors: int, now: nat) returns (raised: bool)
      requires Valid()
      modifies this
      ensures Valid() && db == old(db) && attempts == old(attempts) + 1
      ensures raised == (old(attempts) in faults)
      ensures history == if raised then old(history) else Finished(old(history), id, status, processed, errors, now)
    {
      var attempt := attempts;
      attempts := attempts + 1;
      if attempt in faults {
        return true;
      }
      if 1 <= id <= |history| {
        history := history[id - 1 := history[id - 1].(status := status, processedCount := Some(processed),
                                                      errorCount := Some(errors), toTime := Some(Clock(now)),
                                                      finishedAt := Some(now))];
      }
      raised := false;
    }

    /** `get_last_update_time`, on a connection of its own. */
    method GetLastUpdateTime() returns (r: Option<Stamp>, raised: bool)
      modifies this
      ensures db == old(db) && history == old(history) && attempts == old(attempts) + 1
      ensures raised == (old(attempts) in faults)
      ensures !raised ==> r == LastUpdateTime(history)
    {
      var attempt := attempts;
      attempts := attempts + 1;
      if attempt in faults {
        return None, true;
      }
      r, raised := LastUpdateTime(history), false;
    }

    // ------------------------------------------------------------ run flows

    /** `initialize_jvlink`: `False` unless `initialize` gives 0; then the
        save path and the save flag are set and their answers ignored. */
    method InitializeJvlink(link: Link) returns (ok: bool)
      requires Valid()
      modifies jvlink
      ensures Valid() && jvlink.isOpen == old(jvlink.isOpen)
      ensures ok == (InitializeResult(old(jvlink.hasCom), link.dispatch, link.init) == 0)
      ensures jvlink.hasCom == (old(jvlink.hasCom) || link.dispatch)
      ensures jvlink.isInitialized == (old(jvlink.isInitialized) || ok)
    {
      var ret := jvlink.Initialize(link.dispatch, link.init);
      if ret != 0 {
        return false;
      }
      var _ := jvlink.SetSavePath(savePath, link.savePathReply);
      var _ := jvlink.SetSaveFlag(1, link.saveFlagReply);
      ok := true;
    }

    /** The open call of a flow on an initialized handle: its code, and
        the `max_records` the flow would read with. */
    method OpenStream(open: OpenCall, closeRet: int) returns (code: int, limit: nat, raised: bool)
      requires Valid() && jvlink.isInitialized
      modifies jvlink
      ensures Valid() && jvlink.hasCom == old(jvlink.hasCom) && jvlink.isInitialized == old(jvlink.isInitialized)
      ensures raised <==> OpenCode(open).None?
      ensures !raised ==> code == OpenCode(open).value && limit == ReadLimit(open) && jvlink.isOpen == Accepts(open, code)
    {
      match open {
        case JvOpen(reply) =>
          var readCount, downloadCount, lastTimestamp;
          code, readCount, downloadCount, lastTimestamp, raised := jvlink.Open(reply, closeRet);
          limit := if readCount < 0 then 0 else readCount;
        case JvRtOpen(reply) =>
          code, raised := jvlink.OpenRealtime(reply, closeRet);
          limit := RealtimeLimit;
      }
    }

    /** The history updates of a flow after the stage it reached: the
        `try` block's last update, then the `except` block's when anything
        raised. */
    method FinishRun(id: nat, stage: Stage, now: nat) returns (exit: Exit)
      requires Valid()
      modifies this
      ensures Valid() && db == old(db)
      ensures (history, attempts, exit) == Closing(old(history), id, stage, old(attempts), faults, now)
    {
      var raised := false;
      match stage {
        case InitFailed =>
          return Returned(false);
        case Threw =>
          raised := true;
        case Rejected(_) =>
          raised := FinishProcessHistory(id, ERROR, 0, 0, now);
        case Drained(processed, errors) =>
          raised := FinishProcessHistory(id, SUCCESS, processed, errors, now);
      }
      if !raised {
        return Returned(stage.Drained?);
      }
      raised := FinishProcessHistory(id, ERROR, 0, 0, now);
      exit := if raised then Raised else Returned(false);
    }

    /** The `try`/`except`/`finally` of the three flows, once the history
        row `id` is in. `stage` is how far the run got and `mid` the
        connection number the history updates start from.
        - The flow reads the stream only when initialization succeeded
          and the open call returned a code it accepts, and then with the
          limit `ReadLimit(open)` and batches of 100.
        - The handle is closed at the end, whatever happened. */
    method RunStream(id: nat, link: Link, open: OpenCall, replies: seq<GetsReply>, statusReply: int, now: nat)
      returns (exit: Exit, stage: Stage, ghost mid: nat)
      requires Valid()
      modifies this, jvlink
      ensures Valid() && !jvlink.isOpen
      ensures stage.InitFailed? <==> InitializeResult(old(jvlink.hasCom), link.dispatch, link.init) != 0
      ensures !stage.InitFailed? && OpenCode(open).None? ==> stage == Threw
      ensures !stage.InitFailed? && OpenCode(open).Some? && !Accepts(open, OpenCode(open).value) ==>
        stage == Rejected(OpenCode(open).value)
      ensures Reads(stage, open) ==>
        var o := Ingest.ProcessData(parse, ReadLimit(open), BatchSize, Items(true, replies));
        stage == (if o.raised then Threw else Drained(o.processed, o.errors)) &&
        (db, mid) == SaveBatches(save, old(db), o.flushes, old(attempts), faults)
      ensures !Reads(stage, open) ==> db == old(db) && mid == old(attempts)
      ensures (history, attempts, exit) == Closing(old(history), id, stage, mid, faults, now)
    {
      var ok := InitializeJvlink(link);
      if !ok {
        stage, mid := InitFailed, attempts;
        exit := Returned(false);
      } else {
        var code, limit, raised := OpenStream(open, link.closeRet);
        if raised {
          stage := Threw;
        } else if !Accepts(open, code) {
          stage := Rejected(code);
        } else {
          var processed, errors;
          processed, errors, raised := ProcessData(replies, statusReply, limit, BatchSize);
          stage := if raised then Threw else Drained(processed, errors);
        }
        mid := attempts;
        exit := FinishRun(id, stage, now);
      }
      var _ := jvlink.Close(link.closeRet);
    }

    /** A flow from its history insert on: `start_process_history`, which
        comes before the `try`, so that its failure escapes with nothing
        done, then `RunStream`. */
    method StartRun(processType: string, dataSpec: string, fromTime: Option<Stamp>, link: Link, open: OpenCall,
                    replies: seq<GetsReply>, statusReply: int, started: nat, now: nat)
      returns (exit: Exit, stage: Stage, ghost mid: nat)
      requires Valid()
      modifies this, jvlink
      ensures Valid()
      ensures old(attempts) in faults ==> exit == Raised && history == old(history) && db == old(db) && unchanged(jvlink)
      ensures old(attempts) !in faults ==> !jvlink.isOpen
      ensures old(attempts) !in faults ==>
        var (h1, id) := Started(old(history), processType, dataSpec, fromTime, started);
        (history, attempts, exit) == Closing(h1, id, stage, mid, faults, now)
      ensures old(attempts) !in faults && Reads(stage, open) ==>
        var o := Ingest.ProcessData(parse, ReadLimit(open), BatchSize, Items(true, replies));
        stage == (if o.raised then Threw else Drained(o.processed, o.errors)) &&
        (db, mid) == SaveBatches(save, old(db), o.flushes, old(attempts) + 1, faults)
      ensures old(attempts) !in faults && !Reads(stage, open) ==> db == old(db) && mid == old(attempts) + 1
    {
      var id, raised := StartProcessHistory(processType, dataSpec, fromTime, started);
      if raised {
        return Raised, InitFailed, attempts;
      }
      exit, stage, mid := RunStream(id, link, open, replies, statusReply, now);
    }

    /** `download_setup_data(data_spec)`: a SETUP run from the cursor
        `99999999999999` with option 3. Inserting its history row comes
        before the `try`, so a failure there escapes with nothing done. */
    method DownloadSetupData(dataSpec: string, link: Link, open: Call<OpenReply>, replies: seq<GetsReply>,
                             statusReply: int, started: nat, now: nat)
      returns (exit: Exit, stage: Stage, ghost mid: nat)
      requires Valid()
      modifies this, jvlink
      ensures Valid()
      ensures old(attempts) in faults ==> exit == Raised && history == old(history) && db == old(db) && unchanged(jvlink)
      ensures old(attempts) !in faults ==> !jvlink.isOpen
      ensures old(attempts) !in faults ==>
        var (h1, id) := Started(old(history), "SETUP", dataSpec, Some(Cursor(SetupCursor)), started);
        (history, attempts, exit) == Closing(h1, id, stage, mid, faults, now)
      ensures old(attempts) !in faults && Reads(stage, JvOpen(open)) ==>
        var o := Ingest.ProcessData(parse, ReadLimit(JvOpen(open)), BatchSize, Items(true, replies));
        stage == (if o.raised then Threw else Drained(o.processed, o.errors)) &&
        (db, mid) == SaveBatches(save, old(db), o.flushes, old(attempts) + 1, faults)
      ensures old(attempts) !in faults && !Reads(stage, JvOpen(open)) ==> db == old(db) && mid == old(attempts) + 1
    {
      exit, stage, mid := StartRun("SETUP", dataSpec, Some(Cursor(SetupCursor)), link, JvOpen(open), replies, statusReply,
                                   started, now);
    }

    /** `update_data(from_date, data_spec)`: an UPDATE run, from
        `from_date` followed by `000000` when one is given, and otherwise
        from `get_last_update_time`, which is asked first and may give
        `None`. */
    method UpdateData(fromDate: Option<string>, dataSpec: string, link: Link, open: Call<OpenReply>,
                      replies: seq<GetsReply>, statusReply: int, started: nat, now: nat)
      returns (exit: Exit, stage: Stage, ghost mid: nat)
      requires Valid()
      modifies this, jvlink
      ensures Valid()
      ensures fromDate.None? && old(attempts) in faults ==>
        exit == Raised && history == old(history) && db == old(db) && unchanged(jvlink)
      ensures var first := if fromDate.None? then old(attempts) + 1 else old(attempts);
        first in faults ==> exit == Raised && history == old(history) && db == old(db) && unchanged(jvlink)
      ensures var first := if fromDate.None? then old(attempts) + 1 else old(attempts);
        var fromTime := if fromDate.None? then LastUpdateTime(old(history)) else Some(Cursor(fromDate.value + "000000"));
        !(fromDate.None? && old(attempts) in faults) && first !in faults ==>
          !jvlink.isOpen &&
          var (h1, id) := Started(old(history), "UPDATE", dataSpec, fromTime, started);
          (history, attempts, exit) == Closing(h1, id, stage, mid, faults, now) &&
          (Reads(stage, JvOpen(open)) ==>
            var o := Ingest.ProcessData(parse, ReadLimit(JvOpen(open)), BatchSize, Items(true, replies));
            stage == (if o.raised then Threw else Drained(o.processed, o.errors)) &&
            (db, mid) == SaveBatches(save, old(db), o.flushes, first + 1, faults)) &&
          (!Reads(stage, JvOpen(open)) ==> db == old(db) && mid == first + 1)
    {
      var fromTime: Option<Stamp>;
      if fromDate.None? {
        var raised;
        fromTime, raised := GetLastUpdateTime();
        if raised {
          return Raised, InitFailed, attempts;
        }
      } else {
        fromTime := Some(Cursor(fromDate.value + "000000"));
      }
      exit, stage, mid := StartRun("UPDATE", dataSpec, fromTime, link, JvOpen(open), replies, statusReply, started, now);
    }

    /** `get_realtime_data(data_spec, race_key)`: a REALTIME run whose
        recorded cursor is the race key; it reads at most 10000 records,
        and only when `open_realtime` gives exactly 0. */
    method GetRealtimeData(dataSpec: string, raceKey: string, link: Link, open: Call<int>, replies: seq<GetsReply>,
                           statusReply: int, started: nat, now: nat)
      returns (exit: Exit, stage: Stage, ghost mid: nat)
      requires Valid()
      modifies this, jvlink
      ensures Valid()
      ensures old(attempts) in faults ==> exit == Raised && history == old(history) && db == old(db) && unchanged(jvlink)
      ensures old(attempts) !in faults ==> !jvlink.isOpen
      ensures old(attempts) !in faults ==>
        var (h1, id) := Started(old(history), "REALTIME", dataSpec, Some(Cursor(raceKey)), started);
        (history, attempts, exit) == Closing(h1, id, stage, mid, faults, now)
      ensures old(attempts) !in faults && Reads(stage, JvRtOpen(open)) ==>
        var o := Ingest.ProcessData(parse, RealtimeLimit, BatchSize, Items(true, replies));
        stage == (if o.raised then Threw else Drained(o.processed, o.errors)) &&
        (db, mid) == SaveBatches(save, old(db), o.flushes, old(attempts) + 1, faults)
      ensures old(attempts) !in faults && !Reads(stage, JvRtOpen(open)) ==> db == old(db) && mid == old(attempts) + 1
    {
      exit, stage, mid := StartRun("REALTIME", dataSpec, Some(Cursor(raceKey)), link, JvRtOpen(open), replies, statusReply,
                                   started, now);
    }
  }
}
