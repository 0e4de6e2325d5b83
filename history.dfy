/**
 * The `process_history` table: one row per run, inserted RUNNING by
 * `start_process_history` and closed by `finish_process_history`, and the
 * resume cursor `get_last_update_time` reads from it. Ids are AUTOINCREMENT
 * and rows are never deleted, so the table is a sequence whose row `i` has
 * id `i + 1`. `CURRENT_TIMESTAMP` is a clock reading passed in as `now`.
 */
module History {
  import opened Wrappers

  datatype Status = RUNNING | SUCCESS | ERROR

  /** A `from_time`/`to_time` value: the 14-digit cursor text a caller
      passes, or a `CURRENT_TIMESTAMP` reading. */
  datatype Stamp = Cursor(text: string) | Clock(time: nat)

  datatype HistoryRow = HistoryRow(
    id: nat, processType: string, dataSpec: string, fromTime: Option<Stamp>, toTime: Option<Stamp>,
    processedCount: Option<int>, errorCount: Option<int>, status: Status,
    startedAt: nat, finishedAt: Option<nat>)

  /** Row `i` has id `i + 1`. */
  ghost predicate WellNumbered(h: seq<HistoryRow>) {
    forall i :: 0 <= i < |h| ==> h[i].id == i + 1
  }

  /** The table after `start_process_history`, and the id it returns. */
  function Started(h: seq<HistoryRow>, processType: string, dataSpec: string, fromTime: Option<Stamp>, now: nat):
    (r: (seq<HistoryRow>, nat))
    ensures r.1 == |h| + 1 && |r.0| == |h| + 1 && r.0[..|h|] == h
    ensures r.0[|h|].status == RUNNING && r.0[|h|].fromTime == fromTime && r.0[|h|].dataSpec == dataSpec
    ensures WellNumbered(h) ==> WellNumbered(r.0)
  {
    (h + [HistoryRow(|h| + 1, processType, dataSpec, fromTime, None, None, None, RUNNING, now, None)], |h| + 1)
  }

  /** The table after `finish_process_history(id, status, processed,
      errors)`: the row with that id, if any, gets the status and counts,
      and both `to_time` and `finished_at` become the clock reading. */
  function Finished(h: seq<HistoryRow>, id: nat, status: Status, processed: int, errors: int, now: nat):
    (r: seq<HistoryRow>)
    ensures |r| == |h|
    ensures forall i :: 0 <= i < |h| && i + 1 != id ==> r[i] == h[i]
    ensures 1 <= id <= |h| ==>
      r[id - 1] == h[id - 1].(status := status, processedCount := Some(processed), errorCount := Some(errors),
                             toTime := Some(Clock(now)), finishedAt := Some(now))
  {
    if 1 <= id <= |h| then
      h[id - 1 := h[id - 1].(status := status, processedCount := Some(processed), errorCount := Some(errors),
                             toTime := Some(Clock(now)), finishedAt := Some(now))]
    else h
  }

  /** Where `ORDER BY finished_at DESC` puts a row: NULL last. */
  function Rank(row: HistoryRow): nat {
    match row.finishedAt
    case None => 0
    case Some(t) => t + 1
  }

  /** The row `SELECT … WHERE status = 'SUCCESS' ORDER BY finished_at DESC
      LIMIT 1` returns: the SUCCESS row finished last; among rows finished
      at the same time, the one inserted last. */
  function LatestSuccess(h: seq<HistoryRow>): (r: Option<nat>)
    ensures r.Some? ==> r.value < |h| && h[r.value].status == SUCCESS
    ensures r.Some? ==> forall i :: 0 <= i < |h| && h[i].status == SUCCESS ==> Rank(h[i]) <= Rank(h[r.value])
    ensures r.None? <==> forall i :: 0 <= i < |h| ==> h[i].status != SUCCESS
  {
    if |h| == 0 then None
    else
      var best := LatestSuccess(h[..|h| - 1]);
      var last := h[|h| - 1];
      if last.status == SUCCESS && (best.None? || Rank(h[best.value]) <= Rank(last)) then Some(|h| - 1)
      else best
  }

  /** `get_last_update_time`: the `to_time` of that row when it is neither
      NULL nor empty, and `None` otherwise. The race-date and one-year
      fallbacks the method goes on to describe sit after its `return` and
      never run. `data_spec` plays no part. */
  function LastUpdateTime(h: seq<HistoryRow>): (r: Option<Stamp>)
    ensures r.Some? ==> exists i :: 0 <= i < |h| && h[i].status == SUCCESS && h[i].toTime == r
  {
    match LatestSuccess(h)
    case None => None
    case Some(i) =>
      match h[i].toTime
      case None => None
      case Some(t) => if t == Cursor("") then None else Some(t)
  }

  // ---------------------------------------------------------------- properties

  /** With no SUCCESS row there is no cursor at all: no fallback applies. */
  lemma NoSuccessNoCursor(h: seq<HistoryRow>)
    requires forall i :: 0 <= i < |h| ==> h[i].status != SUCCESS
    ensures LastUpdateTime(h) == None
  {
  }

  /** Starting a run leaves the cursor as it was: the new row is RUNNING. */
  lemma StartKeepsCursor(h: seq<HistoryRow>, processType: string, dataSpec: string, fromTime: Option<Stamp>, now: nat)
    ensures LastUpdateTime(Started(h, processType, dataSpec, fromTime, now).0) == LastUpdateTime(h)
  {
    var h' := Started(h, processType, dataSpec, fromTime, now).0;
    assert h'[..|h|] == h;
  }

  /** The last run started, finished with SUCCESS no earlier than any other
      run, makes the cursor the clock reading of its finish: a timestamp,
      not a 14-digit cursor, whatever data spec any run used. */
  lemma SuccessSetsCursorToClock(h: seq<HistoryRow>, id: nat, processed: int, errors: int, now: nat)
    requires 1 <= id == |h|
    requires forall i :: 0 <= i < |h| && h[i].status == SUCCESS ==> Rank(h[i]) <= now + 1
    ensures LastUpdateTime(Finished(h, id, SUCCESS, processed, errors, now)) == Some(Clock(now))
  {
    var h' := Finished(h, id, SUCCESS, processed, errors, now);
    assert h'[..|h| - 1] == h[..|h| - 1];
  }

  /** Of two SUCCESS rows finished at the same time, the later one is
      returned, so the earlier one never is. */
  lemma {:induction false} LatestIsLastOfTies(h: seq<HistoryRow>, i: nat, j: nat)
    requires i < j < |h| && h[i].status == SUCCESS && h[j].status == SUCCESS && Rank(h[i]) == Rank(h[j])
    ensures LatestSuccess(h) != Some(i)
  {
    if j < |h| - 1 {
      LatestIsLastOfTies(h[..|h| - 1], i, j);
    }
  }

  /** The cursor depends on statuses, finish times and `to_time` only: the
      data spec of every row can change without changing it. */
  lemma {:induction false} CursorIgnoresDataSpec(h: seq<HistoryRow>, specs: seq<string>)
    requires |specs| == |h|
    ensures LastUpdateTime(seq(|h|, i requires 0 <= i < |h| => h[i].(dataSpec := specs[i]))) == LastUpdateTime(h)
  {
    var h' := seq(|h|, i requires 0 <= i < |h| => h[i].(dataSpec := specs[i]));
    LatestIgnoresDataSpec(h, h');
  }

  lemma {:induction false} LatestIgnoresDataSpec(h: seq<HistoryRow>, h': seq<HistoryRow>)
    requires |h'| == |h|
    requires forall i :: 0 <= i < |h| ==> h'[i] == h[i].(dataSpec := h'[i].dataSpec)
    ensures LatestSuccess(h') == LatestSuccess(h)
  {
    if |h| > 0 {
      LatestIgnoresDataSpec(h[..|h| - 1], h'[..|h| - 1]);
    }
  }
}
