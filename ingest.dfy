/**
 * The state machine of `JVDataManager.process_data`, as a function of the
 * replies `gets` hands it. Each reply is a status code with a payload and a
 * file name, or an exception. The record parser is the parameter `parse`,
 * so that what is proved here holds for any parser; the manager instantiates
 * it with `Records.Decode`.
 *
 * The stream is finite: the loop also ends when it runs out, which the
 * program itself never observes.
 */
module Ingest {
  import opened Records
  import opened Batch
  import opened Wrappers

  /** One call of `gets`: `(ret, data, filename)`, or an exception. */
  datatype Item<P> = Read(ret: int, data: P, filename: string) | Raises

  /** The loop variables of `process_data`, plus the batches already handed
      to `_save_batch_records`, in order. */
  datatype State<R> = State(
    processed: nat, errors: nat, fileCount: nat, lastFilename: string,
    waitCount: nat, polls: nat, batch: seq<R>, flushed: seq<seq<R>>)

  /** What one pass of the loop body decides. */
  datatype Control = Continue | Stop | Raise

  /** The loop variables on entry. */
  function Initial<R>(): State<R> {
    State(0, 0, 0, "", 0, 0, [], [])
  }

  /** One pass of the loop body over one reply. */
  function Step<P, R>(parse: P -> ParseResult<R>, batchSize: nat, st: State<R>, item: Item<P>): (State<R>, Control)
  {
    match item
    case Raises => (st, Raise)
    case Read(ret, data, filename) =>
      if ret > 0 then
        match parse(data)
        case NoRecord => (st, Continue)
        case ParseError => (st.(errors := st.errors + 1), Continue)
        case Parsed(rec) =>
          var batch := st.batch + [rec];
          if |batch| >= batchSize then
            (st.(processed := st.processed + 1, batch := [], flushed := st.flushed + [batch]), Continue)
          else (st.(processed := st.processed + 1, batch := batch), Continue)
      else if ret == 0 then (st, Stop)
      else if ret == -1 then
        if filename != st.lastFilename then (st.(fileCount := st.fileCount + 1, lastFilename := filename), Continue)
        else (st, Continue)
      else if ret == -3 then
        var waits := st.waitCount + 1;
        (st.(waitCount := waits, polls := if waits % 10 == 0 then st.polls + 1 else st.polls), Continue)
      else
        var errors := st.errors + 1;
        (st.(errors := errors), if errors > 10 then Stop else Continue)
  }

  /** Where the loop ended: its final state, whether `gets` raised, and how
      many replies it consumed before that. */
  datatype Ending<R> = Ending(last: State<R>, raised: bool, used: nat)

  /** The loop from state `st` over the rest of the stream. */
  function Run<P, R>(parse: P -> ParseResult<R>, maxRecords: nat, batchSize: nat, st: State<R>, stream: seq<Item<P>>):
    (r: Ending<R>)
    ensures r.used + (if r.raised then 1 else 0) <= |stream|
    decreases |stream|
  {
    if st.processed >= maxRecords || |stream| == 0 then Ending(st, false, 0)
    else
      var (next, control) := Step(parse, batchSize, st, stream[0]);
      match control
      case Raise => Ending(st, true, 0)
      case Stop => Ending(next, false, 1)
      case Continue =>
        var e := Run(parse, maxRecords, batchSize, next, stream[1..]);
        e.(used := e.used + 1)
  }

  /** What `process_data` returns, with what it hands to the database:
      `consumed` counts the replies read, the one that raised included. */
  datatype Outcome<R> = Outcome(processed: nat, errors: nat, fileCount: nat, polls: nat,
                                flushes: seq<seq<R>>, raised: bool, consumed: nat)

  /** `process_data(max_records, batch_size)`: the loop, then one more flush
      of a non-empty batch. When `gets` raises, the exception leaves
      `process_data` and the unflushed batch is lost. */
  function ProcessData<P, R>(parse: P -> ParseResult<R>, maxRecords: nat, batchSize: nat, stream: seq<Item<P>>): Outcome<R>
  {
    var e := Run(parse, maxRecords, batchSize, Initial(), stream);
    var st := e.last;
    var flushes := if !e.raised && st.batch != [] then st.flushed + [st.batch] else st.flushed;
    Outcome(st.processed, st.errors, st.fileCount, st.polls, flushes, e.raised, e.used + if e.raised then 1 else 0)
  }

  /** The records the replies carry, in arrival order: those of every
      positive status whose payload parses to a record. */
  function Accepted<P, R>(parse: P -> ParseResult<R>, stream: seq<Item<P>>): (r: seq<R>)
    ensures |r| <= |stream|
  {
    if |stream| == 0 then []
    else
      var init, last := stream[..|stream| - 1], stream[|stream| - 1];
      Accepted(parse, init) + (if last.Read? && last.ret > 0 && parse(last.data).Parsed? then [parse(last.data).rec] else [])
  }

  // ---------------------------------------------------------------- one step

  lemma AcceptedSnoc<P, R>(parse: P -> ParseResult<R>, stream: seq<Item<P>>, item: Item<P>)
    ensures Accepted(parse, stream + [item]) ==
      Accepted(parse, stream) + (if item.Read? && item.ret > 0 && parse(item.data).Parsed? then [parse(item.data).rec] else [])
  {
    assert (stream + [item])[..|stream|] == stream;
  }

  /** A step hands on every record it accepts: what was flushed, followed by
      the batch, grows by exactly the record the reply carries. */
  lemma StepKeepsOrder<P, R>(parse: P -> ParseResult<R>, batchSize: nat, st: State<R>, item: Item<P>)
    requires Step(parse, batchSize, st, item).1 != Raise
    ensures var next := Step(parse, batchSize, st, item).0;
      Flatten(next.flushed) + next.batch ==
        Flatten(st.flushed) + st.batch +
        (if item.Read? && item.ret > 0 && parse(item.data).Parsed? then [parse(item.data).rec] else [])
  {
    if item.Read? && item.ret > 0 && parse(item.data).Parsed? {
      var batch := st.batch + [parse(item.data).rec];
      FlattenSnoc(st.flushed, batch);
    }
  }

  /** A step counts the records it accepts and nothing else. */
  lemma StepCountsRecords<P, R>(parse: P -> ParseResult<R>, batchSize: nat, st: State<R>, item: Item<P>)
    ensures var next := Step(parse, batchSize, st, item).0;
      next.processed == st.processed + (if item.Read? && item.ret > 0 && parse(item.data).Parsed? then 1 else 0)
  {
  }

  /** A file change (`-1`) or a download wait (`-3`) consumes no record and
      touches neither counter; only a new file name is counted. */
  lemma {:induction false} NonDataStatusesAreNeutral<P, R>(parse: P -> ParseResult<R>, batchSize: nat, st: State<R>, data: P, filename: string, ret: int)
    requires ret == -1 || ret == -3
    ensures var (next, control) := Step(parse, batchSize, st, Read(ret, data, filename));
      control == Continue && next.processed == st.processed && next.errors == st.errors &&
      next.batch == st.batch && next.flushed == st.flushed &&
      next.fileCount == (if ret == -1 && filename != st.lastFilename then st.fileCount + 1 else st.fileCount)
  {
  }

  /** `status()` is polled on every tenth wait. */
  lemma StepPollsEveryTenthWait<P, R>(parse: P -> ParseResult<R>, batchSize: nat, st: State<R>, item: Item<P>)
    requires st.polls == st.waitCount / 10
    ensures var next := Step(parse, batchSize, st, item).0; next.polls == next.waitCount / 10
  {
  }

  /** The number of records a flush holds: `len(batch) >= batch_size`
      flushes every record on its own when the batch size is zero. */
  function Cap(batchSize: nat): (c: nat)
    ensures c >= 1 && (batchSize >= 1 ==> c == batchSize)
  {
    if batchSize == 0 then 1 else batchSize
  }

  /** A batch never reaches the batch size without being flushed, and every
      flushed batch holds exactly that many records. */
  predicate BatchesSized<R>(batchSize: nat, st: State<R>) {
    |st.batch| < Cap(batchSize) && forall i :: 0 <= i < |st.flushed| ==> |st.flushed[i]| == Cap(batchSize)
  }

  lemma StepKeepsBatchesSized<P, R>(parse: P -> ParseResult<R>, batchSize: nat, st: State<R>, item: Item<P>)
    requires BatchesSized(batchSize, st)
    ensures BatchesSized(batchSize, Step(parse, batchSize, st, item).0)
  {
  }

  // ---------------------------------------------------------------- the loop

  /** The loop consumes a prefix of the stream and hands on, across all the
      batches it flushed and the one it holds, exactly the records of that
      prefix in arrival order. */
  lemma {:induction false} RunKeepsOrder<P, R>(parse: P -> ParseResult<R>, maxRecords: nat, batchSize: nat, st: State<R>,
                                                 stream: seq<Item<P>>, seen: seq<Item<P>>)
    requires Flatten(st.flushed) + st.batch == Accepted(parse, seen)
    ensures var e := Run(parse, maxRecords, batchSize, st, stream);
      Flatten(e.last.flushed) + e.last.batch == Accepted(parse, seen + stream[..e.used])
    decreases |stream|
  {
    var e := Run(parse, maxRecords, batchSize, st, stream);
    if st.processed >= maxRecords || |stream| == 0 || Step(parse, batchSize, st, stream[0]).1 == Raise {
      assert seen + stream[..0] == seen;
    } else {
      var next := Step(parse, batchSize, st, stream[0]).0;
      StepKeepsOrder(parse, batchSize, st, stream[0]);
      AcceptedSnoc(parse, seen, stream[0]);
      if Step(parse, batchSize, st, stream[0]).1 == Stop {
        assert seen + stream[..1] == seen + [stream[0]];
      } else {
        RunKeepsOrder(parse, maxRecords, batchSize, next, stream[1..], seen + [stream[0]]);
        PrefixShift(seen, stream, e.used - 1);
      }
    }
  }

  /** One pass of the loop from position `k` of the stream: the run from
      there is the step, then the run from the next position. */
  lemma RunAdvances<P, R>(parse: P -> ParseResult<R>, maxRecords: nat, batchSize: nat, st: State<R>,
                          stream: seq<Item<P>>, k: nat)
    requires st.processed < maxRecords && k < |stream|
    ensures var (next, control) := Step(parse, batchSize, st, stream[k]);
      var e := Run(parse, maxRecords, batchSize, st, stream[k..]);
      match control
      case Continue => e == Run(parse, maxRecords, batchSize, next, stream[k + 1..]).(used := e.used)
      case Stop => e == Ending(next, false, 1)
      case Raise => e == Ending(st, true, 0)
  {
    assert stream[k..][0] == stream[k] && stream[k..][1..] == stream[k + 1..];
  }

  lemma PrefixShift<T>(seen: seq<T>, stream: seq<T>, k: nat)
    requires k < |stream|
    ensures seen + [stream[0]] + stream[1..][..k] == seen + stream[..k + 1]
  {
  }

  /** `processed` counts the records handed on so far. */
  predicate Counted<R>(st: State<R>) {
    st.processed == |Flatten(st.flushed) + st.batch|
  }

  lemma StepKeepsCounted<P, R>(parse: P -> ParseResult<R>, batchSize: nat, st: State<R>, item: Item<P>)
    requires Counted(st) && Step(parse, batchSize, st, item).1 != Raise
    ensures Counted(Step(parse, batchSize, st, item).0)
  {
    StepKeepsOrder(parse, batchSize, st, item);
    StepCountsRecords(parse, batchSize, st, item);
  }

  lemma {:induction false} RunKeepsCounted<P, R>(parse: P -> ParseResult<R>, maxRecords: nat, batchSize: nat, st: State<R>,
                                                   stream: seq<Item<P>>)
    requires Counted(st)
    ensures Counted(Run(parse, maxRecords, batchSize, st, stream).last)
    decreases |stream|
  {
    if st.processed < maxRecords && |stream| > 0 {
      var (next, control) := Step(parse, batchSize, st, stream[0]);
      if control != Raise {
        StepKeepsCounted(parse, batchSize, st, stream[0]);
      }
      if control == Continue {
        RunKeepsCounted(parse, maxRecords, batchSize, next, stream[1..]);
      }
    }
  }

  /** The loop never counts past `max_records`. */
  lemma {:induction false} RunBounded<P, R>(parse: P -> ParseResult<R>, maxRecords: nat, batchSize: nat, st: State<R>,
                                              stream: seq<Item<P>>)
    requires st.processed <= maxRecords
    ensures Run(parse, maxRecords, batchSize, st, stream).last.processed <= maxRecords
    decreases |stream|
  {
    if st.processed < maxRecords && |stream| > 0 {
      var (next, control) := Step(parse, batchSize, st, stream[0]);
      StepCountsRecords(parse, batchSize, st, stream[0]);
      if control == Continue {
        RunBounded(parse, maxRecords, batchSize, next, stream[1..]);
      }
    }
  }

  lemma {:induction false} AcceptedAppend<P, R>(parse: P -> ParseResult<R>, a: seq<Item<P>>, b: seq<Item<P>>)
    ensures Accepted(parse, a + b) == Accepted(parse, a) + Accepted(parse, b)
    decreases |b|
  {
    if |b| == 0 {
      assert a + b == a;
    } else {
      var init := b[..|b| - 1];
      assert (a + b)[..|a + b| - 1] == a + init;
      AcceptedAppend(parse, a, init);
    }
  }

  lemma {:induction false} RunPollsEveryTenthWait<P, R>(parse: P -> ParseResult<R>, maxRecords: nat, batchSize: nat, st: State<R>,
                                                          stream: seq<Item<P>>)
    requires st.polls == st.waitCount / 10
    ensures var last := Run(parse, maxRecords, batchSize, st, stream).last; last.polls == last.waitCount / 10
    decreases |stream|
  {
    if st.processed < maxRecords && |stream| > 0 {
      StepPollsEveryTenthWait(parse, batchSize, st, stream[0]);
      var (next, control) := Step(parse, batchSize, st, stream[0]);
      if control == Continue {
        RunPollsEveryTenthWait(parse, maxRecords, batchSize, next, stream[1..]);
      }
    }
  }

  lemma {:induction false} RunKeepsBatchesSized<P, R>(parse: P -> ParseResult<R>, maxRecords: nat, batchSize: nat, st: State<R>,
                                                        stream: seq<Item<P>>)
    requires BatchesSized(batchSize, st)
    ensures BatchesSized(batchSize, Run(parse, maxRecords, batchSize, st, stream).last)
    decreases |stream|
  {
    if st.processed < maxRecords && |stream| > 0 {
      StepKeepsBatchesSized(parse, batchSize, st, stream[0]);
      var (next, control) := Step(parse, batchSize, st, stream[0]);
      if control == Continue {
        RunKeepsBatchesSized(parse, maxRecords, batchSize, next, stream[1..]);
      }
    }
  }

  /** `k` bad status codes in a row, the last of them the eleventh error,
      end the loop on that one. */
  lemma {:induction false} BadStatusesStop<P, R>(parse: P -> ParseResult<R>, maxRecords: nat, batchSize: nat, st: State<R>,
                                                   k: nat, data: P, rest: seq<Item<P>>)
    requires st.processed < maxRecords && 1 <= k && st.errors + k == 11
    ensures Run(parse, maxRecords, batchSize, st, seq(k, _ => Read(-100, data, "")) + rest) ==
      Ending(st.(errors := 11), false, k)
    decreases k
  {
    var stream := seq(k, _ => Read(-100, data, "")) + rest;
    assert stream[0] == Read(-100, data, "");
    if k > 1 {
      assert stream[1..] == seq(k - 1, _ => Read(-100, data, "")) + rest;
      BadStatusesStop(parse, maxRecords, batchSize, st.(errors := st.errors + 1), k - 1, data, rest);
    }
  }

  // ---------------------------------------------------------------- process_data

  /** Every record accepted from the consumed replies is handed to the
      database exactly once and in arrival order, unless `gets` raised, in
      which case the records of the unflushed batch are lost. */
  lemma ProcessDataSavesInOrder<P, R>(parse: P -> ParseResult<R>, maxRecords: nat, batchSize: nat, stream: seq<Item<P>>)
    ensures var o := ProcessData(parse, maxRecords, batchSize, stream);
      !o.raised ==> Flatten(o.flushes) == Accepted(parse, stream[..o.consumed])
    ensures var o := ProcessData(parse, maxRecords, batchSize, stream);
      o.raised ==> Flatten(o.flushes) <= Accepted(parse, stream[..o.consumed - 1])
  {
    RunHoldsAccepted(parse, maxRecords, batchSize, stream);
    var e := Run(parse, maxRecords, batchSize, Initial(), stream);
    var o := ProcessData(parse, maxRecords, batchSize, stream);
    var held := Flatten(e.last.flushed) + e.last.batch;
    if e.raised {
      assert o.flushes == e.last.flushed && o.consumed - 1 == e.used;
      assert Flatten(e.last.flushed) == held[..|Flatten(e.last.flushed)|];
    } else {
      assert o.consumed == e.used;
      if e.last.batch != [] {
        FlattenSnoc(e.last.flushed, e.last.batch);
      } else {
        assert held == Flatten(e.last.flushed);
      }
    }
  }

  /** When `gets` does not raise and every connection opens, the batches
      `process_data` flushes leave the tables as one transaction over the
      accepted records would, when that transaction succeeds. */
  lemma ProcessDataStoresAccepted<P, R, D>(parse: P -> ParseResult<R>, maxRecords: nat, batchSize: nat, stream: seq<Item<P>>,
                                            save: (D, R) -> Result<D>, db: D, attempt: nat, faults: set<nat>)
    requires forall n :: attempt <= n ==> n !in faults
    requires var o := ProcessData(parse, maxRecords, batchSize, stream);
      !o.raised && SaveAll(save, db, Accepted(parse, stream[..o.consumed])).Success?
    ensures var o := ProcessData(parse, maxRecords, batchSize, stream);
      SaveBatches(save, db, o.flushes, attempt, faults).0 == SaveAll(save, db, Accepted(parse, stream[..o.consumed])).value
  {
    ProcessDataSavesInOrder(parse, maxRecords, batchSize, stream);
    SaveBatchesMatchesSaveAll(save, db, ProcessData(parse, maxRecords, batchSize, stream).flushes, attempt, faults);
  }

  /** From the initial state, the batches flushed and the batch held are
      the records accepted from the replies the loop used. */
  lemma RunHoldsAccepted<P, R>(parse: P -> ParseResult<R>, maxRecords: nat, batchSize: nat, stream: seq<Item<P>>)
    ensures var e := Run(parse, maxRecords, batchSize, Initial(), stream);
      Flatten(e.last.flushed) + e.last.batch == Accepted(parse, stream[..e.used])
  {
    var st0: State<R> := Initial();
    assert [] + stream == stream;
    RunKeepsOrder(parse, maxRecords, batchSize, st0, stream, []);
    var e := Run(parse, maxRecords, batchSize, st0, stream);
    assert [] + stream[..e.used] == stream[..e.used];
  }

  /** `processed` is the number of records accepted and never exceeds
      `max_records`. */
  lemma ProcessDataCounts<P, R>(parse: P -> ParseResult<R>, maxRecords: nat, batchSize: nat, stream: seq<Item<P>>)
    ensures var o := ProcessData(parse, maxRecords, batchSize, stream);
      o.processed <= maxRecords &&
      o.processed == |Accepted(parse, stream[..if o.raised then o.consumed - 1 else o.consumed])|
  {
    var st0: State<R> := Initial();
    assert [] + stream == stream;
    RunBounded(parse, maxRecords, batchSize, st0, stream);
    RunKeepsCounted(parse, maxRecords, batchSize, st0, stream);
    RunKeepsOrder(parse, maxRecords, batchSize, st0, stream, []);
    var e := Run(parse, maxRecords, batchSize, st0, stream);
    assert [] + stream[..e.used] == stream[..e.used];
  }

  /** `status()` was polled once for every ten download waits. */
  lemma ProcessDataPolls<P, R>(parse: P -> ParseResult<R>, maxRecords: nat, batchSize: nat, stream: seq<Item<P>>)
    ensures var e := Run(parse, maxRecords, batchSize, Initial(), stream);
      ProcessData(parse, maxRecords, batchSize, stream).polls == e.last.waitCount / 10
  {
    RunPollsEveryTenthWait(parse, maxRecords, batchSize, Initial(), stream);
  }

  /** Every flush but the last holds exactly `batch_size` records (one, for
      a batch size of zero); the last one is no larger. */
  lemma ProcessDataBatchSizes<P, R>(parse: P -> ParseResult<R>, maxRecords: nat, batchSize: nat, stream: seq<Item<P>>)
    ensures var o := ProcessData(parse, maxRecords, batchSize, stream);
      (forall i :: 0 <= i < |o.flushes| ==> 0 < |o.flushes[i]| <= Cap(batchSize)) &&
      (forall i :: 0 <= i < |o.flushes| - 1 ==> |o.flushes[i]| == Cap(batchSize))
  {
    var st0: State<R> := Initial();
    RunKeepsBatchesSized(parse, maxRecords, batchSize, st0, stream);
  }

  /** Eleven bad status codes in a row stop the loop after the eleventh,
      whatever follows them. */
  lemma ElevenErrorsStop<P, R>(parse: P -> ParseResult<R>, maxRecords: nat, batchSize: nat, data: P, rest: seq<Item<P>>)
    requires maxRecords > 0
    ensures var o := ProcessData(parse, maxRecords, batchSize, seq(11, _ => Read(-100, data, "")) + rest);
      o.consumed == 11 && o.errors == 11 && !o.raised && o.processed == 0 && o.flushes == []
  {
    BadStatusesStop(parse, maxRecords, batchSize, Initial(), 11, data, rest);
  }

  /** Parse errors share the error counter but never stop the loop: after
      an unparsable record the loop reads on, whatever the count. */
  lemma ParseErrorsDoNotStop<P, R>(parse: P -> ParseResult<R>, maxRecords: nat, batchSize: nat, st: State<R>,
                                   data: P, rest: seq<Item<P>>)
    requires parse(data).ParseError? && st.processed < maxRecords
    ensures var e := Run(parse, maxRecords, batchSize, st.(errors := st.errors + 1), rest);
      Run(parse, maxRecords, batchSize, st, [Read(1, data, "")] + rest) == e.(used := e.used + 1)
  {
    assert ([Read(1, data, "")] + rest)[1..] == rest;
  }
}
