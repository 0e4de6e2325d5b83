/**
 * What `_save_batch_records` and `_save_records_individually` leave in the
 * database. Opening a connection is the one environment fault modelled: the
 * connections the manager opens are numbered, and `faults` names those whose
 * `sqlite3.connect` raises. A record whose save raises (a bad integer column)
 * or whose connection cannot be opened changes nothing, because its
 * transaction is rolled back or closed without commit.
 *
 * The functions take the per-record save as a parameter `save` (the
 * manager's `save_record`, `Store.SaveRecord`), so that what is proved here
 * holds whatever each record writes.
 */
module Batch {
  import opened Wrappers

  /** The records saved one after another in one transaction: `Failure` as
      soon as one of them raises. */
  function SaveAll<D, R>(save: (D, R) -> Result<D>, db: D, recs: seq<R>): (r: Result<D>)
  {
    if |recs| == 0 then Success(db)
    else match SaveAll(save, db, recs[..|recs| - 1])
      case Failure => Failure
      case Success(d) => save(d, recs[|recs| - 1])
  }

  /** One record saved and committed on its own connection, numbered
      `attempt`; the database is unchanged when that connection cannot be
      opened or the save raises. */
  function SaveOne<D, R>(save: (D, R) -> Result<D>, db: D, rec: R, attempt: nat, faults: set<nat>): (r: D)
    ensures attempt !in faults && save(db, rec).Success? ==> r == save(db, rec).value
    ensures attempt in faults || save(db, rec).Failure? ==> r == db
  {
    if attempt in faults then db
    else match save(db, rec)
      case Failure => db
      case Success(d) => d
  }

  /** `_save_records_individually`: record `i` is saved on connection
      `attempt + i`, each in its own transaction. */
  function SaveEach<D, R>(save: (D, R) -> Result<D>, db: D, recs: seq<R>, attempt: nat, faults: set<nat>): D
  {
    if |recs| == 0 then db
    else
      var init := recs[..|recs| - 1];
      SaveOne(save, SaveEach(save, db, init, attempt, faults), recs[|recs| - 1], attempt + |init|, faults)
  }

  /** `_save_batch_records` with its first connection numbered `attempt`: the
      database afterwards and the number of the next connection. An empty
      batch opens nothing; a batch whose connection or any of whose records
      fails is rolled back as a whole and its records saved one by one. */
  function SaveBatch<D, R>(save: (D, R) -> Result<D>, db: D, recs: seq<R>, attempt: nat, faults: set<nat>): (r: (D, nat))
    ensures recs == [] ==> r == (db, attempt)
    ensures recs != [] ==> r.1 == attempt + 1 || r.1 == attempt + 1 + |recs|
  {
    if recs == [] then (db, attempt)
    else if attempt !in faults && SaveAll(save, db, recs).Success? then (SaveAll(save, db, recs).value, attempt + 1)
    else (SaveEach(save, db, recs, attempt + 1, faults), attempt + 1 + |recs|)
  }

  /** Successive batches, as `process_data` flushes them. */
  function SaveBatches<D, R>(save: (D, R) -> Result<D>, db: D, batches: seq<seq<R>>, attempt: nat, faults: set<nat>): (r: (D, nat))
    ensures r.1 >= attempt
  {
    if |batches| == 0 then (db, attempt)
    else
      var (d, next) := SaveBatches(save, db, batches[..|batches| - 1], attempt, faults);
      SaveBatch(save, d, batches[|batches| - 1], next, faults)
  }

  /** The records of successive batches, in order. */
  function Flatten<T>(ss: seq<seq<T>>): seq<T> {
    if |ss| == 0 then [] else Flatten(ss[..|ss| - 1]) + ss[|ss| - 1]
  }

  // ---------------------------------------------------------------- properties

  lemma FlattenSnoc<T>(ss: seq<seq<T>>, s: seq<T>)
    ensures Flatten(ss + [s]) == Flatten(ss) + s
  {
    assert (ss + [s])[..|ss|] == ss;
  }

  /** A transaction over two runs of records is the second run saved on top
      of the first, and fails when either does. */
  lemma {:induction false} SaveAllAppend<D, R>(save: (D, R) -> Result<D>, db: D, a: seq<R>, b: seq<R>)
    ensures SaveAll(save, db, a + b) ==
      (match SaveAll(save, db, a)
       case Failure => Failure
       case Success(d) => SaveAll(save, d, b))
  {
    if |b| == 0 {
      assert a + b == a;
    } else {
      assert (a + b)[..|a + b| - 1] == a + b[..|b| - 1];
      SaveAllAppend(save, db, a, b[..|b| - 1]);
    }
  }

  /** One record that raises rolls back the whole batch, whatever was saved
      before it. */
  lemma SaveAllFailsOnAnyFailure<D, R>(save: (D, R) -> Result<D>, db: D, recs: seq<R>, i: nat)
    requires i < |recs| && SaveAll(save, db, recs[..i]).Success?
    requires save(SaveAll(save, db, recs[..i]).value, recs[i]).Failure?
    ensures SaveAll(save, db, recs) == Failure
  {
    assert recs[..i + 1][..i] == recs[..i];
    assert SaveAll(save, db, recs[..i + 1]) == Failure;
    assert recs == recs[..i + 1] + recs[i + 1..];
    SaveAllAppend(save, db, recs[..i + 1], recs[i + 1..]);
  }

  /** Saving records one by one over two runs is the second run saved on
      top of the first, its connections numbered after the first run's. */
  lemma {:induction false} SaveEachAppend<D, R>(save: (D, R) -> Result<D>, db: D, a: seq<R>, b: seq<R>, attempt: nat, faults: set<nat>)
    ensures SaveEach(save, db, a + b, attempt, faults) == SaveEach(save, SaveEach(save, db, a, attempt, faults), b, attempt + |a|, faults)
  {
    if |b| == 0 {
      assert a + b == a;
    } else {
      assert (a + b)[..|a + b| - 1] == a + b[..|b| - 1];
      SaveEachAppend(save, db, a, b[..|b| - 1], attempt, faults);
    }
  }

  /** A record that fails in the one-by-one fallback does not stop the
      records after it: they are saved as if it were not there, on the
      connections numbered after its own. */
  lemma FailingRecordIsSkipped<D, R>(save: (D, R) -> Result<D>, db: D, a: seq<R>, rec: R, b: seq<R>,
                                     attempt: nat, faults: set<nat>)
    requires attempt + |a| in faults || save(SaveEach(save, db, a, attempt, faults), rec).Failure?
    ensures SaveEach(save, db, a + [rec] + b, attempt, faults) ==
      SaveEach(save, SaveEach(save, db, a, attempt, faults), b, attempt + |a| + 1, faults)
  {
    SaveEachAppend(save, db, a + [rec], b, attempt, faults);
    assert (a + [rec])[..|a + [rec]| - 1] == a;
  }

  /** When every connection opens and every record saves, the fallback
      leaves the database exactly as the batch transaction would have. */
  lemma {:induction false} SaveEachMatchesSaveAll<D, R>(save: (D, R) -> Result<D>, db: D, recs: seq<R>, attempt: nat, faults: set<nat>)
    requires forall n :: attempt <= n < attempt + |recs| ==> n !in faults
    requires SaveAll(save, db, recs).Success?
    ensures SaveEach(save, db, recs, attempt, faults) == SaveAll(save, db, recs).value
  {
    if |recs| > 0 {
      var init := recs[..|recs| - 1];
      assert attempt + |init| !in faults;
      match SaveAll(save, db, init)
      case Failure =>
      case Success(d) =>
        SaveEachMatchesSaveAll(save, db, init, attempt, faults);
    }
  }

  /** A batch is saved whole or, after its rollback, one record at a time:
      a batch that fails only because its connection did not open ends with
      the same tables as the transaction would have produced, when the
      fallback's connections open. */
  lemma BatchFallbackRecovers<D, R>(save: (D, R) -> Result<D>, db: D, recs: seq<R>, attempt: nat, faults: set<nat>)
    requires recs != [] && attempt in faults && SaveAll(save, db, recs).Success?
    requires forall n :: attempt + 1 <= n < attempt + 1 + |recs| ==> n !in faults
    ensures SaveBatch(save, db, recs, attempt, faults) == (SaveAll(save, db, recs).value, attempt + 1 + |recs|)
  {
    SaveEachMatchesSaveAll(save, db, recs, attempt + 1, faults);
  }

  /** Flushing batches one after another saves each batch on the tables the
      previous ones left. */
  lemma SaveBatchesSnoc<D, R>(save: (D, R) -> Result<D>, db: D, batches: seq<seq<R>>, batch: seq<R>, attempt: nat, faults: set<nat>)
    ensures SaveBatches(save, db, batches + [batch], attempt, faults) ==
      (var (d, next) := SaveBatches(save, db, batches, attempt, faults); SaveBatch(save, d, batch, next, faults))
  {
    assert (batches + [batch])[..|batches|] == batches;
  }

  /** While every connection opens, saving records batch by batch leaves
      the tables exactly as one transaction over all of them would, when
      that transaction succeeds. */
  lemma {:induction false} SaveBatchesMatchesSaveAll<D, R>(save: (D, R) -> Result<D>, db: D, batches: seq<seq<R>>, attempt: nat, faults: set<nat>)
    requires forall n :: attempt <= n ==> n !in faults
    requires SaveAll(save, db, Flatten(batches)).Success?
    ensures SaveBatches(save, db, batches, attempt, faults).0 == SaveAll(save, db, Flatten(batches)).value
  {
    if |batches| > 0 {
      var init, batch := batches[..|batches| - 1], batches[|batches| - 1];
      SaveAllAppend(save, db, Flatten(init), batch);
      var d := SaveAll(save, db, Flatten(init)).value;
      SaveBatchesMatchesSaveAll(save, db, init, attempt, faults);
      var next := SaveBatches(save, db, init, attempt, faults).1;
      assert next !in faults;
    }
  }
}
