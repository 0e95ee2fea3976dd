/**
 What each call of the Power journal (team/power_journal.py) answers and does, by the state of the operation it is
 about: every outcome with the exact condition for it.
 */
module JournalOutcomes {
  import opened Wrappers
  import opened JsonTree
  import opened PowerJournal
  import opened AtMostOnce

  /** The handle belongs to the batch that is pending for its generation. */
  ghost predicate Pending(t: Tables, batch: Batch) {
    && HandleOk(batch)
    && batch.generation in t.batches && batch.generation in t.operations
    && t.batches[batch.generation] == BatchRow(batch.fingerprint, |batch.operations|)
    && RowsMatch(t.operations[batch.generation], batch)
  }

  ghost function RowOf(t: Tables, batch: Batch, k: nat): OperationRow
    requires Pending(t, batch) && k < |batch.operations|
  {
    t.operations[batch.generation][k]
  }

  /** The tables with another state and result for one operation, and nothing else changed. */
  ghost predicate Rewritten(
    t: Tables, after: Tables, batch: Batch, k: nat, state: OperationState, result: Option<Json>)
    requires Pending(t, batch) && k < |batch.operations|
  {
    && after.batches == t.batches && after.operations.Keys == t.operations.Keys
    && (forall g :: g in t.operations && g != batch.generation ==> after.operations[g] == t.operations[g])
    && after.operations[batch.generation]
       == t.operations[batch.generation][k := RowOf(t, batch, k).(state := state, result := result)]
  }

  lemma PendingLoads(t: Tables, batch: Batch)
    requires HandleOk(batch) && batch.generation in t.operations
    ensures Pending(t, batch) <==> LoadBatch(t, batch).Success?
    ensures LoadBatch(t, batch).Failure? ==> LoadBatch(t, batch) == Failure(Conflict)
  {
  }

  lemma LocatesItsRow(t: Tables, usable: bool, batch: Batch, k: nat)
    requires Pending(t, batch) && k < |batch.operations|
    ensures Locate(t, usable, batch, batch.operations[k]) == if usable then Success(k) else Failure(Unavailable)
    ensures RowsOf(t, batch.generation)[k] == RowOf(t, batch, k)
  {
    PendingLoads(t, batch);
    var rows := RowsOf(t, batch.generation);
    assert batch.operations[k] in batch.operations;
    assert forall i, j :: 0 <= i < j < |rows| ==> rows[i].interruptId != rows[j].interruptId;
    assert rows[k].interruptId == batch.operations[k].interruptId;
    RowIndexIsUnique(rows, k);
  }

  /** The row of a pending operation is in order. */
  lemma RowIsInOrder(config: Config, t: Tables, batch: Batch, k: nat)
    requires TablesOk(config, t) && Pending(t, batch) && k < |batch.operations|
    ensures var row := RowOf(t, batch, k);
            && (row.state == Completed <==> row.result.Some?)
            && (row.result.Some? ==> Readable(config, row))
  {
    assert GenerationOk(config, t, batch.generation);
  }

  /** A prepared operation is granted, a completed one answered, and an executing one uncertain. */
  lemma BeginIsExact(config: Config, t: Tables, usable: bool, batch: Batch, k: nat)
    requires TablesOk(config, t) && Pending(t, batch) && k < |batch.operations|
    ensures var (after, r) := BeginTx(config, t, usable, batch, batch.operations[k]);
            var row := RowOf(t, batch, k);
            if !usable then (after, r) == (t, Failure(Unavailable))
            else
              match row.state
              case Prepared => r == Success(Execute) && Rewritten(t, after, batch, k, Executing, None)
              case Executing => (after, r) == (t, Failure(Uncertain))
              case Completed => after == t && r == Success(Cached(row.result.value))
  {
    hide HandleOk, Durable, LoadBatch, Locate, SafeId, TablesOk;
    LocatesItsRow(t, usable, batch, k);
    RowIsInOrder(config, t, batch, k);
  }

  lemma DurableFits(config: Config, result: Json)
    ensures Durable(config, result)
       <==> Acceptable(result, JOURNAL_LIMITS) && config.encodedSize(result) <= config.maxResultBytes
  {
  }

  /** An executing operation takes its first durable result; the same one again is accepted, another conflicts. */
  lemma CompletionIsExact(config: Config, t: Tables, usable: bool, batch: Batch, k: nat, result: Json)
    requires TablesOk(config, t) && Pending(t, batch) && k < |batch.operations|
    ensures var (after, r) := CompleteTx(config, t, usable, batch, batch.operations[k], result);
            var row := RowOf(t, batch, k);
            var fits := Acceptable(result, JOURNAL_LIMITS) && config.encodedSize(result) <= config.maxResultBytes;
            if !fits then (after, r) == (t, Failure(Conflict))
            else if !usable then (after, r) == (t, Failure(Unavailable))
            else
              match row.state
              case Prepared => (after, r) == (t, Failure(Conflict))
              case Executing => r == Success(()) && Rewritten(t, after, batch, k, Completed, Some(result))
              case Completed => after == t && r == if row.result == Some(result) then Success(()) else Failure(Conflict)
  {
    DurableFits(config, result);
    hide HandleOk, Durable, Acceptable, LoadBatch, Locate, SafeId, TablesOk;
    LocatesItsRow(t, usable, batch, k);
    RowIsInOrder(config, t, batch, k);
    assert batch.operations[k] in batch.operations;
  }

  /** An executing operation is released; one that is prepared already is as well, and a completed one never. */
  lemma SuspensionIsExact(config: Config, t: Tables, usable: bool, batch: Batch, k: nat)
    requires TablesOk(config, t) && Pending(t, batch) && k < |batch.operations|
    ensures var (after, r) := SuspendTx(t, usable, batch, batch.operations[k]);
            if !usable then (after, r) == (t, Failure(Unavailable))
            else
              match RowOf(t, batch, k).state
              case Prepared => (after, r) == (t, Success(()))
              case Executing => r == Success(()) && Rewritten(t, after, batch, k, Prepared, None)
              case Completed => (after, r) == (t, Failure(Conflict))
  {
    hide HandleOk, Durable, LoadBatch, Locate, SafeId, TablesOk;
    LocatesItsRow(t, usable, batch, k);
    RowIsInOrder(config, t, batch, k);
  }

  /** Rows the schema should not allow are reported and left alone: nothing is granted, answered or delivered from them. */
  lemma CorruptionIsReported(config: Config, t: Tables, batch: Batch, k: nat)
    requires Pending(t, batch) && k < |batch.operations|
    requires var row := RowOf(t, batch, k);
             || (row.state == Prepared && row.result.Some?)
             || (row.state == Completed && !Readable(config, row))
    ensures BeginTx(config, t, true, batch, batch.operations[k]) == (t, Failure(Corruption))
    ensures DeliverTx(config, t, true, batch).0 == t && DeliverTx(config, t, true, batch).1.Failure?
    ensures (forall j :: 0 <= j < |batch.operations| ==> RowOf(t, batch, j).state == Completed) ==>
              DeliverTx(config, t, true, batch).1 == Failure(Corruption)
  {
    hide SafeId, Durable;
    LocatesItsRow(t, true, batch, k);
    PendingLoads(t, batch);
    assert RowsOf(t, batch.generation)[k] == RowOf(t, batch, k);
    assert forall j :: 0 <= j < |batch.operations| ==> RowsOf(t, batch.generation)[j] == RowOf(t, batch, j);
  }

  /** An unfinished operation that already has a result is neither completed nor released. */
  lemma UnfinishedResultConflicts(config: Config, t: Tables, batch: Batch, k: nat, result: Json)
    requires Pending(t, batch) && k < |batch.operations|
    requires RowOf(t, batch, k).state != Completed && RowOf(t, batch, k).result.Some?
    ensures CompleteTx(config, t, true, batch, batch.operations[k], result) == (t, Failure(Conflict))
    ensures SuspendTx(t, true, batch, batch.operations[k]) == (t, Failure(Conflict))
  {
    hide SafeId, Durable;
    LocatesItsRow(t, true, batch, k);
  }

  /** A handle that is not that of the pending batch, or an operation not in it, changes nothing and is refused. */
  lemma StrangersAreRefused(config: Config, t: Tables, usable: bool, batch: Batch, operation: Operation, result: Json)
    requires TablesOk(config, t) && (!Pending(t, batch) || operation !in batch.operations)
    ensures BeginTx(config, t, usable, batch, operation).0 == t && BeginTx(config, t, usable, batch, operation).1.Failure?
    ensures SuspendTx(t, usable, batch, operation).0 == t && SuspendTx(t, usable, batch, operation).1.Failure?
    ensures CompleteTx(config, t, usable, batch, operation, result).0 == t
    ensures CompleteTx(config, t, usable, batch, operation, result).1.Failure?
    ensures usable ==>
              && BeginTx(config, t, usable, batch, operation).1 == Failure(Conflict)
              && SuspendTx(t, usable, batch, operation).1 == Failure(Conflict)
              && CompleteTx(config, t, usable, batch, operation, result).1 == Failure(Conflict)
  {
    hide Durable;
    if HandleOk(batch) && batch.generation in t.operations {
      PendingLoads(t, batch);
    }
  }

  /** A batch is delivered exactly when all its operations have completed, and then it is gone. */
  lemma DeliveryIsExact(config: Config, t: Tables, usable: bool, batch: Batch)
    requires TablesOk(config, t)
    ensures var (after, r) := DeliverTx(config, t, usable, batch);
            var g := batch.generation;
            var completed := Pending(t, batch) &&
              forall k :: 0 <= k < |batch.operations| ==> RowOf(t, batch, k).state == Completed;
            && (r.Success? <==> HandleOk(batch) && usable && (g !in t.batches || completed))
            && (r.Success? ==> after == Tables(t.batches - {g}, t.operations - {g}))
            && (r.Failure? ==> after == t)
            && (usable && r.Failure? ==> r == Failure(Conflict))
  {
    hide Durable;
    var g := batch.generation;
    if HandleOk(batch) && g in t.batches {
      PendingLoads(t, batch);
      assert GenerationOk(config, t, g);
      if Pending(t, batch) {
        forall k | 0 <= k < |batch.operations|
          ensures RowOf(t, batch, k) == RowsOf(t, g)[k]
          ensures RowOf(t, batch, k).state == Completed ==> Readable(config, RowOf(t, batch, k))
        {
          RowIsInOrder(config, t, batch, k);
        }
      }
    } else {
      assert g !in t.batches ==> t.batches - {g} == t.batches && t.operations - {g} == t.operations;
    }
  }

  /** A generation takes one batch while there is room, the same one again, and no other. */
  lemma PreparationIsExact(
    config: Config, t: Tables, usable: bool, g: string, thread: string, operations: seq<Operation>)
    requires TablesOk(config, t)
    ensures var (after, r) := PrepareTx(config, t, usable, g, thread, operations);
            var batch := Batch(g, BatchDigest(g, thread, operations), operations);
            var valid := HandleOk(batch) && SafeId(thread) && |operations| <= config.maxOperations;
            var same := g in t.batches && t.batches[g].fingerprint == batch.fingerprint;
            var fits := g !in t.batches && |t.batches| < config.maxGenerations;
            && (r.Success? <==> valid && usable && (same || fits))
            && (r.Success? ==> r.value == batch && Pending(after, batch))
            && (r.Success? && fits ==>
                 && after.batches == t.batches[g := after.batches[g]]
                 && after.operations == t.operations[g := after.operations[g]]
                 && forall k :: 0 <= k < |operations| ==>
                      RowOf(after, batch, k).state == Prepared && RowOf(after, batch, k).result.None?)
            && (!(r.Success? && fits) ==> after == t)
            && (usable && r.Failure? ==> r == Failure(Conflict))
            && (valid && !usable ==> r == Failure(Unavailable))
  {
    hide Durable, SafeId;
    var batch := Batch(g, BatchDigest(g, thread, operations), operations);
    if g in t.batches && HandleOk(batch) {
      assert GenerationOk(config, t, g);
      PendingLoads(t, batch);
    }
  }
}
