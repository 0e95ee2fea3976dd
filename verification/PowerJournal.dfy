/**
 The crash-safe idempotency journal (team/power_journal.py).

 The two SQL tables are the fields of `PowerJournal`; each public method is one transaction, given first
 as a function from the tables before to the tables after and the reply. A transaction that cannot start
 or commit (`usable` is false) is rolled back. SHA-256 is symbolic: a digest is the value it commits to.
 */
module PowerJournal {
  import opened Wrappers
  import opened JsonTree

  datatype Digest = Sha256(preimage: Json)

  /** An opaque Power identity; the fingerprint commits to the validated request. */
  datatype Operation = Operation(interruptId: string, fingerprint: Digest)

  datatype BatchDigest = BatchDigest(generation: string, thread: string, operations: seq<Operation>)

  /** The immutable handle of one Brain suspension in a Team generation. */
  datatype Batch = Batch(generation: string, fingerprint: BatchDigest, operations: seq<Operation>)

  datatype Execution = Execute | Cached(result: Json)

  datatype JournalError = Conflict | Uncertain | Corruption | Unavailable

  datatype OperationState = Prepared | Executing | Completed

  datatype BatchRow = BatchRow(fingerprint: BatchDigest, operationCount: nat)

  datatype OperationRow = OperationRow(
    ordinal: nat,
    interruptId: string,
    fingerprint: Digest,
    state: OperationState,
    result: Option<Json>)

  /** `operations[g]` lists the rows of generation `g` by ordinal; deleting a batch row cascades to it. */
  datatype Tables = Tables(batches: map<string, BatchRow>, operations: map<string, seq<OperationRow>>)

  datatype Config = Config(
    maxGenerations: nat,
    maxOperations: nat,
    maxResultBytes: nat,
    encodedSize: Json -> nat)

  predicate Alphanumeric(c: char) {
    'a' <= c <= 'z' || 'A' <= c <= 'Z' || '0' <= c <= '9'
  }

  predicate SafeId(s: string) {
    && 1 <= |s| <= 256
    && Alphanumeric(s[0])
    && forall k :: 0 <= k < |s| ==> Alphanumeric(s[k]) || s[k] in "._:/-"
  }

  predicate DistinctIds(operations: seq<Operation>) {
    forall i, j :: 0 <= i < j < |operations| ==> operations[i].interruptId != operations[j].interruptId
  }

  predicate SafeIds(operations: seq<Operation>) {
    forall k :: 0 <= k < |operations| ==> SafeId(operations[k].interruptId)
  }

  /** A result whose canonical encoding the journal accepts and can read back. */
  ghost predicate Durable(config: Config, result: Json) {
    Acceptable(result, JOURNAL_LIMITS) && config.encodedSize(result) <= config.maxResultBytes
  }

  /** A stored result that `_decode_result` accepts. */
  ghost predicate Readable(config: Config, row: OperationRow) {
    row.result.Some? && Durable(config, row.result.value)
  }

  predicate HandleOk(batch: Batch) {
    && SafeId(batch.generation)
    && batch.operations != []
    && SafeIds(batch.operations)
    && DistinctIds(batch.operations)
  }

  function MakeBatch(config: Config, generation: string, thread: string, operations: seq<Operation>)
    : (r: Result<Batch, JournalError>)
    ensures r.Success? ==> HandleOk(r.value)
  {
    if !SafeId(generation) || !SafeId(thread) || !SafeIds(operations) then Failure(Conflict)
    else if operations == [] || |operations| > config.maxOperations then Failure(Conflict)
    else if !DistinctIds(operations) then Failure(Conflict)
    else Success(Batch(generation, BatchDigest(generation, thread, operations), operations))
  }

  function RowsOf(t: Tables, generation: string): seq<OperationRow> {
    if generation in t.operations then t.operations[generation] else []
  }

  predicate RowsMatch(rows: seq<OperationRow>, batch: Batch) {
    && |rows| == |batch.operations|
    && forall k :: 0 <= k < |rows| ==>
         && rows[k].ordinal == k
         && rows[k].interruptId == batch.operations[k].interruptId
         && rows[k].fingerprint == batch.operations[k].fingerprint
  }

  function LoadBatch(t: Tables, batch: Batch): (r: Result<seq<OperationRow>, JournalError>)
    ensures r.Success? ==> RowsMatch(r.value, batch) && r.value == RowsOf(t, batch.generation)
  {
    if batch.generation !in t.batches then Failure(Conflict)
    else
      var row := t.batches[batch.generation];
      var rows := RowsOf(t, batch.generation);
      if row.fingerprint != batch.fingerprint
        || row.operationCount != |batch.operations|
        || !RowsMatch(rows, batch)
      then Failure(Conflict)
      else Success(rows)
  }

  function RowIndex(rows: seq<OperationRow>, interruptId: string): (i: nat)
    requires exists k :: 0 <= k < |rows| && rows[k].interruptId == interruptId
    ensures i < |rows| && rows[i].interruptId == interruptId
  {
    if rows[0].interruptId == interruptId then 0 else 1 + RowIndex(rows[1..], interruptId)
  }

  function FreshRows(operations: seq<Operation>): seq<OperationRow> {
    seq(|operations|, k requires 0 <= k < |operations| =>
      OperationRow(k, operations[k].interruptId, operations[k].fingerprint, Prepared, None))
  }

  function Insert(t: Tables, batch: Batch): Tables {
    Tables(
      t.batches[batch.generation := BatchRow(batch.fingerprint, |batch.operations|)],
      t.operations[batch.generation := FreshRows(batch.operations)])
  }

  function Delete(t: Tables, generation: string): Tables {
    Tables(t.batches - {generation}, t.operations - {generation})
  }

  function WithRow(t: Tables, generation: string, rows: seq<OperationRow>, k: nat, row: OperationRow): Tables
    requires k < |rows|
  {
    t.(operations := t.operations[generation := rows[k := row]])
  }

  function PrepareTx(
    config: Config, t: Tables, usable: bool, generation: string, thread: string, operations: seq<Operation>)
    : (Tables, Result<Batch, JournalError>)
  {
    match MakeBatch(config, generation, thread, operations)
    case Failure(e) => (t, Failure(e))
    case Success(batch) =>
      if !usable then (t, Failure(Unavailable))
      else if generation in t.batches then
        if t.batches[generation].fingerprint != batch.fingerprint then (t, Failure(Conflict))
        else
          match LoadBatch(t, batch)
          case Failure(e) => (t, Failure(e))
          case Success(_) => (t, Success(batch))
      else if |t.batches| >= config.maxGenerations then (t, Failure(Conflict))
      else (Insert(t, batch), Success(batch))
  }

  /** The checks `begin`, `complete` and `suspend` share: the handle, then the row of the operation. */
  function Locate(t: Tables, usable: bool, batch: Batch, operation: Operation): (r: Result<nat, JournalError>)
    ensures r.Success? ==>
      && usable
      && batch.generation in t.batches
      && batch.generation in t.operations
      && RowsMatch(RowsOf(t, batch.generation), batch)
      && r.value < |RowsOf(t, batch.generation)|
      && RowsOf(t, batch.generation)[r.value].interruptId == operation.interruptId
  {
    if !HandleOk(batch) || !SafeId(operation.interruptId) || operation !in batch.operations then Failure(Conflict)
    else if !usable then Failure(Unavailable)
    else
      match LoadBatch(t, batch)
      case Failure(e) => Failure(e)
      case Success(rows) =>
        assert exists k :: 0 <= k < |rows| && rows[k].interruptId == operation.interruptId by {
          var k :| 0 <= k < |batch.operations| && batch.operations[k] == operation;
          assert rows[k].interruptId == operation.interruptId;
        }
        Success(RowIndex(rows, operation.interruptId))
  }

  ghost function BeginTx(config: Config, t: Tables, usable: bool, batch: Batch, operation: Operation)
    : (Tables, Result<Execution, JournalError>)
  {
    match Locate(t, usable, batch, operation)
    case Failure(e) => (t, Failure(e))
    case Success(k) =>
      var rows := RowsOf(t, batch.generation);
      match rows[k].state
      case Executing => (t, Failure(Uncertain))
      case Completed =>
        if !Readable(config, rows[k]) then (t, Failure(Corruption))
        else (t, Success(Cached(rows[k].result.value)))
      case Prepared =>
        if rows[k].result.Some? then (t, Failure(Corruption))
        else (WithRow(t, batch.generation, rows, k, rows[k].(state := Executing)), Success(Execute))
  }

  ghost function CompleteTx(
    config: Config, t: Tables, usable: bool, batch: Batch, operation: Operation, result: Json)
    : (Tables, Result<(), JournalError>)
  {
    if !HandleOk(batch) || operation !in batch.operations || !Durable(config, result) then (t, Failure(Conflict))
    else
      match Locate(t, usable, batch, operation)
      case Failure(e) => (t, Failure(e))
      case Success(k) =>
        var rows := RowsOf(t, batch.generation);
        match rows[k].state
        case Completed => (t, if rows[k].result == Some(result) then Success(()) else Failure(Conflict))
        case Prepared => (t, Failure(Conflict))
        case Executing =>
          if rows[k].result.Some? then (t, Failure(Conflict))
          else
            (WithRow(t, batch.generation, rows, k, rows[k].(state := Completed, result := Some(result))), Success(()))
  }

  function SuspendTx(t: Tables, usable: bool, batch: Batch, operation: Operation): (Tables, Result<(), JournalError>) {
    match Locate(t, usable, batch, operation)
    case Failure(e) => (t, Failure(e))
    case Success(k) =>
      var rows := RowsOf(t, batch.generation);
      if rows[k].state == Prepared && rows[k].result.None? then (t, Success(()))
      else if rows[k].state != Executing || rows[k].result.Some? then (t, Failure(Conflict))
      else (WithRow(t, batch.generation, rows, k, rows[k].(state := Prepared)), Success(()))
  }

  ghost function DeliverTx(config: Config, t: Tables, usable: bool, batch: Batch): (Tables, Result<(), JournalError>) {
    if !HandleOk(batch) then (t, Failure(Conflict))
    else if !usable then (t, Failure(Unavailable))
    else if batch.generation !in t.batches then (t, Success(()))
    else if t.batches[batch.generation].fingerprint != batch.fingerprint then (t, Failure(Conflict))
    else
      match LoadBatch(t, batch)
      case Failure(e) => (t, Failure(e))
      case Success(rows) =>
        if exists k :: 0 <= k < |rows| && rows[k].state != Completed then (t, Failure(Conflict))
        else if exists k :: 0 <= k < |rows| && !Readable(config, rows[k]) then (t, Failure(Corruption))
        else (Delete(t, batch.generation), Success(()))
  }

  function PurgeTx(t: Tables, usable: bool, generation: string): (Tables, Result<(), JournalError>) {
    if !SafeId(generation) then (t, Failure(Conflict))
    else if !usable then (t, Failure(Unavailable))
    else (Delete(t, generation), Success(()))
  }

  /** What the schema's CHECK, UNIQUE and FOREIGN KEY clauses and the handle rules keep true of the tables. */
  ghost predicate TablesOk(config: Config, t: Tables) {
    && t.batches.Keys == t.operations.Keys
    && forall g :: g in t.batches ==> GenerationOk(config, t, g)
  }

  ghost predicate GenerationOk(config: Config, t: Tables, g: string)
    requires g in t.batches && g in t.operations
  {
    var row, rows := t.batches[g], t.operations[g];
    && row.fingerprint.generation == g
    && 0 < row.operationCount == |rows| == |row.fingerprint.operations|
    && DistinctIds(row.fingerprint.operations)
    && RowsMatch(rows, Batch(g, row.fingerprint, row.fingerprint.operations))
    && forall k :: 0 <= k < |rows| ==>
         && (rows[k].state == Completed <==> rows[k].result.Some?)
         && (rows[k].result.Some? ==> Durable(config, rows[k].result.value))
  }

  class PowerJournal {
    const config: Config
    var batches: map<string, BatchRow>
    var operations: map<string, seq<OperationRow>>
    var closed: bool

    constructor (config: Config)
      ensures this.config == config && !closed
      ensures State() == Tables(map[], map[])
    {
      this.config := config;
      batches := map[];
      operations := map[];
      closed := false;
    }

    function State(): Tables
      reads this
    {
      Tables(batches, operations)
    }

    method PrepareBatch(generation: string, thread: string, selected: seq<Operation>, sqlOk: bool)
      returns (r: Result<Batch, JournalError>)
      modifies this`batches, this`operations
      ensures (State(), r) == PrepareTx(config, old(State()), sqlOk && !closed, generation, thread, selected)
    {
      var made := MakeBatch(config, generation, thread, selected);
      if made.Failure? {
        return made;
      }
      if closed || !sqlOk {
        return Failure(Unavailable);
      }
      var batch := made.value;
      if generation in batches {
        if batches[generation].fingerprint != batch.fingerprint {
          return Failure(Conflict);
        }
        var loaded := LoadBatch(State(), batch);
        return if loaded.Failure? then Failure(loaded.error) else Success(batch);
      }
      if |batches| >= config.maxGenerations {
        return Failure(Conflict);
      }
      batches := batches[generation := BatchRow(batch.fingerprint, |selected|)];
      operations := operations[generation := FreshRows(selected)];
      r := Success(batch);
    }

    method Begin(batch: Batch, operation: Operation, sqlOk: bool) returns (r: Result<Execution, JournalError>)
      modifies this`operations
      ensures (State(), r) == BeginTx(config, old(State()), sqlOk && !closed, batch, operation)
    {
      var located := Locate(State(), sqlOk && !closed, batch, operation);
      if located.Failure? {
        return Failure(located.error);
      }
      var k, rows := located.value, operations[batch.generation];
      if rows[k].state == Executing {
        return Failure(Uncertain);
      }
      if rows[k].state == Completed {
        if rows[k].result.None? {
          return Failure(Corruption);
        }
        var readable := IsDurable(rows[k].result.value);
        return if readable then Success(Cached(rows[k].result.value)) else Failure(Corruption);
      }
      if rows[k].result.Some? {
        return Failure(Corruption);
      }
      operations := operations[batch.generation := rows[k := rows[k].(state := Executing)]];
      r := Success(Execute);
    }

    method IsDurable(result: Json) returns (ok: bool)
      ensures ok <==> Durable(config, result)
    {
      ok := WithinLimits(result, JOURNAL_LIMITS);
      ok := ok && config.encodedSize(result) <= config.maxResultBytes;
    }

    method Complete(batch: Batch, operation: Operation, result: Json, sqlOk: bool)
      returns (r: Result<(), JournalError>)
      modifies this`operations
      ensures (State(), r) == CompleteTx(config, old(State()), sqlOk && !closed, batch, operation, result)
    {
      if !HandleOk(batch) || operation !in batch.operations {
        return Failure(Conflict);
      }
      var encodable := IsDurable(result);
      if !encodable {
        return Failure(Conflict);
      }
      var located := Locate(State(), sqlOk && !closed, batch, operation);
      if located.Failure? {
        return Failure(located.error);
      }
      var k, rows := located.value, operations[batch.generation];
      if rows[k].state == Completed {
        return if rows[k].result == Some(result) then Success(()) else Failure(Conflict);
      }
      if rows[k].state != Executing || rows[k].result.Some? {
        return Failure(Conflict);
      }
      operations := operations[batch.generation := rows[k := rows[k].(state := Completed, result := Some(result))]];
      r := Success(());
    }

    method Suspend(batch: Batch, operation: Operation, sqlOk: bool) returns (r: Result<(), JournalError>)
      modifies this`operations
      ensures (State(), r) == SuspendTx(old(State()), sqlOk && !closed, batch, operation)
    {
      var located := Locate(State(), sqlOk && !closed, batch, operation);
      if located.Failure? {
        return Failure(located.error);
      }
      var k, rows := located.value, operations[batch.generation];
      if rows[k].state == Prepared && rows[k].result.None? {
        return Success(());
      }
      if rows[k].state != Executing || rows[k].result.Some? {
        return Failure(Conflict);
      }
      operations := operations[batch.generation := rows[k := rows[k].(state := Prepared)]];
      r := Success(());
    }

    method Delivered(batch: Batch, sqlOk: bool) returns (r: Result<(), JournalError>)
      modifies this`batches, this`operations
      ensures (State(), r) == DeliverTx(config, old(State()), sqlOk && !closed, batch)
    {
      if !HandleOk(batch) {
        return Failure(Conflict);
      }
      if closed || !sqlOk {
        return Failure(Unavailable);
      }
      if batch.generation !in batches {
        return Success(());
      }
      if batches[batch.generation].fingerprint != batch.fingerprint {
        return Failure(Conflict);
      }
      var loaded := LoadBatch(State(), batch);
      if loaded.Failure? {
        return Failure(loaded.error);
      }
      var rows := loaded.value;
      if exists k :: 0 <= k < |rows| && rows[k].state != Completed {
        return Failure(Conflict);
      }
      for i := 0 to |rows|
        invariant unchanged(this)
        invariant forall k :: 0 <= k < i ==> Readable(config, rows[k])
      {
        if rows[i].result.None? {
          assert !Readable(config, rows[i]);
          return Failure(Corruption);
        }
        var readable := IsDurable(rows[i].result.value);
        if !readable {
          assert !Readable(config, rows[i]);
          return Failure(Corruption);
        }
      }
      batches := batches - {batch.generation};
      operations := operations - {batch.generation};
      r := Success(());
    }

    method Purge(generation: string, sqlOk: bool) returns (r: Result<(), JournalError>)
      modifies this`batches, this`operations
      ensures (State(), r) == PurgeTx(old(State()), sqlOk && !closed, generation)
    {
      if !SafeId(generation) {
        return Failure(Conflict);
      }
      if closed || !sqlOk {
        return Failure(Unavailable);
      }
      batches := batches - {generation};
      operations := operations - {generation};
      r := Success(());
    }

    method Close()
      modifies this`closed
      ensures closed
    {
      closed := true;
    }
  }
}
