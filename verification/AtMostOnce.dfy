/**
 At-most-once Power effects over whole runs of the journal: any number of clients, any interleaving of
 their transactions, failed transactions, abandoned Powers and process crashes.
 */
module AtMostOnce {
  import opened Wrappers
  import opened JsonTree
  import opened PowerJournal

  // ---------------------------------------------------------------- runs of journal transactions

  datatype Call =
    | PrepareCall(generation: string, thread: string, operations: seq<Operation>)
    | BeginCall(batch: Batch, operation: Operation)
    | CompleteCall(batch: Batch, operation: Operation, result: Json)
    | SuspendCall(batch: Batch, operation: Operation)
    | DeliverCall(batch: Batch)
    | PurgeCall(generation: string)

  datatype Event = Event(call: Call, usable: bool)

  ghost function Apply(config: Config, t: Tables, e: Event): Tables {
    match e.call
    case PrepareCall(g, thread, ops) => PrepareTx(config, t, e.usable, g, thread, ops).0
    case BeginCall(batch, op) => BeginTx(config, t, e.usable, batch, op).0
    case CompleteCall(batch, op, result) => CompleteTx(config, t, e.usable, batch, op, result).0
    case SuspendCall(batch, op) => SuspendTx(t, e.usable, batch, op).0
    case DeliverCall(batch) => DeliverTx(config, t, e.usable, batch).0
    case PurgeCall(g) => PurgeTx(t, e.usable, g).0
  }

  ghost function Run(config: Config, t: Tables, es: seq<Event>): Tables
    decreases |es|
  {
    if es == [] then t else Run(config, Apply(config, t, es[0]), es[1..])
  }

  /** The state of one operation, or None when its batch is not pending. */
  ghost function StateOf(t: Tables, g: string, id: string): Option<OperationState> {
    var rows := RowsOf(t, g);
    if exists k :: 0 <= k < |rows| && rows[k].interruptId == id then Some(rows[RowIndex(rows, id)].state) else None
  }

  /** The event tells its caller to execute the Power of this operation. */
  ghost predicate IsGrant(config: Config, t: Tables, e: Event, g: string, id: string) {
    && e.call.BeginCall?
    && e.call.batch.generation == g
    && e.call.operation.interruptId == id
    && BeginTx(config, t, e.usable, e.call.batch, e.call.operation).1 == Success(Execute)
  }

  /** The event is a suspension of this operation that took effect. */
  ghost predicate IsSuspension(t: Tables, e: Event, g: string, id: string) {
    && e.call.SuspendCall?
    && e.call.batch.generation == g
    && e.call.operation.interruptId == id
    && SuspendTx(t, e.usable, e.call.batch, e.call.operation).1.Success?
    && StateOf(t, g, id) == Some(Executing)
  }

  /** The event stores the result of this operation. */
  ghost predicate IsCompletion(config: Config, t: Tables, e: Event, g: string, id: string) {
    && e.call.CompleteCall?
    && e.call.batch.generation == g
    && e.call.operation.interruptId == id
    && CompleteTx(config, t, e.usable, e.call.batch, e.call.operation, e.call.result).1.Success?
    && StateOf(t, g, id) == Some(Executing)
  }

  ghost function GrantCount(config: Config, t: Tables, es: seq<Event>, g: string, id: string): nat
    decreases |es|
  {
    if es == [] then 0
    else
      (if IsGrant(config, t, es[0], g, id) then 1 else 0)
      + GrantCount(config, Apply(config, t, es[0]), es[1..], g, id)
  }

  ghost function SuspensionCount(config: Config, t: Tables, es: seq<Event>, g: string, id: string): nat
    decreases |es|
  {
    if es == [] then 0
    else
      (if IsSuspension(t, es[0], g, id) then 1 else 0)
      + SuspensionCount(config, Apply(config, t, es[0]), es[1..], g, id)
  }

  /** One when the effect of the operation may have happened and was not explicitly suspended. */
  ghost function Outstanding(t: Tables, g: string, id: string): nat {
    if StateOf(t, g, id) in {Some(Executing), Some(Completed)} then 1 else 0
  }

  /** The run never deletes the rows of `g`: everything happens within one incarnation of its batch. */
  ghost predicate SameIncarnation(config: Config, t: Tables, es: seq<Event>, g: string)
    decreases |es|
  {
    g in t.batches && (es != [] ==> SameIncarnation(config, Apply(config, t, es[0]), es[1..], g))
  }

  // ---------------------------------------------------------------- what one transaction keeps

  lemma RowIndexIsUnique(rows: seq<OperationRow>, k: nat)
    requires k < |rows|
    requires forall i, j :: 0 <= i < j < |rows| ==> rows[i].interruptId != rows[j].interruptId
    ensures RowIndex(rows, rows[k].interruptId) == k
  {
  }

  lemma RowsHaveDistinctIds(config: Config, t: Tables, g: string)
    requires TablesOk(config, t) && g in t.batches
    ensures forall i, j :: 0 <= i < j < |t.operations[g]| ==>
              t.operations[g][i].interruptId != t.operations[g][j].interruptId
  {
  }

  /** Rewriting the row found for an operation changes the state of that operation only. */
  lemma RewriteRow(config: Config, t: Tables, g: string, k: nat, row: OperationRow)
    requires TablesOk(config, t) && g in t.batches && k < |RowsOf(t, g)|
    requires row.interruptId == RowsOf(t, g)[k].interruptId
    ensures forall g', id ::
              StateOf(WithRow(t, g, RowsOf(t, g), k, row), g', id)
              == if g' == g && id == row.interruptId then Some(row.state) else StateOf(t, g', id)
  {
    RowsHaveDistinctIds(config, t, g);
    var rows := RowsOf(t, g);
    var after := WithRow(t, g, rows, k, row);
    var rows' := RowsOf(after, g);
    forall g', id
      ensures StateOf(after, g', id) == if g' == g && id == row.interruptId then Some(row.state) else StateOf(t, g', id)
    {
      if g' == g {
        assert forall i :: 0 <= i < |rows| ==> rows'[i].interruptId == rows[i].interruptId;
        if i :| 0 <= i < |rows| && rows[i].interruptId == id {
          assert rows'[i].interruptId == id;
          RowIndexIsUnique(rows, i);
          RowIndexIsUnique(rows', i);
        }
      }
    }
  }

  lemma InsertKeepsTables(config: Config, t: Tables, batch: Batch)
    requires TablesOk(config, t) && HandleOk(batch)
    requires batch.fingerprint.generation == batch.generation && batch.fingerprint.operations == batch.operations
    ensures TablesOk(config, Insert(t, batch))
  {
  }

  lemma DeleteKeepsTables(config: Config, t: Tables, generation: string)
    requires TablesOk(config, t)
    ensures TablesOk(config, Delete(t, generation))
  {
  }

  lemma RewriteKeepsTables(config: Config, t: Tables, g: string, k: nat, row: OperationRow)
    requires TablesOk(config, t) && g in t.batches && k < |RowsOf(t, g)|
    requires row.(state := RowsOf(t, g)[k].state, result := RowsOf(t, g)[k].result) == RowsOf(t, g)[k]
    requires (row.state == Completed <==> row.result.Some?) && (row.result.Some? ==> Durable(config, row.result.value))
    ensures TablesOk(config, WithRow(t, g, RowsOf(t, g), k, row))
  {
    var after := WithRow(t, g, RowsOf(t, g), k, row);
    forall g' | g' in after.batches
      ensures GenerationOk(config, after, g')
    {
      assert GenerationOk(config, t, g');
    }
  }

  lemma TransactionKeepsTables(config: Config, t: Tables, e: Event)
    requires TablesOk(config, t)
    ensures TablesOk(config, Apply(config, t, e))
  {
    match e.call
    case PrepareCall(g, thread, ops) =>
      var made := MakeBatch(config, g, thread, ops);
      if made.Success? {
        InsertKeepsTables(config, t, made.value);
      }
    case DeliverCall(batch) => DeleteKeepsTables(config, t, batch.generation);
    case PurgeCall(g) => DeleteKeepsTables(config, t, g);
    case _ => RowOperation(config, t, e);
  }

  ghost predicate IsRowCall(e: Event) {
    e.call.BeginCall? || e.call.CompleteCall? || e.call.SuspendCall?
  }

  function Target(call: Call): OperationState {
    if call.BeginCall? then Executing else if call.CompleteCall? then Completed else Prepared
  }

  /** `begin`, `complete` and `suspend` rewrite at most the located row. */
  lemma RowRewrite(config: Config, t: Tables, e: Event) returns (k: nat, row: OperationRow)
    requires TablesOk(config, t) && IsRowCall(e) && Apply(config, t, e) != t
    ensures var batch, op := e.call.batch, e.call.operation;
            var rows := RowsOf(t, batch.generation);
            && Locate(t, e.usable, batch, op) == Success(k)
            && Apply(config, t, e) == WithRow(t, batch.generation, rows, k, row)
            && row == rows[k].(state := Target(e.call), result := row.result)
            && (row.state == Completed <==> row.result.Some?)
            && (row.result.Some? ==> Durable(config, row.result.value))
  {
    k := Locate(t, e.usable, e.call.batch, e.call.operation).value;
    row := RowsOf(Apply(config, t, e), e.call.batch.generation)[k];
    assert GenerationOk(config, t, e.call.batch.generation);
  }

  lemma RowOperation(config: Config, t: Tables, e: Event)
    requires TablesOk(config, t) && IsRowCall(e)
    ensures TablesOk(config, Apply(config, t, e))
    ensures Apply(config, t, e).batches == t.batches
  {
    if Apply(config, t, e) != t {
      var k, row := RowRewrite(config, t, e);
      hide Apply;
      RewriteKeepsTables(config, t, e.call.batch.generation, k, row);
    }
  }

  /** A row call changes the tables exactly when it grants, suspends or completes its own operation. */
  lemma RowVerdict(config: Config, t: Tables, e: Event)
    requires TablesOk(config, t) && IsRowCall(e)
    ensures var g, id := e.call.batch.generation, e.call.operation.interruptId;
            && (Apply(config, t, e) != t <==>
                 IsGrant(config, t, e, g, id) || IsSuspension(t, e, g, id) || IsCompletion(config, t, e, g, id))
            && (IsGrant(config, t, e, g, id) ==> StateOf(t, g, id) == Some(Prepared) && g in t.batches)
  {
    hide HandleOk, SafeId, LoadBatch, Durable, Locate, DistinctIds;
    var batch, op := e.call.batch, e.call.operation;
    var located := Locate(t, e.usable, batch, op);
    if located.Success? {
      RowsHaveDistinctIds(config, t, batch.generation);
      RowIndexIsUnique(RowsOf(t, batch.generation), located.value);
      assert GenerationOk(config, t, batch.generation);
      var row := RowsOf(t, batch.generation)[located.value];
      assert StateOf(t, batch.generation, op.interruptId) == Some(row.state);
      assert RowsOf(Apply(config, t, e), batch.generation)[located.value] == row ==> Apply(config, t, e) == t;
    }
  }

  lemma RowStates(config: Config, t: Tables, e: Event, g: string, id: string)
    requires TablesOk(config, t) && IsRowCall(e)
    ensures StateOf(Apply(config, t, e), g, id) == StateAfter(config, t, e, g, id)
    ensures IsGrant(config, t, e, g, id) ==> StateOf(t, g, id) == Some(Prepared) && g in t.batches
  {
    RowVerdict(config, t, e);
    if Apply(config, t, e) != t {
      var k, row := RowRewrite(config, t, e);
      RewriteRow(config, t, e.call.batch.generation, k, row);
    }
    hide Apply, BeginTx, CompleteTx, SuspendTx, StateOf, Locate, TablesOk;
  }

  /** What one transaction makes of one operation of a generation it does not delete. */
  ghost function StateAfter(config: Config, t: Tables, e: Event, g: string, id: string): Option<OperationState> {
    if IsGrant(config, t, e, g, id) then Some(Executing)
    else if IsSuspension(t, e, g, id) then Some(Prepared)
    else if IsCompletion(config, t, e, g, id) then Some(Completed)
    else StateOf(t, g, id)
  }

  lemma DeliveryView(config: Config, t: Tables, usable: bool, batch: Batch)
    requires TablesOk(config, t) && DeliverTx(config, t, usable, batch).0 != t
    ensures batch.generation in t.batches
    ensures DeliverTx(config, t, usable, batch).0 == Delete(t, batch.generation)
    ensures forall id :: StateOf(t, batch.generation, id) in {None, Some(Completed)}
  {
  }

  lemma TransactionView(config: Config, t: Tables, e: Event, g: string, id: string)
    requires TablesOk(config, t) && g in t.batches
    ensures IsGrant(config, t, e, g, id) ==> StateOf(t, g, id) == Some(Prepared)
    ensures g in Apply(config, t, e).batches ==>
              StateOf(Apply(config, t, e), g, id) == StateAfter(config, t, e, g, id)
    ensures g !in Apply(config, t, e).batches ==>
              e.call == PurgeCall(g) || (e.call.DeliverCall? && StateOf(t, g, id) in {None, Some(Completed)})
  {
    if IsRowCall(e) {
      RowStates(config, t, e, g, id);
      RowOperation(config, t, e);
    } else if e.call.DeliverCall? && DeliverTx(config, t, e.usable, e.call.batch).0 != t {
      DeliveryView(config, t, e.usable, e.call.batch);
    }
  }

  /** One transaction inside one incarnation: grants are paid for by suspensions or stay outstanding. */
  lemma TransactionConserves(config: Config, t: Tables, e: Event, g: string, id: string)
    requires TablesOk(config, t) && g in t.batches && g in Apply(config, t, e).batches
    ensures Outstanding(Apply(config, t, e), g, id) + (if IsSuspension(t, e, g, id) then 1 else 0)
         == Outstanding(t, g, id) + (if IsGrant(config, t, e, g, id) then 1 else 0)
  {
    TransactionView(config, t, e, g, id);
    hide Apply, StateOf, TablesOk;
  }

  // ---------------------------------------------------------------- conservation over runs

  /**
   Within one incarnation, the number of times clients are told to execute a Power equals the number of its
   suspensions that took effect, plus one exactly when the operation is now executing or completed.
   */
  lemma {:induction false} GrantsAreConserved(config: Config, t: Tables, es: seq<Event>, g: string, id: string)
    requires TablesOk(config, t) && SameIncarnation(config, t, es, g)
    ensures GrantCount(config, t, es, g, id) + Outstanding(t, g, id)
         == SuspensionCount(config, t, es, g, id) + Outstanding(Run(config, t, es), g, id)
    decreases |es|
  {
    if es != [] {
      var t' := Apply(config, t, es[0]);
      TransactionKeepsTables(config, t, es[0]);
      assert SameIncarnation(config, t', es[1..], g);
      TransactionConserves(config, t, es[0], g, id);
      GrantsAreConserved(config, t', es[1..], g, id);
    }
  }

  /** Without an explicit suspension a fresh batch grants each operation at most once, whoever asks. */
  lemma AtMostOneGrantWithoutSuspension(
    config: Config, t: Tables, batch: Batch, es: seq<Event>, id: string)
    requires TablesOk(config, t) && HandleOk(batch) && batch.fingerprint.generation == batch.generation
    requires batch.fingerprint.operations == batch.operations
    requires SameIncarnation(config, Insert(t, batch), es, batch.generation)
    requires SuspensionCount(config, Insert(t, batch), es, batch.generation, id) == 0
    ensures GrantCount(config, Insert(t, batch), es, batch.generation, id) <= 1
  {
    var inserted := Insert(t, batch);
    assert TablesOk(config, inserted) by {
      forall g | g in inserted.batches
        ensures GenerationOk(config, inserted, g)
      {
        assert g != batch.generation ==> GenerationOk(config, t, g);
      }
    }
    GrantsAreConserved(config, inserted, es, batch.generation, id);
  }

  /** While one batch is pending for a generation, preparing any other one conflicts and changes nothing. */
  lemma PendingBatchBlocksOthers(
    config: Config, t: Tables, usable: bool, g: string, thread: string, ops: seq<Operation>)
    requires g in t.batches && t.batches[g].fingerprint != BatchDigest(g, thread, ops)
    ensures PrepareTx(config, t, usable, g, thread, ops).0 == t
    ensures PrepareTx(config, t, usable, g, thread, ops).1.Failure?
    ensures usable ==> PrepareTx(config, t, usable, g, thread, ops).1 == Failure(Conflict)
  {
  }

  // ---------------------------------------------------------------- clients and crashes

  /** A client between the grant of an operation and its completion, suspension or disappearance. */
  datatype Flight = Flight(batch: Batch, operation: Operation)

  datatype System = System(tables: Tables, flights: map<nat, Flight>)

  /**
   `Transact` is any transaction of a client that holds no grant; `Finish` reports the outcome of the Power a
   client was granted (a failed report still ends the client's claim); `Crash` erases every client.
   */
  datatype Step =
    | Transact(client: nat, event: Event)
    | FinishCompleted(client: nat, result: Json, usable: bool)
    | FinishSuspended(client: nat, usable: bool)
    | Abandon(client: nat)
    | Crash

  ghost predicate OnGeneration(s: System, g: string) {
    exists c :: c in s.flights && s.flights[c].batch.generation == g
  }

  ghost predicate OnOperation(s: System, c: nat, g: string, id: string) {
    c in s.flights && s.flights[c].batch.generation == g && s.flights[c].operation.interruptId == id
  }

  /**
   Only a granted client completes or suspends, and a generation is purged only while no client is in flight
   on it: Team destruction holds the chat lock that every turn of the Team holds.
   */
  ghost predicate Enabled(s: System, step: Step) {
    match step
    case Transact(c, e) =>
      && c !in s.flights
      && !e.call.CompleteCall? && !e.call.SuspendCall?
      && (e.call.PurgeCall? ==> !OnGeneration(s, e.call.generation))
    case FinishCompleted(c, _, _) => c in s.flights
    case FinishSuspended(c, _) => c in s.flights
    case Abandon(c) => c in s.flights
    case Crash => true
  }

  ghost function Next(config: Config, s: System, step: Step): System
    requires Enabled(s, step)
  {
    match step
    case Transact(c, e) =>
      System(
        Apply(config, s.tables, e),
        if e.call.BeginCall?
          && BeginTx(config, s.tables, e.usable, e.call.batch, e.call.operation).1 == Success(Execute)
        then s.flights[c := Flight(e.call.batch, e.call.operation)]
        else s.flights)
    case FinishCompleted(c, result, usable) =>
      var f := s.flights[c];
      System(Apply(config, s.tables, Event(CompleteCall(f.batch, f.operation, result), usable)), s.flights - {c})
    case FinishSuspended(c, usable) =>
      var f := s.flights[c];
      System(Apply(config, s.tables, Event(SuspendCall(f.batch, f.operation), usable)), s.flights - {c})
    case Abandon(c) => s.(flights := s.flights - {c})
    case Crash => s.(flights := map[])
  }

  ghost predicate SingleFlight(config: Config, s: System) {
    && TablesOk(config, s.tables)
    && (forall c :: c in s.flights ==>
         && s.flights[c].batch.generation in s.tables.batches
         && StateOf(s.tables, s.flights[c].batch.generation, s.flights[c].operation.interruptId) == Some(Executing))
    && forall c, d :: c in s.flights && d in s.flights
         && s.flights[c].batch.generation == s.flights[d].batch.generation
         && s.flights[c].operation.interruptId == s.flights[d].operation.interruptId
         ==> c == d
  }

  ghost predicate ValidRun(config: Config, s: System, steps: seq<Step>)
    decreases |steps|
  {
    steps != [] ==> Enabled(s, steps[0]) && ValidRun(config, Next(config, s, steps[0]), steps[1..])
  }

  ghost function RunSystem(config: Config, s: System, steps: seq<Step>): System
    requires ValidRun(config, s, steps)
    decreases |steps|
  {
    if steps == [] then s else RunSystem(config, Next(config, s, steps[0]), steps[1..])
  }

  /** The transaction a step commits, if it commits one. */
  ghost function EventOf(s: System, step: Step): Option<Event>
    requires Enabled(s, step)
  {
    match step
    case Transact(_, e) => Some(e)
    case FinishCompleted(c, result, usable) =>
      Some(Event(CompleteCall(s.flights[c].batch, s.flights[c].operation, result), usable))
    case FinishSuspended(c, usable) =>
      Some(Event(SuspendCall(s.flights[c].batch, s.flights[c].operation), usable))
    case _ => None
  }

  lemma TablesAfterStep(config: Config, s: System, step: Step)
    requires Enabled(s, step)
    ensures Next(config, s, step).tables
         == match EventOf(s, step) case None => s.tables case Some(e) => Apply(config, s.tables, e)
  {
  }

  /** An operation someone else may be executing keeps its state through a step of any other client. */
  lemma ExecutingStays(config: Config, s: System, step: Step, g: string, id: string)
    requires TablesOk(config, s.tables) && Enabled(s, step)
    requires g in s.tables.batches && StateOf(s.tables, g, id) == Some(Executing)
    requires step.FinishCompleted? || step.FinishSuspended? ==> !OnOperation(s, step.client, g, id)
    requires step.Transact? ==> step.event.call != PurgeCall(g)
    ensures g in Next(config, s, step).tables.batches
    ensures StateOf(Next(config, s, step).tables, g, id) == Some(Executing)
    ensures step.Transact? ==> !IsGrant(config, s.tables, step.event, g, id)
  {
    TablesAfterStep(config, s, step);
    if EventOf(s, step).Some? {
      var e := EventOf(s, step).value;
      TransactionView(config, s.tables, e, g, id);
      hide Apply, StateOf, TablesOk;
    }
  }

  lemma NewFlightIsExecuting(config: Config, s: System, e: Event, batch: Batch, op: Operation)
    requires TablesOk(config, s.tables) && e.call == BeginCall(batch, op)
    requires BeginTx(config, s.tables, e.usable, batch, op).1 == Success(Execute)
    ensures batch.generation in Apply(config, s.tables, e).batches
    ensures StateOf(s.tables, batch.generation, op.interruptId) == Some(Prepared)
    ensures StateOf(Apply(config, s.tables, e), batch.generation, op.interruptId) == Some(Executing)
  {
    assert IsGrant(config, s.tables, e, batch.generation, op.interruptId);
    RowOperation(config, s.tables, e);
    RowStates(config, s.tables, e, batch.generation, op.interruptId);
  }

  lemma StepKeepsTables(config: Config, s: System, step: Step)
    requires TablesOk(config, s.tables) && Enabled(s, step)
    ensures TablesOk(config, Next(config, s, step).tables)
  {
    TablesAfterStep(config, s, step);
    if EventOf(s, step).Some? {
      TransactionKeepsTables(config, s.tables, EventOf(s, step).value);
    }
  }

  /** A flight after a step was there before it, or has just been granted from `prepared`. */
  lemma FlightAfterStep(config: Config, s: System, step: Step, c: nat)
    requires SingleFlight(config, s) && Enabled(s, step) && c in Next(config, s, step).flights
    ensures var s' := Next(config, s, step);
            var f := s'.flights[c];
            && f.batch.generation in s'.tables.batches
            && StateOf(s'.tables, f.batch.generation, f.operation.interruptId) == Some(Executing)
            && (c in s.flights ==> f == s.flights[c])
            && (c !in s.flights ==>
                 && step.Transact? && c == step.client
                 && StateOf(s.tables, f.batch.generation, f.operation.interruptId) == Some(Prepared))
  {
    hide Apply, BeginTx, StateOf, TablesOk;
    if c in s.flights {
      ExecutingStays(config, s, step, s.flights[c].batch.generation, s.flights[c].operation.interruptId);
    } else {
      NewFlightIsExecuting(config, s, step.event, step.event.call.batch, step.event.call.operation);
    }
  }

  lemma StepKeepsSingleFlight(config: Config, s: System, step: Step)
    requires SingleFlight(config, s) && Enabled(s, step)
    ensures SingleFlight(config, Next(config, s, step))
  {
    var s' := Next(config, s, step);
    StepKeepsTables(config, s, step);
    forall c | c in s'.flights {
      FlightAfterStep(config, s, step, c);
    }
  }

  /** In every reachable state at most one client is between the grant and the outcome of an operation. */
  lemma {:induction false} AtMostOneClientPerOperation(config: Config, s: System, steps: seq<Step>)
    requires SingleFlight(config, s) && ValidRun(config, s, steps)
    ensures SingleFlight(config, RunSystem(config, s, steps))
    decreases |steps|
  {
    if steps != [] {
      StepKeepsSingleFlight(config, s, steps[0]);
      AtMostOneClientPerOperation(config, Next(config, s, steps[0]), steps[1..]);
    }
  }

  ghost predicate NoPurge(steps: seq<Step>, g: string) {
    forall i :: 0 <= i < |steps| && steps[i].Transact? && steps[i].event.call.PurgeCall? ==>
      steps[i].event.call.generation != g
  }

  /** An operation left executing by a client that no longer exists. */
  ghost predicate Lost(config: Config, s: System, g: string, id: string) {
    && SingleFlight(config, s)
    && g in s.tables.batches
    && StateOf(s.tables, g, id) == Some(Executing)
    && forall c :: !OnOperation(s, c, g, id)
  }

  lemma StepKeepsLost(config: Config, s: System, step: Step, g: string, id: string)
    requires Lost(config, s, g, id) && Enabled(s, step)
    requires step.Transact? ==> step.event.call != PurgeCall(g)
    ensures Lost(config, Next(config, s, step), g, id)
  {
    StepKeepsSingleFlight(config, s, step);
    ExecutingStays(config, s, step, g, id);
    var s' := Next(config, s, step);
    forall c | c in s'.flights
      ensures !OnOperation(s', c, g, id)
    {
      assert !OnOperation(s, c, g, id);
    }
  }

  /**
   After a crash (or an abandoned Power) while executing, the operation stays executing and is never granted
   to anyone again: only purging its generation can end that state.
   */
  lemma {:induction false} LostEffectIsNeverRepeated(
    config: Config, s: System, steps: seq<Step>, g: string, id: string)
    requires Lost(config, s, g, id) && ValidRun(config, s, steps) && NoPurge(steps, g)
    ensures Lost(config, RunSystem(config, s, steps), g, id)
    decreases |steps|
  {
    if steps != [] {
      StepKeepsLost(config, s, steps[0], g, id);
      LostEffectIsNeverRepeated(config, Next(config, s, steps[0]), steps[1..], g, id);
    }
  }

  /** A crash turns every executing operation into a lost one. */
  lemma CrashLosesEveryExecution(config: Config, s: System, g: string, id: string)
    requires SingleFlight(config, s) && StateOf(s.tables, g, id) == Some(Executing)
    ensures Lost(config, Next(config, s, Crash), g, id)
  {
    StepKeepsSingleFlight(config, s, Crash);
    assert g in s.tables.operations;
  }

  // ---------------------------------------------------------------- purging

  /** A purge succeeds exactly on a working database; then nothing of its generation is left, and the rest is. */
  lemma PurgeRemovesExactly(t: Tables, usable: bool, g: string)
    ensures var (after, r) := PurgeTx(t, usable, g);
            && (r.Success? <==> SafeId(g) && usable)
            && (r.Failure? ==> after == t)
            && (r.Success? ==>
                 && g !in after.batches && g !in after.operations
                 && (forall h :: h != g ==> (h in after.batches <==> h in t.batches))
                 && (forall h :: h != g ==> (h in after.operations <==> h in t.operations))
                 && (forall h :: h != g && h in t.batches ==> after.batches[h] == t.batches[h])
                 && (forall h :: h != g && h in t.operations ==> after.operations[h] == t.operations[h]))
  {
  }

  /** In a fresh batch each operation is granted to whoever asks first. */
  lemma FreshBatchGrants(config: Config, t: Tables, batch: Batch, k: nat)
    requires HandleOk(batch) && k < |batch.operations|
    ensures BeginTx(config, Insert(t, batch), true, batch, batch.operations[k]).1 == Success(Execute)
  {
    var after := Insert(t, batch);
    var rows := FreshRows(batch.operations);
    assert RowsOf(after, batch.generation) == rows;
    assert batch.operations[k] in batch.operations && SafeId(batch.operations[k].interruptId);
    assert rows[k].interruptId == batch.operations[k].interruptId;
    var i := RowIndex(rows, batch.operations[k].interruptId);
    assert rows[i].state == Prepared && rows[i].result.None?;
  }

  lemma MadeBatch(config: Config, g: string, thread: string, operations: seq<Operation>)
    requires MakeBatch(config, g, thread, operations).Success?
    ensures var batch := MakeBatch(config, g, thread, operations).value;
            batch == Batch(g, BatchDigest(g, thread, operations), operations) && HandleOk(batch)
  {
  }

  /**
   A purge is what ends a lost effect: its generation can then be prepared again, within the journal's capacity, and
   every operation of the new batch, the lost one included, is granted again.
   */
  lemma PurgeEndsLostEffect(
    config: Config, s: System, c: nat, g: string, id: string, thread: string, operations: seq<Operation>, k: nat)
    requires Lost(config, s, g, id) && SafeId(g)
    requires var purge := Transact(c, Event(PurgeCall(g), true)); Enabled(s, purge)
    requires MakeBatch(config, g, thread, operations).Success? && k < |operations|
    requires |s.tables.batches| <= config.maxGenerations
    ensures var purged := Next(config, s, Transact(c, Event(PurgeCall(g), true))).tables;
            var (prepared, r) := PrepareTx(config, purged, true, g, thread, operations);
            && StateOf(purged, g, id).None?
            && r.Success? && r.value.operations == operations
            && BeginTx(config, prepared, true, r.value, operations[k]).1 == Success(Execute)
  {
    hide SafeId, HandleOk, MakeBatch, SingleFlight, OnGeneration;
    var purged := Next(config, s, Transact(c, Event(PurgeCall(g), true))).tables;
    var batch := MakeBatch(config, g, thread, operations).value;
    PurgeRemovesExactly(s.tables, true, g);
    MadeBatch(config, g, thread, operations);
    assert purged.batches.Keys == s.tables.batches.Keys - {g};
    assert |purged.batches.Keys| == |s.tables.batches.Keys| - 1;
    FreshBatchGrants(config, purged, batch, k);
  }

  // ---------------------------------------------------------------- the rest of a stuck batch

  /** Operation `k` of the pending batch is executing and every operation before it has completed. */
  ghost predicate Stuck(t: Tables, g: string, k: nat) {
    && g in t.batches && g in t.operations
    && k < |t.operations[g]| && t.operations[g][k].state == Executing
    && forall j :: 0 <= j < k ==> t.operations[g][j].state == Completed
  }

  /** A client that works through a batch of `g` in order, as `PowerBatch` does: its handle and its next operation. */
  datatype Worker = Worker(batch: Batch, next: nat)

  datatype Workers = Workers(tables: Tables, byClient: map<nat, Worker>)

  /** `Prepare` starts a client on a batch, `Ask` is its next `begin`, `Other` is any transaction of somebody else. */
  datatype Work =
    | Prepare(client: nat, thread: string, operations: seq<Operation>, usable: bool)
    | Ask(client: nat, usable: bool)
    | Other(event: Event)

  /** Other transactions may prepare and deliver batches of `g`, but begin, end or purge nothing of it. */
  ghost predicate CanWork(s: Workers, g: string, step: Work) {
    match step
    case Prepare(c, _, _, _) => c !in s.byClient
    case Ask(c, _) => c in s.byClient && s.byClient[c].next < |s.byClient[c].batch.operations|
    case Other(e) =>
      && (IsRowCall(e) ==> e.call.batch.generation != g)
      && (e.call.PurgeCall? ==> e.call.generation != g)
  }

  ghost function Asked(config: Config, s: Workers, c: nat, usable: bool): (Tables, Result<Execution, JournalError>)
    requires c in s.byClient && s.byClient[c].next < |s.byClient[c].batch.operations|
  {
    var w := s.byClient[c];
    BeginTx(config, s.tables, usable, w.batch, w.batch.operations[w.next])
  }

  /** A cached result moves the client on; a refusal ends its work; a grant would start a Power. */
  ghost function Worked(config: Config, s: Workers, g: string, step: Work): Workers
    requires CanWork(s, g, step)
  {
    match step
    case Prepare(c, thread, operations, usable) =>
      var (t, r) := PrepareTx(config, s.tables, usable, g, thread, operations);
      Workers(t, if r.Success? then s.byClient[c := Worker(r.value, 0)] else s.byClient)
    case Ask(c, usable) =>
      var (t, r) := Asked(config, s, c, usable);
      Workers(t,
        if r.Success? && r.value.Cached? then s.byClient[c := s.byClient[c].(next := s.byClient[c].next + 1)]
        else s.byClient - {c})
    case Other(e) => s.(tables := Apply(config, s.tables, e))
  }

  ghost predicate StuckWork(s: Workers, g: string, k: nat) {
    && Stuck(s.tables, g, k)
    && forall c :: c in s.byClient ==>
         && s.byClient[c].batch.generation == g && HandleOk(s.byClient[c].batch) && s.byClient[c].next <= k
  }

  /** In a stuck batch, asking in order gives cached results up to the stuck operation and is refused there. */
  lemma AskingInOrder(config: Config, t: Tables, usable: bool, batch: Batch, g: string, k: nat, j: nat)
    requires Stuck(t, g, k) && batch.generation == g && HandleOk(batch) && j <= k && j < |batch.operations|
    ensures var (after, r) := BeginTx(config, t, usable, batch, batch.operations[j]);
            after == t && (r.Success? ==> r.value.Cached? && j < k)
  {
    hide Durable, SafeId;
    var located := Locate(t, usable, batch, batch.operations[j]);
    if located.Success? {
      assert batch.operations[located.value].interruptId == batch.operations[j].interruptId;
    }
  }

  lemma OthersLeaveGeneration(config: Config, t: Tables, e: Event, g: string, k: nat)
    requires Stuck(t, g, k)
    requires IsRowCall(e) ==> e.call.batch.generation != g
    requires e.call.PurgeCall? ==> e.call.generation != g
    ensures var after := Apply(config, t, e);
            && g in after.batches && after.batches[g] == t.batches[g]
            && g in after.operations && after.operations[g] == t.operations[g]
  {
    hide Durable, SafeId, HandleOk, Locate;
  }

  lemma WorkKeepsStuck(config: Config, s: Workers, g: string, k: nat, step: Work)
    requires StuckWork(s, g, k) && CanWork(s, g, step)
    ensures var after := Worked(config, s, g, step);
            && StuckWork(after, g, k)
            && after.tables.batches[g] == s.tables.batches[g] && after.tables.operations[g] == s.tables.operations[g]
            && (step.Ask? ==> Asked(config, s, step.client, step.usable).1 != Success(Execute))
  {
    hide HandleOk, Locate, Durable, SafeId, BeginTx;
    match step {
      case Prepare(_, _, _, _) =>
      case Ask(c, usable) => AskingInOrder(config, s.tables, usable, s.byClient[c].batch, g, k, s.byClient[c].next);
      case Other(e) => OthersLeaveGeneration(config, s.tables, e, g, k);
    }
  }

  ghost predicate ValidWork(config: Config, s: Workers, g: string, steps: seq<Work>)
    decreases |steps|
  {
    steps != [] ==> CanWork(s, g, steps[0]) && ValidWork(config, Worked(config, s, g, steps[0]), g, steps[1..])
  }

  ghost function AllWorked(config: Config, s: Workers, g: string, steps: seq<Work>): Workers
    requires ValidWork(config, s, g, steps)
    decreases |steps|
  {
    if steps == [] then s else AllWorked(config, Worked(config, s, g, steps[0]), g, steps[1..])
  }

  /** No step of the run grants anything in `g`. */
  ghost predicate NothingGranted(config: Config, s: Workers, g: string, steps: seq<Work>)
    requires ValidWork(config, s, g, steps)
    decreases |steps|
  {
    steps != [] ==>
      && (steps[0].Ask? ==> Asked(config, s, steps[0].client, steps[0].usable).1 != Success(Execute))
      && NothingGranted(config, Worked(config, s, g, steps[0]), g, steps[1..])
  }

  /**
   Once an effect of a batch may have been lost, every row of its generation stays as it is over any interleaving
   of clients that work in order, and none of them is granted anything.
   */
  lemma {:induction false} StuckBatchIsFrozen(config: Config, s: Workers, g: string, k: nat, steps: seq<Work>)
    requires StuckWork(s, g, k) && ValidWork(config, s, g, steps)
    ensures var after := AllWorked(config, s, g, steps);
            && StuckWork(after, g, k)
            && after.tables.batches[g] == s.tables.batches[g] && after.tables.operations[g] == s.tables.operations[g]
    ensures NothingGranted(config, s, g, steps)
    decreases |steps|
  {
    hide StuckWork, CanWork, Worked;
    StuckHasGeneration(s, g, k);
    if steps != [] {
      WorkKeepsStuck(config, s, g, k, steps[0]);
      StuckBatchIsFrozen(config, Worked(config, s, g, steps[0]), g, k, steps[1..]);
    }
  }

  lemma StuckHasGeneration(s: Workers, g: string, k: nat)
    requires StuckWork(s, g, k)
    ensures g in s.tables.batches && g in s.tables.operations
  {
  }

  /** The order matters: asked out of order, the journal still grants a later operation of the stuck batch. */
  lemma LaterOperationCouldBeGranted(config: Config, t: Tables, batch: Batch, k: nat, j: nat)
    requires Stuck(t, batch.generation, k) && HandleOk(batch) && LoadBatch(t, batch).Success?
    requires k < j < |batch.operations|
    requires t.operations[batch.generation][j].state == Prepared && t.operations[batch.generation][j].result.None?
    ensures BeginTx(config, t, true, batch, batch.operations[j]).1 == Success(Execute)
  {
    hide SafeId;
    var operation := batch.operations[j];
    assert operation in batch.operations;
    var rows := RowsOf(t, batch.generation);
    assert rows[j].interruptId == operation.interruptId;
    var i := RowIndex(rows, operation.interruptId);
    assert batch.operations[i].interruptId == operation.interruptId;
    assert SafeIds(batch.operations);
  }
}
