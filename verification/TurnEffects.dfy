/**
 What one segment of a turn may do to the outside world: which Powers it runs, on what input and with which
 answers, what it asks a human, and how soon a stop or a changed context ends it.
 */
module TurnEffects {
  import opened Wrappers
  import opened JsonTree
  import opened PowerJournal
  import opened ChatOrchestrator
  import opened PauseTransparency
  import Once = AtMostOnce
  import Text
  import Journal = JournalOutcomes

  // ---------------------------------------------------------------- what the Brain may answer

  /** The Brain's closed contract: a reply with nothing to run, or up to 64 named requests without a reply. */
  ghost predicate Contracted(turn: RuntimeTurn) {
    match turn.status
    case TurnCompleted => turn.powers == [] && !Text.Blank(turn.reply) && |turn.reply| <= 65536
    case PowerRequired =>
      turn.reply == "" && 1 <= |turn.powers| <= 64 &&
      forall request :: request in turn.powers ==>
        SafeId(request.interruptId) && PowerId(request.assistantId) && PowerId(request.power)
  }

  /** A turn is used exactly if it is what the Brain answered and within the contract. */
  lemma ReceivedIsExact(env: Env, sent: seq<Results>, turn: RuntimeTurn)
    ensures Received(env, sent) == Some(turn) <==> env.brain(sent) == Some(turn) && Contracted(turn)
  {
    hide SafeId, PowerId, Text.Blank;
    if Contracted(turn) {
      assert forall k :: 0 <= k < |turn.powers| ==> turn.powers[k] in turn.powers;
    }
  }

  // ---------------------------------------------------------------- what is run and asked

  /** One execution of a declared Power on validated input, with the answers of the segment, not to be paused before. */
  ghost predicate Justified(env: Env, seg: Segment, e: Executed) {
    && e.answers == AnswersFor(seg.answers, e.request.interruptId)
    && e.reply == env.power(e.request, e.answers)
    && env.preflight(e.request, e.answers)
    && exists powers: seq<PowerRequest> :: Admits(env, seg, powers, e.request)
  }

  /** The request is in a batch that the Brain asked for and the controller validated as a whole. */
  ghost predicate Admits(env: Env, seg: Segment, powers: seq<PowerRequest>, request: PowerRequest) {
    && ValidateBatch(env, powers).Some?
    && !seg.pauseBefore(ValidateBatch(env, powers).value)
    && request in ValidateBatch(env, powers).value
    && exists raw :: raw in powers && ValidatedFrom(env, raw, request)
  }

  /** The Brain's request, with its input replaced by what the validator made of it. */
  ghost predicate ValidatedFrom(env: Env, raw: PowerRequest, request: PowerRequest) {
    && (raw.assistantId, raw.power) in env.declared
    && env.validatePower(raw).Some?
    && request == raw.(input := env.validatePower(raw).value)
  }

  lemma BatchIsValidated(env: Env, seg: Segment, powers: seq<PowerRequest>, request: PowerRequest)
    requires ValidateBatch(env, powers).Some? && !seg.pauseBefore(ValidateBatch(env, powers).value)
    requires request in ValidateBatch(env, powers).value
    ensures Admits(env, seg, powers, request)
  {
    var batch := ValidateBatch(env, powers).value;
    var k :| 0 <= k < |batch| && batch[k] == request;
    assert powers[k] in powers && ValidatedFrom(env, powers[k], request);
  }

  /** Whatever the world already contains, plus justified executions. */
  ghost predicate Grows(env: Env, seg: Segment, before: seq<Executed>, after: seq<Executed>) {
    && before <= after
    && forall k :: |before| <= k < |after| ==> Justified(env, seg, after[k])
  }

  lemma GrowsTwice(env: Env, seg: Segment, a: seq<Executed>, b: seq<Executed>, c: seq<Executed>)
    requires Grows(env, seg, a, b) && Grows(env, seg, b, c)
    ensures Grows(env, seg, a, c)
  {
    hide Justified;
    forall k | |a| <= k < |c|
      ensures Justified(env, seg, c[k])
    {
      assert k < |b| ==> c[k] == b[k];
    }
  }

  /** An invocation runs the Power at most once; a suspension is what the Power just answered. */
  lemma InvokeRuns(env: Env, seg: Segment, batch: Batch, request: PowerRequest, w: World)
    ensures var (r, w') := Invoke(env, seg, batch, request, w);
            var answers := AnswersFor(seg.answers, request.interruptId);
            var execution := Executed(request, answers, env.power(request, answers));
            && (w'.executed == w.executed || w'.executed == w.executed + [execution])
            && (w'.executed != w.executed ==> env.preflight(request, answers))
            && (r.Success? && r.value.Suspended? ==>
                 w'.executed == w.executed + [execution] && execution.reply == Some(r.value))
  {
    hide BeginTx, CompleteTx, SuspendTx, Holds;
  }

  /** The last thing the segment did was to run the Power that now asks. */
  ghost predicate AsksItself(env: Env, seg: Segment, h: HumanInteraction, w: World) {
    var answers := AnswersFor(seg.answers, h.request.interruptId);
    && HumanKind(h.payload)
    && env.power(h.request, answers) == Some(Suspended(h.payload))
    && w.executed != [] && w.executed[|w.executed| - 1] == Executed(h.request, answers, Some(Suspended(h.payload)))
  }

  lemma {:induction false} InvokeAllRuns(
    env: Env, seg: Segment, powers: seq<PowerRequest>, batch: Batch, i: nat, results: Results, w: World)
    requires ValidateBatch(env, powers).Some? && !seg.pauseBefore(ValidateBatch(env, powers).value)
    requires i <= |ValidateBatch(env, powers).value|
    ensures var requests := ValidateBatch(env, powers).value;
            var (r, w') := InvokeAll(env, seg, batch, requests, i, results, w);
            && Grows(env, seg, w.executed, w'.executed)
            && (r.Interrupted? ==> r.interaction.request in requests && AsksItself(env, seg, r.interaction, w'))
    decreases |ValidateBatch(env, powers).value| - i
  {
    hide Invoke, ValidateBatch;
    var requests := ValidateBatch(env, powers).value;
    if i < |requests| {
      var w0 := w.(tick := w.tick + 2);
      InvokeRuns(env, seg, batch, requests[i], w0);
      BatchIsValidated(env, seg, powers, requests[i]);
      var (r, w1) := Invoke(env, seg, batch, requests[i], w0);
      assert Grows(env, seg, w.executed, w1.executed);
      if r.Success? && r.value.Returned? {
        var results' := results[requests[i].interruptId := r.value.value];
        InvokeAllRuns(env, seg, powers, batch, i + 1, results', w1);
        GrowsTwice(env, seg, w.executed, w1.executed, InvokeAll(env, seg, batch, requests, i + 1, results', w1).1.executed);
      }
    }
  }

  lemma NothingGrows(env: Env, seg: Segment, executed: seq<Executed>)
    ensures Grows(env, seg, executed, executed)
  {
  }

  lemma PrepareRunsNothing(env: Env, seg: Segment, requests: seq<PowerRequest>, w: World)
    ensures Prepare(env, seg, requests, w).1.executed == w.executed
  {
    hide PrepareTx;
  }

  lemma HandRunsNothing(
    env: Env, seg: Segment, p: Position, batch: Batch, requests: seq<PowerRequest>, results: Results, w: World)
    ensures Hand(env, seg, p, batch, requests, results, w).1.executed == w.executed
    ensures var handed := Hand(env, seg, p, batch, requests, results, w).0;
            handed.Success? ==> handed.value.round == p.round + 1
  {
    hide DeliverTx, Received;
  }

  /**
   Every Power a segment runs is declared, gets the input its validator returned and exactly the answers given so
   far, and belongs to a batch that was not to be paused before; a pause that asks is the last Power's own question.
   */
  lemma {:induction false} DriveRunsOnlyJustified(env: Env, seg: Segment, p: Position, w: World)
    ensures var (r, w') := Drive(env, seg, p, w);
            && Grows(env, seg, w.executed, w'.executed)
            && (r.Paused? && r.suspension.interaction.Some? ==> AsksItself(env, seg, r.suspension.interaction.value, w'))
            && (r.Paused? && r.suspension.interaction.None? ==> seg.pauseBefore(r.suspension.requests))
    decreases MAX_POWER_ROUNDS + 1 - p.round
  {
    hide Prepare, InvokeAll, Hand, ValidateBatch, IdsOf, Justified, AsksItself;
    NothingGrows(env, seg, w.executed);
    var valid := ValidateBatch(env, p.turn.powers);
    if p.round < MAX_POWER_ROUNDS && valid.Some? && !seg.pauseBefore(valid.value) {
      var requests := valid.value;
      var w0 := w.(tick := w.tick + 2);
      PrepareRunsNothing(env, seg, requests, w0);
      var (prepared, w1) := Prepare(env, seg, requests, w0);
      if prepared.Success? {
        InvokeAllRuns(env, seg, p.turn.powers, prepared.value, 0, map[], w1);
        var (progress, w2) := InvokeAll(env, seg, prepared.value, requests, 0, map[], w1);
        if progress.AllDone? {
          HandRunsNothing(env, seg, p, prepared.value, requests, progress.results, w2);
          var (handed, w3) := Hand(env, seg, p, prepared.value, requests, progress.results, w2);
          if handed.Success? {
            DriveRunsOnlyJustified(env, seg, handed.value, w3);
            GrowsTwice(env, seg, w.executed, w2.executed, Drive(env, seg, handed.value, w3).1.executed);
          }
        }
      }
    }
  }

  // ---------------------------------------------------------------- what an invocation does to the journal

  /** The world after a Power has run once. */
  function Ran(w: World, tables: Tables, execution: Executed, ticks: nat): World {
    w.(tables := tables, executed := w.executed + [execution], tick := w.tick + ticks)
  }

  /**
   One invocation, by the state of its operation: a prepared one is granted, run, and then recorded as completed or
   released; when its Power fails or its outcome cannot be recorded it stays executing. Nothing else runs anything.
   */
  lemma InvokeIsExact(env: Env, seg: Segment, batch: Batch, k: nat, request: PowerRequest, w: World)
    requires TablesOk(env.config, w.tables) && Journal.Pending(w.tables, batch) && k < |batch.operations|
    requires OperationOf(env, seg.answers, request) == Some(batch.operations[k])
    ensures var (r, w') := Invoke(env, seg, batch, request, w);
            var row := Journal.RowOf(w.tables, batch, k);
            var answers := AnswersFor(seg.answers, request.interruptId);
            var reply := env.power(request, answers);
            var execution := Executed(request, answers, reply);
            if !seg.sqlOk(w.tick) then (r, w') == (Failure(JournalFailed(Unavailable)), w.(tick := w.tick + 1))
            else if row.state == Executing then (r, w') == (Failure(JournalFailed(Uncertain)), w.(tick := w.tick + 1))
            else if row.state == Completed then (r, w') == (Success(Returned(row.result.value)), w.(tick := w.tick + 1))
            else if reply.None? then
              r == Failure(PowerFailed) && w' == Ran(w, w'.tables, execution, 1)
              && Journal.Rewritten(w.tables, w'.tables, batch, k, Executing, None)
            else
              && w' == Ran(w, w'.tables, execution, 2)
              && (if !seg.sqlOk(w.tick + 1) || (reply.value.Returned? && !Durable(env.config, reply.value.value))
                  then r.Failure? && Journal.Rewritten(w.tables, w'.tables, batch, k, Executing, None)
                  else if reply.value.Suspended? then r == Success(reply.value) && w'.tables == w.tables
                  else
                    r == Success(reply.value)
                    && Journal.Rewritten(w.tables, w'.tables, batch, k, Completed, Some(reply.value.value)))
  {
    hide BeginTx, CompleteTx, SuspendTx, HandleOk, TablesOk, Durable, OperationOf, RowsMatch;
    Journal.BeginIsExact(env.config, w.tables, seg.sqlOk(w.tick), batch, k);
    assert Holds(batch, batch.operations[k]);
    var (t, begun) := BeginTx(env.config, w.tables, seg.sqlOk(w.tick), batch, batch.operations[k]);
    if begun == Success(Execute) {
      StillPending(env.config, w.tables, t, batch, k, seg.sqlOk(w.tick));
      var reply := env.power(request, AnswersFor(seg.answers, request.interruptId));
      match reply {
        case None =>
        case Some(Suspended(_)) =>
          Journal.SuspensionIsExact(env.config, t, seg.sqlOk(w.tick + 1), batch, k);
          RewrittenBack(w.tables, t, SuspendTx(t, seg.sqlOk(w.tick + 1), batch, batch.operations[k]).0, batch, k);
        case Some(Returned(value)) =>
          Journal.DurableFits(env.config, value);
          Journal.CompletionIsExact(env.config, t, seg.sqlOk(w.tick + 1), batch, k, value);
          var after := CompleteTx(env.config, t, seg.sqlOk(w.tick + 1), batch, batch.operations[k], value).0;
          RewrittenTwice(w.tables, t, after, batch, k, value);
      }
    }
  }

  lemma StillPending(config: Config, t: Tables, after: Tables, batch: Batch, k: nat, usable: bool)
    requires TablesOk(config, t) && Journal.Pending(t, batch) && k < |batch.operations|
    requires BeginTx(config, t, usable, batch, batch.operations[k]) == (after, Success(Execute))
    ensures TablesOk(config, after) && Journal.Pending(after, batch) && Journal.RowOf(after, batch, k).state == Executing
    ensures Journal.Rewritten(t, after, batch, k, Executing, None)
    ensures Journal.RowOf(t, batch, k).state == Prepared && Journal.RowOf(t, batch, k).result.None?
  {
    Once.TransactionKeepsTables(config, t, Once.Event(Once.BeginCall(batch, batch.operations[k]), usable));
    Journal.BeginIsExact(config, t, usable, batch, k);
    Journal.RowIsInOrder(config, t, batch, k);
  }

  /** Prepared again after executing, the tables are what they were. */
  lemma RewrittenBack(t: Tables, started: Tables, after: Tables, batch: Batch, k: nat)
    requires Journal.Pending(t, batch) && k < |batch.operations|
    requires Journal.RowOf(t, batch, k).state == Prepared && Journal.RowOf(t, batch, k).result.None?
    requires Journal.Rewritten(t, started, batch, k, Executing, None) && Journal.Pending(started, batch)
    ensures Journal.Rewritten(started, after, batch, k, Prepared, None) ==> after == t
  {
    if Journal.Rewritten(started, after, batch, k, Prepared, None) {
      assert after.operations[batch.generation] == t.operations[batch.generation];
      assert after.operations == t.operations;
    }
  }

  lemma RewrittenTwice(t: Tables, started: Tables, after: Tables, batch: Batch, k: nat, value: Json)
    requires Journal.Pending(t, batch) && Journal.Pending(started, batch) && k < |batch.operations|
    requires Journal.Rewritten(t, started, batch, k, Executing, None)
    ensures Journal.Rewritten(started, after, batch, k, Completed, Some(value)) ==>
              Journal.Rewritten(t, after, batch, k, Completed, Some(value))
  {
  }

  // ---------------------------------------------------------------- acknowledging

  /**
   A batch is acknowledged last: only once the Brain has taken its results and asked for nothing it had asked for
   before. Until then the journal stays as it is, so a repeated turn is answered from it.
   */
  lemma HandAcknowledgesLast(
    env: Env, seg: Segment, p: Position, batch: Batch, requests: seq<PowerRequest>, results: Results, w: World)
    ensures var (r, w') := Hand(env, seg, p, batch, requests, results, w);
            var resumed := Received(env, w.sent + [results]);
            var taken := && seg.contextOk(w.tick) && resumed.Some?
              && (resumed.value.status == PowerRequired ==> (p.seen + IdsOf(requests)) * IdsOf(resumed.value.powers) == {});
            && w'.sent == (if seg.contextOk(w.tick) then w.sent + [results] else w.sent)
            && (!taken ==> r.Failure? && w'.tables == w.tables)
            && (taken ==> w'.tick == w.tick + 2)
            && (taken ==> w'.tables == DeliverTx(env.config, w.tables, seg.sqlOk(w.tick + 1), batch).0)
            && (r.Success? <==> taken && DeliverTx(env.config, w.tables, seg.sqlOk(w.tick + 1), batch).1.Success?)
            && (r.Success? ==>
                 r.value == Position(resumed.value, p.seen + IdsOf(requests), p.invoked + InvokedBy(requests), p.round + 1))
  {
    hide DeliverTx, Received, IdsOf, InvokedBy;
  }

  lemma DeliveredIsGone(
    env: Env, seg: Segment, p: Position, batch: Batch, requests: seq<PowerRequest>, results: Results, w: World)
    requires Hand(env, seg, p, batch, requests, results, w).0.Success?
    ensures batch.generation !in Hand(env, seg, p, batch, requests, results, w).1.tables.batches
  {
    hide Received, IdsOf, InvokedBy;
  }

  lemma PreparedIsOwn(env: Env, seg: Segment, requests: seq<PowerRequest>, w: World)
    ensures var (r, w') := Prepare(env, seg, requests, w);
            && (r.Success? ==> r.value.generation == env.generation && env.generation in w'.tables.batches)
            && (r.Failure? ==> r.error.JournalFailed? && w'.tables == w.tables)
  {
    hide OperationsOf;
  }

  lemma {:induction false} BatchKeepsPending(
    env: Env, seg: Segment, batch: Batch, requests: seq<PowerRequest>, i: nat, results: Results, w: World)
    requires i <= |requests|
    ensures var (r, w') := InvokeAll(env, seg, batch, requests, i, results, w);
            w'.tables.batches == w.tables.batches && (r.Broken? ==> r.error != BrainFailed)
    decreases |requests| - i
  {
    hide Invoke;
    if i < |requests| {
      var w0 := w.(tick := w.tick + 2);
      InvokeKeepsKeys(env, seg, batch, requests[i], w0);
      InvokeIsNotTheBrain(env, seg, batch, requests[i], w0);
      var (r, w1) := Invoke(env, seg, batch, requests[i], w0);
      if r.Success? && r.value.Returned? {
        BatchKeepsPending(env, seg, batch, requests, i + 1, results[requests[i].interruptId := r.value.value], w1);
      }
    }
  }

  lemma InvokeIsNotTheBrain(env: Env, seg: Segment, batch: Batch, request: PowerRequest, w: World)
    ensures Invoke(env, seg, batch, request, w).0 != Failure(BrainFailed)
  {
    hide BeginTx, CompleteTx, SuspendTx, Holds, OperationOf;
  }

  /**
   When the Brain fails, the batch whose results it did not take is still pending; and a pause before a batch leaves
   nothing of that batch in the journal.
   */
  lemma {:induction false} JournalAtTheEnd(env: Env, seg: Segment, p: Position, w: World)
    ensures var (r, w') := Drive(env, seg, p, w);
            && (r == Failed(BrainFailed) ==> env.generation in w'.tables.batches)
            && (r.Paused? && r.suspension.interaction.None? && env.generation !in w.tables.batches ==>
                 env.generation !in w'.tables.batches)
            && (r.Paused? && r.suspension.interaction.Some? ==> env.generation in w'.tables.batches)
    decreases MAX_POWER_ROUNDS + 1 - p.round
  {
    hide Prepare, InvokeAll, Hand, ValidateBatch, IdsOf, Received, AsContinuation;
    var valid := ValidateBatch(env, p.turn.powers);
    if p.round < MAX_POWER_ROUNDS && valid.Some? && !seg.pauseBefore(valid.value) {
      var requests := valid.value;
      var w0 := w.(tick := w.tick + 2);
      PreparedIsOwn(env, seg, requests, w0);
      var (prepared, w1) := Prepare(env, seg, requests, w0);
      if prepared.Success? {
        BatchKeepsPending(env, seg, prepared.value, requests, 0, map[], w1);
        var (progress, w2) := InvokeAll(env, seg, prepared.value, requests, 0, map[], w1);
        if progress.AllDone? {
          HandRunsNothing(env, seg, p, prepared.value, requests, progress.results, w2);
          var (handed, w3) := Hand(env, seg, p, prepared.value, requests, progress.results, w2);
          if handed.Success? {
            DeliveredIsGone(env, seg, p, prepared.value, requests, progress.results, w2);
            JournalAtTheEnd(env, seg, handed.value, w3);
          } else {
            BrainFailureKeepsTables(env, seg, p, prepared.value, requests, progress.results, w2);
          }
        }
      }
    }
  }

  lemma BrainFailureKeepsTables(
    env: Env, seg: Segment, p: Position, batch: Batch, requests: seq<PowerRequest>, results: Results, w: World)
    ensures var (r, w') := Hand(env, seg, p, batch, requests, results, w);
            r == Failure(BrainFailed) ==> w'.tables == w.tables
  {
    hide DeliverTx, Received, IdsOf, InvokedBy;
  }

  // ---------------------------------------------------------------- a stop, and a changed context

  ghost predicate StoppedFrom(seg: Segment, t: nat) {
    forall n :: n >= t ==> seg.cancelled(n)
  }

  ghost predicate ChangedFrom(seg: Segment, t: nat) {
    forall n :: n >= t ==> !seg.contextOk(n)
  }

  /** Ticks by which an invocation ends: one transaction before the Power, one after it. */
  lemma InvokeTicks(env: Env, seg: Segment, batch: Batch, request: PowerRequest, w: World)
    ensures w.tick <= Invoke(env, seg, batch, request, w).1.tick <= w.tick + 2
  {
    hide BeginTx, CompleteTx, SuspendTx, Holds;
  }

  function Later(a: nat, b: nat): nat {
    if a <= b then b else a
  }

  /** A batch is polled before each Power, so it ends with the Power that was past its poll. */
  lemma {:induction false} HaltEndsBatch(
    env: Env, seg: Segment, batch: Batch, requests: seq<PowerRequest>, i: nat, results: Results, w: World, t: nat)
    requires i <= |requests| && (StoppedFrom(seg, t) || ChangedFrom(seg, t))
    ensures var (r, w') := InvokeAll(env, seg, batch, requests, i, results, w);
            && w.tick <= w'.tick
            && (StoppedFrom(seg, t) ==> w'.tick <= Later(w.tick, t + 3))
            && (ChangedFrom(seg, t) ==> w'.tick <= Later(w.tick, t + 2))
            && (StoppedFrom(seg, t) && w.tick >= t && i < |requests| ==> (r, w') == (Broken(Stopped), w))
            && (ChangedFrom(seg, t) && w.tick + 1 >= t && i < |requests| ==> r.Broken? && w' == w)
    decreases |requests| - i
  {
    hide Invoke;
    if i < |requests| && !seg.cancelled(w.tick) && seg.contextOk(w.tick + 1) {
      var w0 := w.(tick := w.tick + 2);
      InvokeTicks(env, seg, batch, requests[i], w0);
      var (r, w1) := Invoke(env, seg, batch, requests[i], w0);
      if r.Success? && r.value.Returned? {
        HaltEndsBatch(env, seg, batch, requests, i + 1, results[requests[i].interruptId := r.value.value], w1, t);
      }
    }
  }

  lemma PrepareTicks(env: Env, seg: Segment, requests: seq<PowerRequest>, w: World)
    ensures var w' := Prepare(env, seg, requests, w).1;
            w.tick <= w'.tick <= w.tick + 1 && w'.sent == w.sent
  {
    hide PrepareTx;
  }

  lemma HandTicks(
    env: Env, seg: Segment, p: Position, batch: Batch, requests: seq<PowerRequest>, results: Results, w: World)
    ensures var (r, w') := Hand(env, seg, p, batch, requests, results, w);
            && w.tick <= w'.tick <= w.tick + 2
            && (!seg.contextOk(w.tick) ==> r.Failure? && w' == w)
  {
    hide DeliverTx, Received;
  }

  /**
   After a stop, or a change of context, that stays from tick `t` on: a segment that reaches its next poll does
   nothing more and does not finish, and every segment gets there within a few ticks.
   */
  lemma {:induction false} HaltEndsTurn(env: Env, seg: Segment, p: Position, w: World, t: nat)
    requires StoppedFrom(seg, t) || ChangedFrom(seg, t)
    ensures var (r, w') := Drive(env, seg, p, w);
            && w.tick <= w'.tick
            && (StoppedFrom(seg, t) ==> w'.tick <= Later(w.tick, t + 5) && (r.Finished? ==> w'.tick < t))
            && (ChangedFrom(seg, t) ==> w'.tick <= Later(w.tick, t + 2) && (r.Finished? ==> w'.tick + 1 < t))
            && (StoppedFrom(seg, t) && w.tick >= t && p.round <= MAX_POWER_ROUNDS ==> (r, w') == (Failed(Stopped), w))
            && (ChangedFrom(seg, t) && w.tick + 1 >= t ==> r.Failed? && w' == w)
    decreases MAX_POWER_ROUNDS + 1 - p.round
  {
    hide Prepare, InvokeAll, Hand, ValidateBatch, IdsOf;
    var valid := ValidateBatch(env, p.turn.powers);
    if p.round < MAX_POWER_ROUNDS && valid.Some? && !seg.cancelled(w.tick) && seg.contextOk(w.tick + 1) {
      var requests := valid.value;
      var w0 := w.(tick := w.tick + 2);
      PrepareTicks(env, seg, requests, w0);
      var (prepared, w1) := Prepare(env, seg, requests, w0);
      if prepared.Success? {
        HaltEndsBatch(env, seg, prepared.value, requests, 0, map[], w1, t);
        var (progress, w2) := InvokeAll(env, seg, prepared.value, requests, 0, map[], w1);
        if progress.AllDone? {
          HandTicks(env, seg, p, prepared.value, requests, progress.results, w2);
          HandRunsNothing(env, seg, p, prepared.value, requests, progress.results, w2);
          var (handed, w3) := Hand(env, seg, p, prepared.value, requests, progress.results, w2);
          if handed.Success? {
            HaltEndsTurn(env, seg, handed.value, w3, t);
          }
        }
      }
    }
  }

  /** A turn stopped before it starts never asks the Brain for anything to run. */
  lemma HaltedTurnNeverStarts(env: Env, seg: Segment, w: World)
    requires seg.cancelled(w.tick) || !seg.contextOk(w.tick + 1)
    ensures RunUntilPause(env, seg, w).0.Failed? && RunUntilPause(env, seg, w).1 == w
  {
    hide Drive, Received;
  }

  // ---------------------------------------------------------------- at most one more Power

  /** The same segment with a database that is gone from tick `t` on: nothing is granted from then on. */
  function CutOff(seg: Segment, t: nat): Segment {
    seg.(sqlOk := (n: nat) => n < t && seg.sqlOk(n))
  }

  lemma SamePolls(seg: Segment, t: nat)
    ensures CutOff(seg, t) == seg.(sqlOk := CutOff(seg, t).sqlOk)
  {
  }

  /** Two runs that have gone the same way, or both are past `t`, the first with at most one execution more. */
  ghost predicate OneMore(after: World, cut: World, t: nat) {
    && after.tick >= t
    && cut.executed <= after.executed && |after.executed| <= |cut.executed| + 1
  }

  lemma NothingWithoutDatabase(config: Config, batch: Batch, operation: Operation)
    ensures forall t :: BeginTx(config, t, false, batch, operation).1.Failure?
    ensures forall t :: SuspendTx(t, false, batch, operation).1.Failure?
    ensures forall t, result :: CompleteTx(config, t, false, batch, operation, result).1.Failure?
  {
  }

  lemma InvokeOneMore(env: Env, seg: Segment, batch: Batch, request: PowerRequest, w: World, t: nat)
    ensures var (r, after) := Invoke(env, seg, batch, request, w);
            var (r0, cut) := Invoke(env, CutOff(seg, t), batch, request, w);
            (r, after) == (r0, cut) || (r0.Failure? && OneMore(after, cut, t))
  {
    hide BeginTx, CompleteTx, SuspendTx, Holds, OperationOf;
    var operation := OperationOf(env, seg.answers, request);
    assert OperationOf(env, CutOff(seg, t).answers, request) == operation;
    if operation.Some? && Holds(batch, operation.value) {
      NothingWithoutDatabase(env.config, batch, operation.value);
      var (t1, begun) := BeginTx(env.config, w.tables, seg.sqlOk(w.tick), batch, operation.value);
      if w.tick >= t {
        assert BeginTx(env.config, w.tables, CutOff(seg, t).sqlOk(w.tick), batch, operation.value).1.Failure?;
      } else if begun == Success(Execute) && w.tick + 1 >= t {
        assert !CutOff(seg, t).sqlOk(w.tick + 1);
      }
    }
  }

  lemma {:induction false} BatchOneMore(
    env: Env, seg: Segment, batch: Batch, requests: seq<PowerRequest>, i: nat, results: Results, w: World, t: nat)
    requires i <= |requests| && StoppedFrom(seg, t)
    ensures var (r, after) := InvokeAll(env, seg, batch, requests, i, results, w);
            var (r0, cut) := InvokeAll(env, CutOff(seg, t), batch, requests, i, results, w);
            (r, after) == (r0, cut) || (r0.Broken? && OneMore(after, cut, t))
    decreases |requests| - i
  {
    hide Invoke;
    if i < |requests| && !seg.cancelled(w.tick) && seg.contextOk(w.tick + 1) {
      var w0 := w.(tick := w.tick + 2);
      InvokeOneMore(env, seg, batch, requests[i], w0, t);
      var (r, w1) := Invoke(env, seg, batch, requests[i], w0);
      if r.Success? && r.value.Returned? {
        var results' := results[requests[i].interruptId := r.value.value];
        HaltEndsBatch(env, seg, batch, requests, i + 1, results', w1, t);
        BatchOneMore(env, seg, batch, requests, i + 1, results', w1, t);
      }
    }
  }

  lemma PrepareOneMore(env: Env, seg: Segment, requests: seq<PowerRequest>, w: World, t: nat)
    ensures var (r, after) := Prepare(env, seg, requests, w);
            var (r0, cut) := Prepare(env, CutOff(seg, t), requests, w);
            (r, after) == (r0, cut) || (r0.Failure? && OneMore(after, cut, t))
  {
    hide OperationsOf;
    assert OperationsOf(env, CutOff(seg, t).answers, requests) == OperationsOf(env, seg.answers, requests);
  }

  lemma HandOneMore(
    env: Env, seg: Segment, p: Position, batch: Batch, requests: seq<PowerRequest>, results: Results, w: World, t: nat)
    ensures var (r, after) := Hand(env, seg, p, batch, requests, results, w);
            var (r0, cut) := Hand(env, CutOff(seg, t), p, batch, requests, results, w);
            (r, after) == (r0, cut) || (r0.Failure? && OneMore(after, cut, t))
  {
    hide Received;
  }

  /** One round of a turn, past the checks that run nothing. */
  lemma RoundOneMore(env: Env, seg: Segment, p: Position, requests: seq<PowerRequest>, w0: World, t: nat)
    requires StoppedFrom(seg, t) && Prepare(env, seg, requests, w0).0.Success?
    requires Prepare(env, CutOff(seg, t), requests, w0) == Prepare(env, seg, requests, w0)
    ensures var batch := Prepare(env, seg, requests, w0).0.value;
            var w1 := Prepare(env, seg, requests, w0).1;
            var (progress, w2) := InvokeAll(env, seg, batch, requests, 0, map[], w1);
            var (progress0, cut) := InvokeAll(env, CutOff(seg, t), batch, requests, 0, map[], w1);
            || (progress0.Broken? && OneMore(w2, cut, t))
            || ((progress, w2) == (progress0, cut)
                && (progress.AllDone? ==>
                      var (handed, w3) := Hand(env, seg, p, batch, requests, progress.results, w2);
                      var (handed0, cut) := Hand(env, CutOff(seg, t), p, batch, requests, progress.results, w2);
                      (handed, w3) == (handed0, cut) || (handed0.Failure? && OneMore(w3, cut, t))))
  {
    hide Prepare, InvokeAll, Hand;
    var (prepared, w1) := Prepare(env, seg, requests, w0);
    BatchOneMore(env, seg, prepared.value, requests, 0, map[], w1, t);
    var (progress, w2) := InvokeAll(env, seg, prepared.value, requests, 0, map[], w1);
    if progress.AllDone? {
      HandOneMore(env, seg, p, prepared.value, requests, progress.results, w2, t);
    }
  }

  /** Once a batch has ended past the stop, nothing runs any more. */
  lemma RestRunsNothing(
    env: Env, seg: Segment, p: Position, batch: Batch, requests: seq<PowerRequest>, results: Results, w: World, t: nat)
    requires StoppedFrom(seg, t) && w.tick >= t && p.round < MAX_POWER_ROUNDS
    requires Hand(env, seg, p, batch, requests, results, w).0.Success?
    ensures var (handed, w3) := Hand(env, seg, p, batch, requests, results, w);
            var after := Drive(env, seg, handed.value, w3).1;
            after.executed == w.executed && after.tick >= t
  {
    hide Hand, Drive;
    HandTicks(env, seg, p, batch, requests, results, w);
    HandRunsNothing(env, seg, p, batch, requests, results, w);
    var (handed, w3) := Hand(env, seg, p, batch, requests, results, w);
    HaltEndsTurn(env, seg, handed.value, w3, t);
  }

  /** After a stop that stays from tick `t` on, at most one Power runs beyond those granted before `t`. */
  lemma {:induction false} StopAllowsOneMore(env: Env, seg: Segment, p: Position, w: World, t: nat)
    requires StoppedFrom(seg, t)
    ensures var (r, after) := Drive(env, seg, p, w);
            var (r0, cut) := Drive(env, CutOff(seg, t), p, w);
            (r, after) == (r0, cut) || (r0.Failed? && OneMore(after, cut, t))
    decreases MAX_POWER_ROUNDS + 1 - p.round
  {
    hide Prepare, InvokeAll, Hand, ValidateBatch, IdsOf, AsContinuation;
    var valid := ValidateBatch(env, p.turn.powers);
    SamePolls(seg, t);
    hide CutOff;
    if p.round < MAX_POWER_ROUNDS && valid.Some? && !seg.cancelled(w.tick) && seg.contextOk(w.tick + 1) {
      var requests := valid.value;
      var w0 := w.(tick := w.tick + 2);
      PrepareOneMore(env, seg, requests, w0, t);
      PrepareRunsNothing(env, seg, requests, w0);
      var (prepared, w1) := Prepare(env, seg, requests, w0);
      if prepared.Success? && w1.tick >= t {
        HaltEndsBatch(env, seg, prepared.value, requests, 0, map[], w1, t);
      }
      if prepared.Success? && Prepare(env, CutOff(seg, t), requests, w0).0.Success? {
        RoundOneMore(env, seg, p, requests, w0, t);
        var (progress, w2) := InvokeAll(env, seg, prepared.value, requests, 0, map[], w1);
        if progress.AllDone? {
          HandTicks(env, seg, p, prepared.value, requests, progress.results, w2);
          HandRunsNothing(env, seg, p, prepared.value, requests, progress.results, w2);
          var (handed, w3) := Hand(env, seg, p, prepared.value, requests, progress.results, w2);
          if handed.Success? {
            StopAllowsOneMore(env, seg, handed.value, w3, t);
            if w2.tick >= t {
              RestRunsNothing(env, seg, p, prepared.value, requests, progress.results, w2, t);
            } else if w3.tick >= t {
              HaltEndsTurn(env, seg, handed.value, w3, t);
            }
          }
        }
      }
    }
  }
}
