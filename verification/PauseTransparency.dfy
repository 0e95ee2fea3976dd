/**
 Pausing is transparent: a turn paused any number of times, before or inside a batch, and continued with
 the human answers, ends like the turn that had every answer from the beginning and never paused.

 `Reference` is the turn with no journal, no pauses and no faults; both turns are compared with it.
 */
module PauseTransparency {
  import opened Wrappers
  import opened JsonTree
  import opened PowerJournal
  import opened ChatOrchestrator

  // ---------------------------------------------------------------- the reference turn

  /** With these answers the Power runs to a result that the journal can keep. */
  ghost predicate Resolves(env: Env, answers: Answers, request: PowerRequest) {
    && OperationOf(env, answers, request).Some?
    && var reply := env.power(request, AnswersFor(answers, request.interruptId));
       reply.Some? && reply.value.Returned? && Durable(env.config, reply.value.value)
  }

  ghost function ResultAt(env: Env, answers: Answers, request: PowerRequest): Json
    requires Resolves(env, answers, request)
  {
    env.power(request, AnswersFor(answers, request.interruptId)).value.value
  }

  ghost predicate AllResolve(env: Env, answers: Answers, requests: seq<PowerRequest>) {
    forall k :: 0 <= k < |requests| ==> Resolves(env, answers, requests[k])
  }

  ghost function ResultsOf(env: Env, answers: Answers, requests: seq<PowerRequest>): Results
    requires AllResolve(env, answers, requests)
  {
    if requests == [] then map[]
    else
      var last := requests[|requests| - 1];
      ResultsOf(env, answers, requests[..|requests| - 1])[last.interruptId := ResultAt(env, answers, last)]
  }

  /** The executions that produced the results of these requests, one per request, in order. */
  ghost function Entries(env: Env, answers: Answers, requests: seq<PowerRequest>): seq<Executed> {
    seq(|requests|, k requires 0 <= k < |requests| =>
      var answered := AnswersFor(answers, requests[k].interruptId);
      Executed(requests[k], answered, env.power(requests[k], answered)))
  }

  predicate Completes(e: Executed) {
    e.reply.Some? && e.reply.value.Returned?
  }

  /** The completing executions of a log, in order. */
  ghost function Completing(log: seq<Executed>): seq<Executed> {
    if log == [] then []
    else
      var last := log[|log| - 1];
      Completing(log[..|log| - 1]) + if Completes(last) then [last] else []
  }

  lemma CompletingAppend(log: seq<Executed>, e: Executed)
    ensures Completing(log + [e]) == Completing(log) + if Completes(e) then [e] else []
  {
  }

  ghost predicate CanPrepare(env: Env, answers: Answers, requests: seq<PowerRequest>) {
    && OperationsOf(env, answers, requests).Some?
    && MakeBatch(env.config, env.generation, env.thread, OperationsOf(env, answers, requests).value).Success?
  }

  datatype Ending = Ending(outcome: ChatOutcome, sent: seq<Results>, completed: seq<Executed>)

  ghost function Reference(env: Env, answers: Answers, p: Position, sent: seq<Results>, log: seq<Executed>)
    : Option<Ending>
    decreases MAX_POWER_ROUNDS + 1 - p.round
  {
    if p.round > MAX_POWER_ROUNDS then None
    else if p.turn.status == TurnCompleted then Some(Ending(ChatOutcome(p.turn.reply, p.invoked), sent, log))
    else if p.round == MAX_POWER_ROUNDS then None
    else
      var batch := ValidateBatch(env, p.turn.powers);
      if batch.None? || p.seen * IdsOf(batch.value) != {} then None
      else if !AllResolve(env, answers, batch.value) || !CanPrepare(env, answers, batch.value) then None
      else
        var sent' := sent + [ResultsOf(env, answers, batch.value)];
        var next := AfterBatch(env, p, batch.value, sent');
        if next.None? then None
        else Reference(env, answers, next.value, sent', log + Entries(env, answers, batch.value))
  }

  ghost function AfterBatch(env: Env, p: Position, requests: seq<PowerRequest>, sent: seq<Results>): (r: Option<Position>)
    ensures r.Some? ==> r.value.round == p.round + 1
  {
    var seen := p.seen + IdsOf(requests);
    match Received(env, sent)
    case None => None
    case Some(resumed) =>
      if resumed.status == PowerRequired && seen * IdsOf(resumed.powers) != {} then None
      else Some(Position(resumed, seen, p.invoked + InvokedBy(requests), p.round + 1))
  }

  // ---------------------------------------------------------------- the journal inside a batch

  /** The rows of a batch whose first `k` operations have completed and whose others have not started. */
  ghost function RowsAt(env: Env, answers: Answers, requests: seq<PowerRequest>, k: nat): seq<OperationRow>
    requires forall j :: 0 <= j < |requests| ==> env.fingerprint(requests[j]).Some?
    requires k <= |requests| && AllResolve(env, answers, requests[..k])
  {
    seq(|requests|, j requires 0 <= j < |requests| && env.fingerprint(requests[j]).Some? =>
      OperationRow(
        j,
        requests[j].interruptId,
        env.fingerprint(requests[j]).value,
        if j < k then Completed else Prepared,
        if j < k && Resolves(env, answers, requests[j]) then Some(ResultAt(env, answers, requests[j])) else None))
  }

  ghost function Committed(env: Env, requests: seq<PowerRequest>): seq<Operation>
    requires forall j :: 0 <= j < |requests| ==> env.fingerprint(requests[j]).Some?
  {
    seq(|requests|, j requires 0 <= j < |requests| && env.fingerprint(requests[j]).Some? =>
      Operation(requests[j].interruptId, env.fingerprint(requests[j]).value))
  }

  /** A batch is pending with exactly its first `k` operations completed; `base` completed before it. */
  ghost predicate Inside(env: Env, answers: Answers, requests: seq<PowerRequest>, w: World, base: seq<Executed>, k: nat) {
    && k <= |requests|
    && (forall j :: 0 <= j < |requests| ==> env.fingerprint(requests[j]).Some?)
    && AllResolve(env, answers, requests[..k])
    && env.generation in w.tables.batches
    && env.generation in w.tables.operations
    && w.tables.batches[env.generation]
       == BatchRow(BatchDigest(env.generation, env.thread, Committed(env, requests)), |requests|)
    && w.tables.operations[env.generation] == RowsAt(env, answers, requests, k)
    && Completing(w.executed) == base + Entries(env, answers, requests[..k])
  }

  ghost predicate Outside(env: Env, w: World, base: seq<Executed>) {
    env.generation !in w.tables.batches && Completing(w.executed) == base
  }

  /** Where a turn may be paused: no batch is pending, or the batch of the current turn is, `k` operations in. */
  ghost predicate AtPause(env: Env, answers: Answers, p: Position, w: World, base: seq<Executed>, k: nat) {
    || (k == 0 && Outside(env, w, base))
    || (&& ValidateBatch(env, p.turn.powers).Some?
        && p.turn.status == PowerRequired
        && Inside(env, answers, ValidateBatch(env, p.turn.powers).value, w, base, k))
  }

  /** The handle `prepare` returns for a batch. */
  ghost function HandleFor(env: Env, requests: seq<PowerRequest>): Batch
    requires forall j :: 0 <= j < |requests| ==> env.fingerprint(requests[j]).Some?
  {
    var operations := Committed(env, requests);
    Batch(env.generation, BatchDigest(env.generation, env.thread, operations), operations)
  }

  // ---------------------------------------------------------------- preparing

  /** A successful `prepare` leaves the batch of the turn pending, keeping what had already completed. */
  lemma PrepareEnters(env: Env, seg: Segment, p: Position, requests: seq<PowerRequest>, w: World, base: seq<Executed>, k: nat)
    requires ValidateBatch(env, p.turn.powers) == Some(requests)
    requires AtPause(env, seg.answers, p, w, base, k)
    requires Prepare(env, seg, requests, w).0.Success?
    ensures CanPrepare(env, seg.answers, requests)
    ensures Prepare(env, seg, requests, w).0.value == HandleFor(env, requests)
    ensures HandleOk(HandleFor(env, requests))
    ensures Inside(env, seg.answers, requests, Prepare(env, seg, requests, w).1, base, k)
    ensures Prepare(env, seg, requests, w).1.sent == w.sent
  {
  }

  /** With a fresh generation and room in the journal, an undisturbed `prepare` of a valid batch succeeds. */
  lemma PrepareSucceeds(env: Env, seg: Segment, requests: seq<PowerRequest>, w: World)
    requires CanPrepare(env, seg.answers, requests) && seg.sqlOk(w.tick)
    requires env.generation !in w.tables.batches && |w.tables.batches| < env.config.maxGenerations
    ensures Prepare(env, seg, requests, w).0.Success?
    ensures Prepare(env, seg, requests, w).1.tables.batches.Keys == w.tables.batches.Keys + {env.generation}
  {
  }

  // ---------------------------------------------------------------- invoking

  lemma LocateInside(
    env: Env, answers: Answers, requests: seq<PowerRequest>,
    w: World, base: seq<Executed>, k: nat, i: nat, usable: bool)
    requires Inside(env, answers, requests, w, base, k) && i < |requests|
    requires HandleOk(HandleFor(env, requests)) && RepeatsNoId(requests)
    ensures var batch := HandleFor(env, requests);
            Locate(w.tables, usable, batch, batch.operations[i]) == if usable then Success(i) else Failure(Unavailable)
  {
  }

  /** An already completed operation is answered from the journal: nothing runs and nothing changes. */
  lemma InvokeCompleted(env: Env, seg: Segment, requests: seq<PowerRequest>, i: nat, w: World, base: seq<Executed>, k: nat)
    requires Inside(env, seg.answers, requests, w, base, k) && i < k
    requires HandleOk(HandleFor(env, requests)) && RepeatsNoId(requests)
    ensures var (r, w') := Invoke(env, seg, HandleFor(env, requests), requests[i], w);
            && w'.tables == w.tables && w'.executed == w.executed && w'.sent == w.sent
            && (r.Success? ==> r.value == Returned(ResultAt(env, seg.answers, requests[..k][i])))
            && (seg.sqlOk(w.tick) ==> r.Success? && w'.tick == w.tick + 1)
  {
    var batch := HandleFor(env, requests);
    LocateInside(env, seg.answers, requests, w, base, k, i, seg.sqlOk(w.tick));
    assert Resolves(env, seg.answers, requests[..k][i]);
    assert OperationOf(env, seg.answers, requests[i]) == Some(batch.operations[i]);
    assert batch.operations[i] in batch.operations;
    assert RowsOf(w.tables, env.generation)[i].result == Some(ResultAt(env, seg.answers, requests[i]));
  }

  /** The tables while operation `k` is executing. */
  ghost function Running(env: Env, w: World, k: nat): Tables
    requires k < |RowsOf(w.tables, env.generation)|
  {
    var rows := RowsOf(w.tables, env.generation);
    WithRow(w.tables, env.generation, rows, k, rows[k].(state := Executing))
  }

  lemma BeginNext(env: Env, answers: Answers, requests: seq<PowerRequest>, w: World, base: seq<Executed>, k: nat)
    requires Inside(env, answers, requests, w, base, k) && k < |requests|
    requires HandleOk(HandleFor(env, requests)) && RepeatsNoId(requests)
    ensures var batch := HandleFor(env, requests);
            BeginTx(env.config, w.tables, true, batch, batch.operations[k]) == (Running(env, w, k), Success(Execute))
  {
  }

  lemma LocateExecuting(
    env: Env, answers: Answers, requests: seq<PowerRequest>,
    w: World, base: seq<Executed>, k: nat, usable: bool)
    requires Inside(env, answers, requests, w, base, k) && k < |requests|
    requires HandleOk(HandleFor(env, requests)) && RepeatsNoId(requests)
    ensures var batch := HandleFor(env, requests);
            Locate(Running(env, w, k), usable, batch, batch.operations[k])
            == if usable then Success(k) else Failure(Unavailable)
  {
  }

  /** Suspending the running operation restores the tables from before its grant. */
  lemma SuspendNext(
    env: Env, answers: Answers, requests: seq<PowerRequest>,
    w: World, base: seq<Executed>, k: nat, usable: bool)
    requires Inside(env, answers, requests, w, base, k) && k < |requests|
    requires HandleOk(HandleFor(env, requests)) && RepeatsNoId(requests)
    ensures var batch := HandleFor(env, requests);
            SuspendTx(Running(env, w, k), usable, batch, batch.operations[k])
            == if usable then (w.tables, Success(())) else (Running(env, w, k), Failure(Unavailable))
  {
    LocateExecuting(env, answers, requests, w, base, k, usable);
    var rows := RowsOf(w.tables, env.generation);
    assert rows == RowsAt(env, answers, requests, k);
    var rows1 := RowsOf(Running(env, w, k), env.generation);
    assert rows1[k := rows1[k].(state := Prepared)] == rows;
    assert w.tables.operations[env.generation := rows] == w.tables.operations;
    assert Running(env, w, k).operations[env.generation := rows] == w.tables.operations;
  }

  lemma CompleteNext(
    env: Env, answers: Answers, requests: seq<PowerRequest>,
    w: World, base: seq<Executed>, k: nat, usable: bool, value: Json)
    requires Inside(env, answers, requests, w, base, k) && k < |requests|
    requires HandleOk(HandleFor(env, requests)) && RepeatsNoId(requests)
    ensures var batch := HandleFor(env, requests);
            var rows := RowsOf(w.tables, env.generation);
            var done := rows[k].(state := Completed, result := Some(value));
            var (t, r) := CompleteTx(env.config, Running(env, w, k), usable, batch, batch.operations[k], value);
            && (r.Success? <==> usable && Durable(env.config, value))
            && t.batches == w.tables.batches
            && (r.Success? ==> t.operations == w.tables.operations[env.generation := rows[k := done]])
  {
    LocateExecuting(env, answers, requests, w, base, k, usable);
    var rows := RowsOf(w.tables, env.generation);
    assert rows == RowsAt(env, answers, requests, k);
    var rows1 := RowsOf(Running(env, w, k), env.generation);
    assert rows1[k := rows1[k].(state := Completed, result := Some(value))]
        == rows[k := rows[k].(state := Completed, result := Some(value))];
  }

  lemma InsideAdvances(
    env: Env, answers: Answers, requests: seq<PowerRequest>,
    w: World, w': World, base: seq<Executed>, k: nat)
    requires Inside(env, answers, requests, w, base, k) && k < |requests|
    requires Resolves(env, answers, requests[k])
    requires w'.tables.batches == w.tables.batches
    requires var rows := w.tables.operations[env.generation];
             w'.tables.operations == w.tables.operations[env.generation :=
               rows[k := rows[k].(state := Completed, result := Some(ResultAt(env, answers, requests[k])))]]
    requires w'.executed == w.executed + Entries(env, answers, [requests[k]])
    ensures Inside(env, answers, requests, w', base, k + 1)
  {
  }

  /** The next operation runs once: it completes, or is suspended and may run again, or the segment fails. */
  lemma InvokeNext(env: Env, seg: Segment, requests: seq<PowerRequest>, w: World, base: seq<Executed>, k: nat)
    requires Inside(env, seg.answers, requests, w, base, k) && k < |requests|
    requires HandleOk(HandleFor(env, requests)) && RepeatsNoId(requests)
    ensures var (r, w') := Invoke(env, seg, HandleFor(env, requests), requests[k], w);
            && w'.sent == w.sent
            && (r.Success? && r.value.Suspended? ==> Inside(env, seg.answers, requests, w', base, k))
            && (r.Success? && r.value.Returned? ==>
                 && Resolves(env, seg.answers, requests[k])
                 && r.value.value == ResultAt(env, seg.answers, requests[k])
                 && Inside(env, seg.answers, requests, w', base, k + 1))
            && (Resolves(env, seg.answers, requests[k]) && seg.sqlOk(w.tick) && seg.sqlOk(w.tick + 1) ==>
                 && r.Success? && r.value.Returned?
                 && w'.executed == w.executed + Entries(env, seg.answers, [requests[k]]))
  {
    hide Locate, SuspendTx, CompleteTx, HandleOk, RepeatsNoId, AllResolve, Durable;
    var batch := HandleFor(env, requests);
    var operation := batch.operations[k];
    var answers := AnswersFor(seg.answers, requests[k].interruptId);
    var e := Executed(requests[k], answers, env.power(requests[k], answers));
    assert operation in batch.operations;
    if OperationOf(env, seg.answers, requests[k]).Some? {
      assert OperationOf(env, seg.answers, requests[k]) == Some(operation);
      if seg.sqlOk(w.tick) {
        BeginNext(env, seg.answers, requests, w, base, k);
        CompletingAppend(w.executed, e);
        SuspendNext(env, seg.answers, requests, w, base, k, seg.sqlOk(w.tick + 1));
        if e.reply.Some? && e.reply.value.Returned? {
          CompleteNext(env, seg.answers, requests, w, base, k, seg.sqlOk(w.tick + 1), e.reply.value.value);
          assert Entries(env, seg.answers, [requests[k]]) == [e];
          if Durable(env.config, e.reply.value.value) && seg.sqlOk(w.tick + 1) {
            InsideAdvances(env, seg.answers, requests, w,
              Invoke(env, seg, batch, requests[k], w).1, base, k);
          }
        }
      } else {
        LocateInside(env, seg.answers, requests, w, base, k, k, false);
      }
    }
  }

  /** All operations of a prepared batch from `i` on; the first `k` of them are already in the journal. */
  lemma {:induction false} InvokeAllKeeps(
    env: Env, seg: Segment, requests: seq<PowerRequest>, i: nat, results: Results, w: World, base: seq<Executed>, k: nat)
    returns (k': nat)
    requires Inside(env, seg.answers, requests, w, base, k) && i <= k
    requires HandleOk(HandleFor(env, requests)) && RepeatsNoId(requests)
    requires AllResolve(env, seg.answers, requests[..i]) && results == ResultsOf(env, seg.answers, requests[..i])
    ensures var (progress, w') := InvokeAll(env, seg, HandleFor(env, requests), requests, i, results, w);
            && w'.sent == w.sent
            && (progress.AllDone? ==>
                 && k' == |requests|
                 && Inside(env, seg.answers, requests, w', base, k')
                 && AllResolve(env, seg.answers, requests)
                 && progress.results == ResultsOf(env, seg.answers, requests))
            && (progress.Interrupted? ==>
                 && k <= k' < |requests|
                 && requests[k'] == progress.interaction.request
                 && Inside(env, seg.answers, requests, w', base, k'))
    decreases |requests| - i
  {
    hide Invoke, HandleOk, Durable;
    k' := k;
    if i == |requests| {
      assert requests[..i] == requests;
    } else if !seg.cancelled(w.tick) && seg.contextOk(w.tick + 1) {
      var w0 := w.(tick := w.tick + 2);
      assert Inside(env, seg.answers, requests, w0, base, k);
      var (r, w1) := Invoke(env, seg, HandleFor(env, requests), requests[i], w0);
      if i < k {
        InvokeCompleted(env, seg, requests, i, w0, base, k);
        assert Resolves(env, seg.answers, requests[..k][i]);
      } else {
        InvokeNext(env, seg, requests, w0, base, k);
      }
      if r.Success? && r.value.Returned? {
        assert requests[..i + 1][..i] == requests[..i];
        k' := InvokeAllKeeps(env, seg, requests, i + 1, results[requests[i].interruptId := r.value.value], w1, base,
                             if i < k then k else k + 1);
      }
    }
  }

  // ---------------------------------------------------------------- handing the results over

  /** A delivered batch leaves the journal; its executions join the completed ones. */
  lemma HandLeaves(env: Env, seg: Segment, p: Position, requests: seq<PowerRequest>, w: World, base: seq<Executed>)
    requires Inside(env, seg.answers, requests, w, base, |requests|)
    requires HandleOk(HandleFor(env, requests))
    requires AllResolve(env, seg.answers, requests)
    ensures var results := ResultsOf(env, seg.answers, requests);
            var sent := w.sent + [results];
            var (r, w') := Hand(env, seg, p, HandleFor(env, requests), requests, results, w);
            && (r.Success? ==>
                 && AfterBatch(env, p, requests, sent) == Some(r.value)
                 && w'.sent == sent
                 && Outside(env, w', base + Entries(env, seg.answers, requests)))
            && (AfterBatch(env, p, requests, sent).Some? && seg.contextOk(w.tick) && seg.sqlOk(w.tick + 1) ==>
                 && r.Success?
                 && w'.executed == w.executed
                 && w'.tables.batches.Keys == w.tables.batches.Keys - {env.generation})
  {
    hide Durable, HandleOk;
    var batch := HandleFor(env, requests);
    assert requests[..|requests|] == requests;
    DeliverInside(env, seg.answers, requests, w, base, seg.sqlOk(w.tick + 1));
  }

  lemma DeliverInside(env: Env, answers: Answers, requests: seq<PowerRequest>, w: World, base: seq<Executed>, usable: bool)
    requires Inside(env, answers, requests, w, base, |requests|)
    requires HandleOk(HandleFor(env, requests))
    requires AllResolve(env, answers, requests)
    ensures DeliverTx(env.config, w.tables, usable, HandleFor(env, requests))
         == if usable then (Delete(w.tables, env.generation), Success(())) else (w.tables, Failure(Unavailable))
  {
  }

  // ---------------------------------------------------------------- one segment

  ghost predicate AgreesOn(a: Answers, b: Answers, ids: set<string>) {
    forall id :: id in ids ==> AnswersFor(a, id) == AnswersFor(b, id)
  }

  /** Interrupts whose answers can no longer change: the delivered ones and the completed prefix. */
  ghost function Frozen(env: Env, p: Position, k: nat): set<string> {
    var batch := ValidateBatch(env, p.turn.powers);
    p.seen + if batch.Some? && k <= |batch.value| then IdsOf(batch.value[..k]) else {}
  }

  lemma {:induction false} AgreementCarries(env: Env, a: Answers, b: Answers, requests: seq<PowerRequest>)
    requires AgreesOn(a, b, IdsOf(requests))
    ensures AllResolve(env, a, requests) <==> AllResolve(env, b, requests)
    ensures AllResolve(env, a, requests) ==> ResultsOf(env, a, requests) == ResultsOf(env, b, requests)
    ensures Entries(env, a, requests) == Entries(env, b, requests)
    ensures CanPrepare(env, a, requests) <==> CanPrepare(env, b, requests)
    ensures forall j :: 0 <= j < |requests| ==> Resolves(env, a, requests[j]) == Resolves(env, b, requests[j])
  {
    forall j | 0 <= j < |requests|
      ensures AnswersFor(a, requests[j].interruptId) == AnswersFor(b, requests[j].interruptId)
      ensures OperationOf(env, a, requests[j]) == OperationOf(env, b, requests[j])
    {
      assert requests[j].interruptId in IdsOf(requests);
    }
    var opsA, opsB := OperationsOf(env, a, requests), OperationsOf(env, b, requests);
    assert opsA.Some? && opsB.Some? ==> opsA.value == opsB.value;
    if requests != [] {
      var init := requests[..|requests| - 1];
      assert forall id :: id in IdsOf(init) ==> id in IdsOf(requests);
      AgreementCarries(env, a, b, init);
    }
  }

  /** One round up to the hand-over: it breaks, pauses with the same position, or gives the reference results. */
  lemma RoundKeeps(env: Env, seg: Segment, p: Position, requests: seq<PowerRequest>, w: World, base: seq<Executed>, k: nat)
    returns (k': nat)
    requires ValidateBatch(env, p.turn.powers) == Some(requests)
    requires AtPause(env, seg.answers, p, w, base, k)
    requires Prepare(env, seg, requests, w).0.Success?
    ensures CanPrepare(env, seg.answers, requests)
    ensures forall j :: 0 <= j < |requests| ==> env.fingerprint(requests[j]).Some?
    ensures var batch := HandleFor(env, requests);
            var (prepared, w1) := Prepare(env, seg, requests, w);
            var (progress, w2) := InvokeAll(env, seg, batch, requests, 0, map[], w1);
            && prepared == Success(batch)
            && HandleOk(batch)
            && w2.sent == w.sent
            && (progress.Interrupted? ==>
                 && k <= k' < |requests|
                 && requests[k'] == progress.interaction.request
                 && Inside(env, seg.answers, requests, w2, base, k'))
            && (progress.AllDone? ==>
                 && Inside(env, seg.answers, requests, w2, base, |requests|)
                 && k <= |requests|
                 && AllResolve(env, seg.answers, requests)
                 && progress.results == ResultsOf(env, seg.answers, requests))
  {
    hide InvokeAll, Prepare, HandleOk, AllResolve, Durable, CanPrepare;
    PrepareEnters(env, seg, p, requests, w, base, k);
    assert requests[..0] == [];
    NothingToResolve(env, seg.answers);
    k' := InvokeAllKeeps(env, seg, requests, 0, map[], Prepare(env, seg, requests, w).1, base, k);
  }

  /**
   What one segment owes: if it finishes, the reference turn with its answers ends the same; if it pauses,
   the reference turn continues from the pause as it would have from the start of the segment.
   */
  ghost predicate SegmentKept(
    env: Env, answers: Answers, p: Position, w: World, base: seq<Executed>, k: nat, final: Answers,
    r: DriveResult, w': World, base': seq<Executed>, k': nat)
  {
    && (r.Finished? ==>
         Reference(env, answers, p, w.sent, base) == Some(Ending(r.outcome, w'.sent, Completing(w'.executed))))
    && (r.Paused? ==>
         var p' := AsPosition(r.suspension.continuation);
         && AtPause(env, answers, p', w', base', k')
         && Frozen(env, p, k) <= Frozen(env, p', k')
         && SuspendsUnfrozen(env, r.suspension, k')
         && (AgreesOn(final, answers, Frozen(env, p', k')) ==>
              Reference(env, final, p, w.sent, base) == Reference(env, final, p', w'.sent, base')))
  }

  lemma ReferenceStep(
    env: Env, answers: Answers, p: Position, requests: seq<PowerRequest>,
    sent: seq<Results>, log: seq<Executed>)
    requires p.round < MAX_POWER_ROUNDS && p.turn.status == PowerRequired
    requires ValidateBatch(env, p.turn.powers) == Some(requests) && p.seen * IdsOf(requests) == {}
    requires AllResolve(env, answers, requests) && CanPrepare(env, answers, requests)
    ensures var sent' := sent + [ResultsOf(env, answers, requests)];
            var next := AfterBatch(env, p, requests, sent');
            next.Some? ==>
              Reference(env, answers, p, sent, log)
              == Reference(env, answers, next.value, sent', log + Entries(env, answers, requests))
  {
  }

  /** A completed round in front of a kept segment. */
  lemma RoundChains(
    env: Env, answers: Answers, p: Position, requests: seq<PowerRequest>, w: World, base: seq<Executed>, k: nat,
    final: Answers, next: Position, w1: World, r: DriveResult, w': World, base': seq<Executed>, k': nat)
    requires p.round < MAX_POWER_ROUNDS && p.turn.status == PowerRequired && k <= |requests|
    requires ValidateBatch(env, p.turn.powers) == Some(requests) && p.seen * IdsOf(requests) == {}
    requires AllResolve(env, answers, requests) && CanPrepare(env, answers, requests)
    requires w1.sent == w.sent + [ResultsOf(env, answers, requests)]
    requires AfterBatch(env, p, requests, w1.sent) == Some(next)
    requires SegmentKept(env, answers, next, w1, base + Entries(env, answers, requests), 0, final, r, w', base', k')
    ensures SegmentKept(env, answers, p, w, base, k, final, r, w', base', k')
  {
    hide AllResolve, CanPrepare, ValidateBatch, AtPause, Reference, SuspendsUnfrozen, IdsOf;
    PrefixGrows(requests, k, |requests|);
    ReferenceStep(env, answers, p, requests, w.sent, base);
    if r.Paused? {
      var frozen := Frozen(env, AsPosition(r.suspension.continuation), k');
      assert next.seen <= Frozen(env, next, 0) <= frozen;
      if AgreesOn(final, answers, frozen) {
        AgreementCarries(env, final, answers, requests);
        ReferenceStep(env, final, p, requests, w.sent, base);
      }
    }
  }

  /** A segment that stops at the position it started from, `k'` operations into the batch. */
  lemma StoppingKept(
    env: Env, answers: Answers, p: Position, w: World, base: seq<Executed>, k: nat, final: Answers,
    r: DriveResult, w': World, k': nat)
    requires r.Paused? ==>
      && r.suspension.continuation == AsContinuation(p)
      && w'.sent == w.sent
      && AtPause(env, answers, p, w', base, k') && k <= k'
      && Some(r.suspension.requests) == ValidateBatch(env, p.turn.powers)
      && p.seen * IdsOf(r.suspension.requests) == {}
      && (r.suspension.interaction.Some? ==>
           && k' < |r.suspension.requests|
           && r.suspension.requests[k'] == r.suspension.interaction.value.request)
    requires r.Finished? ==>
      && p.turn.status == TurnCompleted && p.round <= MAX_POWER_ROUNDS
      && r.outcome == ChatOutcome(p.turn.reply, p.invoked)
      && w' == w && AtPause(env, answers, p, w, base, k)
    ensures SegmentKept(env, answers, p, w, base, k, final, r, w', base, k')
  {
    hide ValidateBatch;
    ContinuationKeepsPosition(p);
    if r.Paused? {
      PrefixGrows(r.suspension.requests, k, k');
    }
  }

  lemma {:induction false} DriveKeeps(
    env: Env, seg: Segment, p: Position, w: World, base: seq<Executed>, k: nat, final: Answers)
    returns (base': seq<Executed>, k': nat)
    requires AtPause(env, seg.answers, p, w, base, k)
    ensures SegmentKept(env, seg.answers, p, w, base, k, final,
                        Drive(env, seg, p, w).0, Drive(env, seg, p, w).1, base', k')
    decreases MAX_POWER_ROUNDS + 1 - p.round
  {
    hide InvokeAll, Prepare, Hand, HandleOk, Inside, AllResolve, Durable, CanPrepare, HandleFor, Received, AfterBatch,
      SegmentKept, ValidateBatch, Reference, AsContinuation, IdsOf;
    base', k' := base, k;
    var (result, end) := Drive(env, seg, p, w);
    var batch := ValidateBatch(env, p.turn.powers);
    if p.round < MAX_POWER_ROUNDS && !seg.cancelled(w.tick) && p.turn.status == PowerRequired
      && seg.contextOk(w.tick + 1) && batch.Some? && p.seen * IdsOf(batch.value) == {} && !seg.pauseBefore(batch.value)
    {
      var requests := batch.value;
      var w0 := w.(tick := w.tick + 2);
      PauseIgnoresTick(env, seg.answers, p, w, w0, base, k);
      if Prepare(env, seg, requests, w0).0.Success? {
        k' := RoundKeeps(env, seg, p, requests, w0, base, k);
        var w1 := Prepare(env, seg, requests, w0).1;
        var (progress, w2) := InvokeAll(env, seg, HandleFor(env, requests), requests, 0, map[], w1);
        if progress.AllDone? {
          HandLeaves(env, seg, p, requests, w2, base);
          var (handed, w3) := Hand(env, seg, p, HandleFor(env, requests), requests, progress.results, w2);
          if handed.Success? {
            base', k' := DriveKeeps(env, seg, handed.value, w3, base + Entries(env, seg.answers, requests), 0, final);
            RoundChains(env, seg.answers, p, requests, w, base, k, final, handed.value, w3, result, end, base', k');
            return;
          }
        }
      }
    }
    StoppingKept(env, seg.answers, p, w, base, k, final, result, end, k');
  }

  lemma NothingToResolve(env: Env, answers: Answers)
    ensures AllResolve(env, answers, []) && ResultsOf(env, answers, []) == map[]
  {
  }

  lemma PauseIgnoresTick(env: Env, answers: Answers, p: Position, w: World, w': World, base: seq<Executed>, k: nat)
    requires AtPause(env, answers, p, w, base, k)
    requires w'.tables == w.tables && w'.executed == w.executed
    ensures AtPause(env, answers, p, w', base, k)
  {
  }

  lemma PrefixGrows(requests: seq<PowerRequest>, k: nat, k': nat)
    requires k <= k' <= |requests|
    ensures IdsOf(requests[..k]) <= IdsOf(requests[..k']) <= IdsOf(requests)
  {
  }

  /** A suspension asks about the first operation that has not completed, never about a frozen one. */
  ghost predicate SuspendsUnfrozen(env: Env, s: ChatSuspension, k: nat) {
    var p := AsPosition(s.continuation);
    s.interaction.Some? ==>
      && ValidateBatch(env, p.turn.powers) == Some(s.requests)
      && k < |s.requests| && s.requests[k] == s.interaction.value.request
      && p.seen * IdsOf(s.requests) == {}
  }

  // ---------------------------------------------------------------- whole turns

  /**
   One continuation of a paused turn: the human answer (used when a Power asked for one), the conditions of
   the new segment, and the journal as other Teams left it meanwhile. Everything else the controller held in
   memory may have been lost in a crash: only the continuation, the answers and the journal are used.
   */
  datatype Resumption = Resumption(answer: Json, conditions: Segment, others: Tables)

  datatype TurnEnd = TurnEnd(result: DriveResult, world: World, answers: Answers)

  /** The answer is appended to the log of the Power that asked; a pause before a batch asks nothing. */
  function Answered(answers: Answers, s: ChatSuspension, answer: Json): Answers {
    match s.interaction
    case None => answers
    case Some(h) =>
      var id := h.request.interruptId;
      answers[id := AnswersFor(answers, id) + [answer]]
  }

  function Elsewhere(env: Env, t: Tables, others: Tables): Tables {
    var g := env.generation;
    Tables(
      others.batches - {g} + (if g in t.batches then map[g := t.batches[g]] else map[]),
      others.operations - {g} + (if g in t.operations then map[g := t.operations[g]] else map[]))
  }

  ghost function ResumeTurn(env: Env, seg: Segment, r: DriveResult, w: World, resumptions: seq<Resumption>): TurnEnd
    decreases |resumptions|
  {
    if r.Paused? && resumptions != [] then
      var next := resumptions[0];
      var seg' := next.conditions.(answers := Answered(seg.answers, r.suspension, next.answer));
      var w1 := w.(tables := Elsewhere(env, w.tables, next.others));
      var (r', w') := ContinueAfterPause(env, seg', r.suspension.continuation, w1);
      ResumeTurn(env, seg', r', w', resumptions[1..])
    else
      TurnEnd(r, w, seg.answers)
  }

  /** A turn run until its first pause and then resumed as often as it pauses. */
  ghost function RunTurn(env: Env, seg: Segment, w: World, resumptions: seq<Resumption>): TurnEnd {
    var (r, w') := RunUntilPause(env, seg, w);
    ResumeTurn(env, seg, r, w', resumptions)
  }

  /** All answers from the start, and nothing that pauses, stops or fails. */
  function Quiet(answers: Answers): Segment {
    Segment(answers, _ => false, _ => false, _ => true, _ => true)
  }

  /** The question a Power asked is never about a frozen interrupt, so its answer leaves those alone. */
  lemma AnswerLeavesFrozen(env: Env, answers: Answers, p: Position, s: ChatSuspension, k: nat, answer: Json)
    requires p == AsPosition(s.continuation) && SuspendsUnfrozen(env, s, k)
    ensures AgreesOn(Answered(answers, s, answer), answers, Frozen(env, p, k))
  {
    if s.interaction.Some? {
      var id := s.interaction.value.request.interruptId;
      assert s.requests[k].interruptId == id;
      assert id in IdsOf(s.requests);
      assert RepeatsNoId(s.requests);
      assert id !in IdsOf(s.requests[..k]);
      assert id in p.seen ==> id in p.seen * IdsOf(s.requests);
    }
  }

  lemma PauseSurvives(
    env: Env, answers: Answers, p: Position, s: ChatSuspension, w: World, base: seq<Executed>, k: nat,
    answer: Json, others: Tables)
    requires p == AsPosition(s.continuation)
    requires AtPause(env, answers, p, w, base, k) && SuspendsUnfrozen(env, s, k)
    ensures AgreesOn(Answered(answers, s, answer), answers, Frozen(env, p, k))
    ensures AtPause(env, Answered(answers, s, answer), p, w.(tables := Elsewhere(env, w.tables, others)), base, k)
  {
    hide SuspendsUnfrozen, Answered, ValidateBatch;
    AnswerLeavesFrozen(env, answers, p, s, k, answer);
    var answers' := Answered(answers, s, answer);
    var batch := ValidateBatch(env, p.turn.powers);
    if env.generation in w.tables.batches {
      var requests := batch.value;
      AgreementCarries(env, answers', answers, requests[..k]);
      SameRows(env, answers, answers', requests, k);
    }
  }

  lemma SameRows(env: Env, a: Answers, b: Answers, requests: seq<PowerRequest>, k: nat)
    requires k <= |requests| && AgreesOn(b, a, IdsOf(requests[..k]))
    requires forall j :: 0 <= j < |requests| ==> env.fingerprint(requests[j]).Some?
    requires AllResolve(env, a, requests[..k])
    ensures AllResolve(env, b, requests[..k])
    ensures RowsAt(env, a, requests, k) == RowsAt(env, b, requests, k)
  {
  }

  /** However often it pauses, a turn that finishes ends like the reference turn with its final answers. */
  lemma {:induction false} ResumeTurnKeeps(
    env: Env, seg: Segment, p: Position, w: World, base: seq<Executed>, k: nat, resumptions: seq<Resumption>)
    requires AtPause(env, seg.answers, p, w, base, k)
    ensures var (r, w') := Drive(env, seg, p, w);
            var end := ResumeTurn(env, seg, r, w', resumptions);
            end.result.Finished? ==>
              && AgreesOn(end.answers, seg.answers, Frozen(env, p, k))
              && Reference(env, end.answers, p, w.sent, base)
                 == Some(Ending(end.result.outcome, end.world.sent, Completing(end.world.executed)))
    decreases |resumptions|
  {
    hide Drive, Reference, AtPause, Frozen, SuspendsUnfrozen, Elsewhere, Answered;
    var (r, w') := Drive(env, seg, p, w);
    var end := ResumeTurn(env, seg, r, w', resumptions);
    var base', k' := DriveKeeps(env, seg, p, w, base, k, end.answers);
    if r.Paused? && resumptions != [] {
      var next := resumptions[0];
      var p' := AsPosition(r.suspension.continuation);
      var seg' := next.conditions.(answers := Answered(seg.answers, r.suspension, next.answer));
      var w1 := w'.(tables := Elsewhere(env, w'.tables, next.others));
      PauseSurvives(env, seg.answers, p', r.suspension, w', base', k', next.answer, next.others);
      ResumeTurnKeeps(env, seg', p', w1, base', k', resumptions[1..]);
    }
  }

  // ---------------------------------------------------------------- the unpaused turn

  predicate AllComplete(log: seq<Executed>) {
    forall k :: 0 <= k < |log| ==> Completes(log[k])
  }

  lemma {:induction false} AllCompleteIsCompleting(log: seq<Executed>)
    requires AllComplete(log)
    ensures Completing(log) == log
  {
    if log != [] {
      AllCompleteIsCompleting(log[..|log| - 1]);
    }
  }

  /** Nothing pauses, stops or fails in this segment. */
  ghost predicate Undisturbed(seg: Segment) {
    && (forall n :: !seg.cancelled(n) && seg.contextOk(n) && seg.sqlOk(n))
    && forall requests :: !seg.pauseBefore(requests)
  }

  /** An undisturbed round whose batch is interrupted pauses the turn where it is. */
  lemma InterruptedRoundPauses(
    env: Env, seg: Segment, p: Position, requests: seq<PowerRequest>, batch: Batch, h: HumanInteraction, w: World)
    requires Undisturbed(seg) && p.round < MAX_POWER_ROUNDS && p.turn.status == PowerRequired
    requires ValidateBatch(env, p.turn.powers) == Some(requests) && p.seen * IdsOf(requests) == {}
    requires Prepare(env, seg, requests, w.(tick := w.tick + 2)).0 == Success(batch)
    requires var w1 := Prepare(env, seg, requests, w.(tick := w.tick + 2)).1;
             InvokeAll(env, seg, batch, requests, 0, map[], w1).0 == Interrupted(h)
    ensures var w1 := Prepare(env, seg, requests, w.(tick := w.tick + 2)).1;
            Drive(env, seg, p, w)
            == (Paused(ChatSuspension(AsContinuation(p), requests, Some(h))),
                InvokeAll(env, seg, batch, requests, 0, map[], w1).1)
  {
    hide ValidateBatch, HandleOk, InvokeAll, Prepare, Hand, AsContinuation, IdsOf;
  }

  /** An undisturbed round whose results are handed over goes on from there. */
  lemma DeliveredRoundContinues(
    env: Env, seg: Segment, p: Position, requests: seq<PowerRequest>, batch: Batch, results: Results, next: Position, w: World)
    returns (w3: World)
    requires Undisturbed(seg) && p.round < MAX_POWER_ROUNDS && p.turn.status == PowerRequired
    requires ValidateBatch(env, p.turn.powers) == Some(requests) && p.seen * IdsOf(requests) == {}
    requires Prepare(env, seg, requests, w.(tick := w.tick + 2)).0 == Success(batch)
    requires var w1 := Prepare(env, seg, requests, w.(tick := w.tick + 2)).1;
             var (progress, w2) := InvokeAll(env, seg, batch, requests, 0, map[], w1);
             progress == AllDone(results) && Hand(env, seg, p, batch, requests, results, w2).0 == Success(next)
    ensures var w1 := Prepare(env, seg, requests, w.(tick := w.tick + 2)).1;
            var w2 := InvokeAll(env, seg, batch, requests, 0, map[], w1).1;
            w3 == Hand(env, seg, p, batch, requests, results, w2).1
    ensures Drive(env, seg, p, w) == Drive(env, seg, next, w3)
  {
    hide ValidateBatch, HandleOk, InvokeAll, Prepare, Hand, IdsOf;
    var w1 := Prepare(env, seg, requests, w.(tick := w.tick + 2)).1;
    var w2 := InvokeAll(env, seg, batch, requests, 0, map[], w1).1;
    w3 := Hand(env, seg, p, batch, requests, results, w2).1;
  }

  lemma {:induction false} QuietInvokeAll(
    env: Env, seg: Segment, requests: seq<PowerRequest>, i: nat, results: Results, w: World, base: seq<Executed>)
    requires Undisturbed(seg) && Inside(env, seg.answers, requests, w, base, i)
    requires HandleOk(HandleFor(env, requests)) && RepeatsNoId(requests)
    requires AllResolve(env, seg.answers, requests)
    ensures var (progress, w') := InvokeAll(env, seg, HandleFor(env, requests), requests, i, results, w);
            && progress.AllDone?
            && (AllComplete(w.executed) ==> AllComplete(w'.executed))
            && w'.tables.batches.Keys == w.tables.batches.Keys
    decreases |requests| - i
  {
    hide Invoke, HandleOk, Durable;
    if i < |requests| {
      var w0 := w.(tick := w.tick + 2);
      assert Inside(env, seg.answers, requests, w0, base, i);
      InvokeNext(env, seg, requests, w0, base, i);
      var (r, w1) := Invoke(env, seg, HandleFor(env, requests), requests[i], w0);
      assert Resolves(env, seg.answers, requests[i]);
      assert Completes(Entries(env, seg.answers, [requests[i]])[0]);
      InvokeKeepsKeys(env, seg, HandleFor(env, requests), requests[i], w0);
      QuietInvokeAll(env, seg, requests, i + 1, results[requests[i].interruptId := r.value.value], w1, base);
    }
  }

  lemma InvokeKeepsKeys(env: Env, seg: Segment, batch: Batch, request: PowerRequest, w: World)
    ensures Invoke(env, seg, batch, request, w).1.tables.batches == w.tables.batches
  {
    hide Locate, Durable;
  }

  /** What the reference turn does where the turn still needs Powers. */
  lemma ReferenceRound(env: Env, answers: Answers, p: Position, sent: seq<Results>, log: seq<Executed>)
    returns (requests: seq<PowerRequest>, next: Position)
    requires p.turn.status == PowerRequired && Reference(env, answers, p, sent, log).Some?
    ensures p.round < MAX_POWER_ROUNDS
    ensures ValidateBatch(env, p.turn.powers) == Some(requests) && p.seen * IdsOf(requests) == {}
    ensures AllResolve(env, answers, requests) && CanPrepare(env, answers, requests)
    ensures AfterBatch(env, p, requests, sent + [ResultsOf(env, answers, requests)]) == Some(next)
    ensures Reference(env, answers, p, sent, log)
         == Reference(env, answers, next, sent + [ResultsOf(env, answers, requests)],
                      log + Entries(env, answers, requests))
  {
    hide AllResolve, CanPrepare, ValidateBatch, AfterBatch, ResultsOf, Entries;
    requests := ValidateBatch(env, p.turn.powers).value;
    next := AfterBatch(env, p, requests, sent + [ResultsOf(env, answers, requests)]).value;
  }

  lemma ReferenceEnd(env: Env, answers: Answers, p: Position, sent: seq<Results>, log: seq<Executed>)
    requires p.turn.status == TurnCompleted && Reference(env, answers, p, sent, log).Some?
    ensures p.round <= MAX_POWER_ROUNDS
    ensures Reference(env, answers, p, sent, log) == Some(Ending(ChatOutcome(p.turn.reply, p.invoked), sent, log))
  {
  }

  /** One undisturbed round of a turn whose batch resolves hands its results over. */
  lemma QuietRound(env: Env, seg: Segment, p: Position, requests: seq<PowerRequest>, w: World, base: seq<Executed>)
    requires Undisturbed(seg)
    requires Outside(env, w, base) && |w.tables.batches| < env.config.maxGenerations
    requires p.turn.status == PowerRequired && ValidateBatch(env, p.turn.powers) == Some(requests)
    requires AllResolve(env, seg.answers, requests) && CanPrepare(env, seg.answers, requests)
    requires AfterBatch(env, p, requests, w.sent + [ResultsOf(env, seg.answers, requests)]).Some?
    ensures forall j :: 0 <= j < |requests| ==> env.fingerprint(requests[j]).Some?
    ensures var batch := HandleFor(env, requests);
            var (prepared, w1) := Prepare(env, seg, requests, w);
            var (progress, w2) := InvokeAll(env, seg, batch, requests, 0, map[], w1);
            && prepared == Success(batch)
            && progress == AllDone(ResultsOf(env, seg.answers, requests))
            && var (handed, w3) := Hand(env, seg, p, batch, requests, progress.results, w2);
            && w3.sent == w.sent + [ResultsOf(env, seg.answers, requests)]
            && handed.Success? && Some(handed.value) == AfterBatch(env, p, requests, w3.sent)
            && Outside(env, w3, base + Entries(env, seg.answers, requests))
            && (AllComplete(w.executed) ==> AllComplete(w3.executed))
            && w3.tables.batches.Keys == w.tables.batches.Keys
  {
    hide InvokeAll, Prepare, Hand, HandleOk, Inside, AllResolve, Durable, CanPrepare, Received, AfterBatch,
      ValidateBatch, AllComplete, ResultsOf, Entries, HandleFor;
    PrepareSucceeds(env, seg, requests, w);
    PrepareEnters(env, seg, p, requests, w, base, 0);
    var k' := RoundKeeps(env, seg, p, requests, w, base, 0);
    PrepareKeepsLog(env, seg, requests, w);
    var w1 := Prepare(env, seg, requests, w).1;
    QuietInvokeAll(env, seg, requests, 0, map[], w1, base);
    var w2 := InvokeAll(env, seg, HandleFor(env, requests), requests, 0, map[], w1).1;
    HandLeaves(env, seg, p, requests, w2, base);
  }

  /** Where the reference turn ends, the undisturbed turn with the same answers ends, executing nothing twice. */
  lemma {:induction false} QuietDrive(env: Env, seg: Segment, p: Position, w: World, base: seq<Executed>)
    requires Undisturbed(seg)
    requires Outside(env, w, base) && |w.tables.batches| < env.config.maxGenerations
    requires Reference(env, seg.answers, p, w.sent, base).Some?
    ensures var (r, w') := Drive(env, seg, p, w);
            && r.Finished?
            && Reference(env, seg.answers, p, w.sent, base)
               == Some(Ending(r.outcome, w'.sent, Completing(w'.executed)))
            && (AllComplete(w.executed) ==> AllComplete(w'.executed))
    decreases MAX_POWER_ROUNDS + 1 - p.round
  {
    hide InvokeAll, Prepare, Hand, HandleOk, AllResolve, Durable, CanPrepare, HandleFor, Received, AfterBatch,
      ValidateBatch, AllComplete, ResultsOf, Entries, Completing, Reference;
    if p.turn.status == PowerRequired {
      var w0 := w.(tick := w.tick + 2);
      var requests, next := ReferenceRound(env, seg.answers, p, w.sent, base);
      QuietRound(env, seg, p, requests, w0, base);
      var w1 := Prepare(env, seg, requests, w0).1;
      var (progress, w2) := InvokeAll(env, seg, HandleFor(env, requests), requests, 0, map[], w1);
      var (handed, w3) := Hand(env, seg, p, HandleFor(env, requests), requests, progress.results, w2);
      SameSize(w3.tables.batches, w.tables.batches);
      QuietDrive(env, seg, next, w3, base + Entries(env, seg.answers, requests));
    } else {
      ReferenceEnd(env, seg.answers, p, w.sent, base);
    }
  }

  lemma PrepareKeepsLog(env: Env, seg: Segment, requests: seq<PowerRequest>, w: World)
    ensures Prepare(env, seg, requests, w).1.executed == w.executed
  {
  }

  lemma SameSize<K, V>(a: map<K, V>, b: map<K, V>)
    requires a.Keys == b.Keys
    ensures |a| == |b|
  {
  }

  /** However it paused, a finished turn ended like the reference turn with its final answers. */
  lemma PausedTurnKeeps(env: Env, seg: Segment, w: World, resumptions: seq<Resumption>)
    requires w.executed == [] && env.generation !in w.tables.batches
    requires RunTurn(env, seg, w, resumptions).result.Finished?
    ensures Received(env, w.sent).Some?
    ensures var end := RunTurn(env, seg, w, resumptions);
            Reference(env, end.answers, Position(Received(env, w.sent).value, {}, [], 0), w.sent, [])
            == Some(Ending(end.result.outcome, end.world.sent, Completing(end.world.executed)))
  {
    hide Drive, Reference, Completing, Frozen, Received, ValidateBatch, Inside, ContinueAfterPause;
    var p := Position(Received(env, w.sent).value, {}, [], 0);
    NothingExecuted();
    ResumeTurnKeeps(env, seg, p, w.(tick := w.tick + 2), [], 0, resumptions);
  }

  /** A turn that never pauses and is given all its answers ends where the reference turn does. */
  lemma UnpausedTurnEnds(env: Env, answers: Answers, w: World)
    requires w.executed == []
    requires env.generation !in w.tables.batches && |w.tables.batches| < env.config.maxGenerations
    requires Received(env, w.sent).Some?
    requires Reference(env, answers, Position(Received(env, w.sent).value, {}, [], 0), w.sent, []).Some?
    ensures var end := RunTurn(env, Quiet(answers), w, []);
            && end.result.Finished?
            && Some(Ending(end.result.outcome, end.world.sent, end.world.executed))
               == Reference(env, answers, Position(Received(env, w.sent).value, {}, [], 0), w.sent, [])
  {
    hide Drive, Reference, Completing, AllComplete, Received, ContinueAfterPause;
    var quiet := Quiet(answers);
    var p := Position(Received(env, w.sent).value, {}, [], 0);
    var w0 := w.(tick := w.tick + 2);
    NothingExecuted();
    QuietDrive(env, quiet, p, w0, []);
    var (r, w') := Drive(env, quiet, p, w0);
    assert RunTurn(env, quiet, w, []) == TurnEnd(r, w', answers);
    AllCompleteIsCompleting(w'.executed);
  }

  /**
   A turn paused any number of times that reaches an outcome, and the same turn given its final answers at the
   start and never paused: same outcome, same results sent to the Brain, same completing executions in the
   same order. The unpaused turn executes nothing else.
   */
  lemma PausingIsTransparent(env: Env, seg: Segment, w: World, resumptions: seq<Resumption>)
    requires w.executed == []
    requires env.generation !in w.tables.batches && |w.tables.batches| < env.config.maxGenerations
    requires RunTurn(env, seg, w, resumptions).result.Finished?
    ensures var paused := RunTurn(env, seg, w, resumptions);
            var unpaused := RunTurn(env, Quiet(paused.answers), w, []);
            && unpaused.result == paused.result
            && unpaused.world.sent == paused.world.sent
            && unpaused.world.executed == Completing(paused.world.executed)
  {
    hide RunTurn, Reference, Completing, Received;
    PausedTurnKeeps(env, seg, w, resumptions);
    UnpausedTurnEnds(env, RunTurn(env, seg, w, resumptions).answers, w);
  }

  lemma NothingExecuted()
    ensures Completing([]) == [] && AllComplete([])
  {
  }
}
