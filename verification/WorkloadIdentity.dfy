/**
 The Power identities a turn is driven with (team/power_execution.py): each request is bound to the container and
 image of its Assistant and to every generation of its private state. They are read again whenever a batch is
 prepared or a Power invoked, so they may have changed while a batch was pending.
 */
module WorkloadIdentity {
  import opened Wrappers
  import opened PowerJournal
  import opened ChatOrchestrator
  import opened PauseTransparency
  import ChatTurn

  datatype Binding = Binding(containerId: string, image: string)

  /** The bound Assistants, and the private-state generations a request would use. */
  datatype Workload = Workload(
    bindings: map<string, Binding>,
    secrets: PowerRequest -> seq<(string, int)>,
    accounts: PowerRequest -> seq<(string, int)>)

  /** What an operation commits to besides its request. */
  datatype Identity = Identity(binding: Binding, secrets: seq<(string, int)>, accounts: seq<(string, int)>)

  /** None where the Assistant is not bound, or bound to no container or image. */
  function IdentityOf(workload: Workload, request: PowerRequest): Option<Identity> {
    if request.assistantId !in workload.bindings then None
    else
      var binding := workload.bindings[request.assistantId];
      if binding.containerId == "" || binding.image == "" then None
      else Some(Identity(binding, workload.secrets(request), workload.accounts(request)))
  }

  function BoundOperation(workload: Workload, request: PowerRequest): Option<Operation> {
    if request.assistantId !in workload.bindings then None
    else
      var binding := workload.bindings[request.assistantId];
      ChatTurn.PowerOperation(
        request, binding.containerId, binding.image, workload.secrets(request), workload.accounts(request))
  }

  /** The turn driven over these workloads. */
  function With(env: Env, workload: Workload): Env {
    env.(fingerprint := (request: PowerRequest) =>
      match BoundOperation(workload, request)
      case None => None
      case Some(operation) => Some(operation.fingerprint))
  }

  /** What the turn prepares and invokes are the operations `power_operation` makes. */
  lemma OperationIsBound(env: Env, workload: Workload, answers: Answers, request: PowerRequest)
    ensures OperationOf(With(env, workload), answers, request)
         == if env.preflight(request, AnswersFor(answers, request.interruptId)) then BoundOperation(workload, request)
            else None
  {
  }

  /** Two workloads give a request the same operation exactly if they give it the same identity. */
  lemma SameOperation(a: Workload, b: Workload, request: PowerRequest)
    ensures BoundOperation(a, request) == BoundOperation(b, request) <==> IdentityOf(a, request) == IdentityOf(b, request)
    ensures BoundOperation(a, request).Some? <==> IdentityOf(a, request).Some?
  {
    if IdentityOf(a, request).Some? && IdentityOf(b, request).Some? {
      var x, y := a.bindings[request.assistantId], b.bindings[request.assistantId];
      ChatTurn.PowerOperationCommits(
        request, request, x.containerId, y.containerId, x.image, y.image,
        a.secrets(request), b.secrets(request), a.accounts(request), b.accounts(request));
    }
  }

  // ---------------------------------------------------------------- a pending batch under other workloads

  ghost predicate SameIdentities(a: Workload, b: Workload, requests: seq<PowerRequest>) {
    forall j :: 0 <= j < |requests| ==> IdentityOf(a, requests[j]) == IdentityOf(b, requests[j])
  }

  ghost predicate AllReady(env: Env, answers: Answers, requests: seq<PowerRequest>) {
    forall j :: 0 <= j < |requests| ==> env.preflight(requests[j], AnswersFor(answers, requests[j].interruptId))
  }

  /** The operations under `b` are those committed under `a` exactly if nothing changed and every request is ready. */
  lemma SameOperations(env: Env, a: Workload, b: Workload, answers: Answers, requests: seq<PowerRequest>)
    requires forall j :: 0 <= j < |requests| ==> With(env, a).fingerprint(requests[j]).Some?
    ensures OperationsOf(With(env, b), answers, requests) == Some(Committed(With(env, a), requests))
       <==> SameIdentities(a, b, requests) && AllReady(env, answers, requests)
  {
    hide BoundOperation, IdentityOf;
    var committed := Committed(With(env, a), requests);
    var selected := OperationsOf(With(env, b), answers, requests);
    forall j | 0 <= j < |requests|
      ensures Some(committed[j]) == BoundOperation(a, requests[j])
      ensures OperationOf(With(env, b), answers, requests[j]) == Some(committed[j])
         <==> IdentityOf(a, requests[j]) == IdentityOf(b, requests[j])
              && env.preflight(requests[j], AnswersFor(answers, requests[j].interruptId))
    {
      BoundKeepsId(a, requests[j]);
      OperationIsBound(env, b, answers, requests[j]);
      SameOperation(a, b, requests[j]);
    }
    if selected == Some(committed) {
      forall j | 0 <= j < |requests|
        ensures OperationOf(With(env, b), answers, requests[j]) == Some(committed[j])
      {
        assert selected.value[j] == committed[j];
      }
    }
    if SameIdentities(a, b, requests) && AllReady(env, answers, requests) {
      assert selected.Some? && |selected.value| == |committed|;
      assert forall j :: 0 <= j < |requests| ==> selected.value[j] == committed[j];
      assert selected.value == committed;
    }
  }

  lemma BoundKeepsId(workload: Workload, request: PowerRequest)
    ensures BoundOperation(workload, request).Some? ==>
              BoundOperation(workload, request).value.interruptId == request.interruptId
  {
  }

  /** A batch pending under `a` is prepared again under `b` exactly if no identity changed and the journal answers. */
  lemma PendingBatchIsAcceptedExactly(
    env: Env, a: Workload, b: Workload, before: Answers, seg: Segment, requests: seq<PowerRequest>,
    w: World, base: seq<Executed>, k: nat)
    requires Inside(With(env, a), before, requests, w, base, k) && CanPrepare(With(env, a), before, requests)
    ensures Prepare(With(env, b), seg, requests, w).0.Success?
       <==> SameIdentities(a, b, requests) && AllReady(env, seg.answers, requests) && seg.sqlOk(w.tick)
    ensures Prepare(With(env, b), seg, requests, w).1.tables == w.tables
  {
    hide BoundOperation, SameIdentities, AllReady, With;
    OnlyFingerprints(env, a, b);
    SameOperations(env, a, b, seg.answers, requests);
    SameOperations(env, a, a, before, requests);
    CommittedIsPrepared(With(env, a), before, requests);
  }

  lemma OnlyFingerprints(env: Env, a: Workload, b: Workload)
    ensures With(env, b) == With(env, a).(fingerprint := With(env, b).fingerprint)
  {
  }

  lemma CommittedIsPrepared(env: Env, answers: Answers, requests: seq<PowerRequest>)
    requires CanPrepare(env, answers, requests)
    ensures forall j :: 0 <= j < |requests| ==> env.fingerprint(requests[j]).Some?
    ensures OperationsOf(env, answers, requests) == Some(Committed(env, requests))
  {
    var selected := OperationsOf(env, answers, requests).value;
    assert forall j :: 0 <= j < |requests| ==> OperationOf(env, answers, requests[j]).Some?;
    assert |selected| == |Committed(env, requests)|;
    assert forall j :: 0 <= j < |requests| ==> selected[j] == Committed(env, requests)[j];
    assert selected == Committed(env, requests);
  }

  /**
   Between preparing and invoking: the operation is looked up in the journal exactly if its identity is still the
   prepared one and it is ready; otherwise it conflicts, and nothing has happened.
   */
  lemma ChangedIdentityConflicts(
    env: Env, a: Workload, b: Workload, seg: Segment, requests: seq<PowerRequest>, i: nat, w: World)
    requires forall j :: 0 <= j < |requests| ==> With(env, a).fingerprint(requests[j]).Some?
    requires i < |requests| && HandleOk(HandleFor(With(env, a), requests))
    ensures var batch := HandleFor(With(env, a), requests);
            var operation := OperationOf(With(env, b), seg.answers, requests[i]);
            && (operation == Some(batch.operations[i])
                <==> IdentityOf(a, requests[i]) == IdentityOf(b, requests[i])
                     && env.preflight(requests[i], AnswersFor(seg.answers, requests[i].interruptId)))
            && (operation != Some(batch.operations[i]) ==>
                 Invoke(With(env, b), seg, batch, requests[i], w) == (Failure(JournalFailed(Conflict)), w))
  {
    hide BoundOperation, IdentityOf;
    var batch := HandleFor(With(env, a), requests);
    var operation := OperationOf(With(env, b), seg.answers, requests[i]);
    BoundKeepsId(a, requests[i]);
    BoundKeepsId(b, requests[i]);
    OperationIsBound(env, b, seg.answers, requests[i]);
    SameOperation(a, b, requests[i]);
    assert batch.operations[i].interruptId == requests[i].interruptId;
    if operation.Some? && Holds(batch, operation.value) {
      var j :| 0 <= j < |batch.operations| && batch.operations[j] == operation.value;
      assert j == i;
    }
  }

  /** A turn paused inside a batch under `a` and driven on under `b` does nothing at all if an identity changed. */
  lemma ChangedWorkloadDoesNothing(
    env: Env, a: Workload, b: Workload, before: Answers, seg: Segment, p: Position, requests: seq<PowerRequest>,
    w: World, base: seq<Executed>, k: nat)
    requires ValidateBatch(env, p.turn.powers) == Some(requests) && p.turn.status == PowerRequired
    requires Inside(With(env, a), before, requests, w, base, k)
    requires !SameIdentities(a, b, requests)
    ensures var (r, w') := Drive(With(env, b), seg, p, w);
            && w'.tables == w.tables && w'.executed == w.executed && w'.sent == w.sent
            && (r.Failed? || (r.Paused? && seg.pauseBefore(requests) && r.suspension.interaction.None?))
  {
    hide BoundOperation, SameIdentities, Committed, InvokeAll, Hand, IdsOf;
    SameValidation(env, b, p.turn.powers);
    SameOperations(env, a, b, seg.answers, requests);
    var w0 := w.(tick := w.tick + 2);
    ConflictingBatch(env, a, b, seg, requests, w0);
  }

  lemma SameValidation(env: Env, workload: Workload, powers: seq<PowerRequest>)
    ensures ValidateBatch(With(env, workload), powers) == ValidateBatch(env, powers)
  {
  }

  /** The digest in the journal is of other operations, so the batch is refused as it is by `PendingBatchBlocksOthers`. */
  lemma ConflictingBatch(env: Env, a: Workload, b: Workload, seg: Segment, requests: seq<PowerRequest>, w: World)
    requires forall j :: 0 <= j < |requests| ==> With(env, a).fingerprint(requests[j]).Some?
    requires env.generation in w.tables.batches
    requires w.tables.batches[env.generation].fingerprint
          == BatchDigest(env.generation, env.thread, Committed(With(env, a), requests))
    requires OperationsOf(With(env, b), seg.answers, requests) != Some(Committed(With(env, a), requests))
    ensures var (r, w') := Prepare(With(env, b), seg, requests, w);
            r.Failure? && w'.tables == w.tables && w'.executed == w.executed && w'.sent == w.sent
  {
    hide Committed, OperationsOf;
  }

  // ---------------------------------------------------------------- a paused turn

  lemma {:induction false} InvokeAllKeepsBatches(
    env: Env, seg: Segment, batch: Batch, requests: seq<PowerRequest>, i: nat, results: Results, w: World)
    requires i <= |requests|
    ensures InvokeAll(env, seg, batch, requests, i, results, w).1.tables.batches == w.tables.batches
    decreases |requests| - i
  {
    hide Invoke;
    if i < |requests| {
      var w0 := w.(tick := w.tick + 2);
      InvokeKeepsKeys(env, seg, batch, requests[i], w0);
      var (r, w1) := Invoke(env, seg, batch, requests[i], w0);
      if r.Success? && r.value.Returned? {
        InvokeAllKeepsBatches(env, seg, batch, requests, i + 1, results[requests[i].interruptId := r.value.value], w1);
      }
    }
  }

  lemma PreparedIsPending(env: Env, seg: Segment, requests: seq<PowerRequest>, w: World)
    requires Prepare(env, seg, requests, w).0.Success?
    ensures env.generation in Prepare(env, seg, requests, w).1.tables.batches
  {
  }

  /** A pause inside a batch leaves that batch pending. */
  lemma {:induction false} PausedInsideIsPending(env: Env, seg: Segment, p: Position, w: World)
    requires Drive(env, seg, p, w).0.Paused? && Drive(env, seg, p, w).0.suspension.interaction.Some?
    ensures env.generation in Drive(env, seg, p, w).1.tables.batches
    decreases MAX_POWER_ROUNDS + 1 - p.round
  {
    hide Prepare, InvokeAll, Hand, ValidateBatch, IdsOf;
    var requests := ValidateBatch(env, p.turn.powers).value;
    var w0 := w.(tick := w.tick + 2);
    PreparedIsPending(env, seg, requests, w0);
    var (prepared, w1) := Prepare(env, seg, requests, w0);
    InvokeAllKeepsBatches(env, seg, prepared.value, requests, 0, map[], w1);
    var (progress, w2) := InvokeAll(env, seg, prepared.value, requests, 0, map[], w1);
    if progress.AllDone? {
      HandAdvances(env, seg, p, prepared.value, requests, progress.results, w2);
      var (handed, w3) := Hand(env, seg, p, prepared.value, requests, progress.results, w2);
      PausedInsideIsPending(env, seg, handed.value, w3);
    }
  }

  lemma HandAdvances(
    env: Env, seg: Segment, p: Position, batch: Batch, requests: seq<PowerRequest>, results: Results, w: World)
    ensures var handed := Hand(env, seg, p, batch, requests, results, w).0;
            handed.Success? ==> handed.value.round == p.round + 1
  {
  }

  /**
   A turn that asked a human from inside a batch, and is resumed after the container, the image or a private-state
   generation of any request of the batch has changed: nothing runs, nothing is sent, the journal stays as it is,
   and the turn does not finish, whatever the answer and whatever other Teams did meanwhile.
   */
  lemma ChangedWorkloadNeverResumes(
    env: Env, a: Workload, b: Workload, seg: Segment, next: Segment, others: Tables,
    p: Position, w: World, base: seq<Executed>, k: nat)
    requires AtPause(With(env, a), seg.answers, p, w, base, k)
    requires var r := Drive(With(env, a), seg, p, w).0;
             && r.Paused? && r.suspension.interaction.Some?
             && !SameIdentities(a, b, r.suspension.requests)
    ensures var (paused, w1) := Drive(With(env, a), seg, p, w);
            var w2 := w1.(tables := Elsewhere(env, w1.tables, others));
            var (r, w3) := ContinueAfterPause(With(env, b), next, paused.suspension.continuation, w2);
            && !r.Finished?
            && w3.tables == w2.tables && w3.executed == w2.executed && w3.sent == w2.sent
  {
    hide Drive, SameIdentities, BoundOperation, ValidateBatch, Inside;
    var (paused, w1) := Drive(With(env, a), seg, p, w);
    var base', k' := DriveKeeps(With(env, a), seg, p, w, base, k, seg.answers);
    PausedInsideIsPending(With(env, a), seg, p, w);
    var s := paused.suspension;
    var p' := AsPosition(s.continuation);
    SameValidation(env, a, p'.turn.powers);
    assert Inside(With(env, a), seg.answers, s.requests, w1, base', k');
    var w2 := w1.(tables := Elsewhere(env, w1.tables, others));
    InsideElsewhere(env, a, seg.answers, s.requests, w1, base', k', others);
    ChangedWorkloadDoesNothing(env, a, b, seg.answers, next, p', s.requests, w2, base', k');
  }

  lemma InsideElsewhere(
    env: Env, workload: Workload, answers: Answers, requests: seq<PowerRequest>,
    w: World, base: seq<Executed>, k: nat, others: Tables)
    requires Inside(With(env, workload), answers, requests, w, base, k)
    ensures Inside(With(env, workload), answers, requests, w.(tables := Elsewhere(env, w.tables, others)), base, k)
  {
  }
}
