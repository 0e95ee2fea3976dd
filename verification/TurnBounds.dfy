/**
 What every turn keeps, however often it pauses: bounds on everything a continuation stores, one completing
 execution per invoked Power, and no execution at all once an effect of the turn may have been lost.
 */
module TurnBounds {
  import opened Wrappers
  import opened PowerJournal
  import opened ChatOrchestrator
  import opened PauseTransparency
  import Text

  // ---------------------------------------------------------------- bounds on continuations

  ghost predicate PositionOk(env: Env, p: Position) {
    && p.round <= MAX_POWER_ROUNDS
    && TurnOk(p.turn)
    && |p.seen| == |p.invoked| <= MAX_POWER_REQUESTS * p.round
    && (forall id :: id in p.seen ==> SafeId(id))
    && forall i :: i in p.invoked ==> Invocable(env, i)
  }

  predicate DeclaredAndNamed(env: Env, requests: seq<PowerRequest>) {
    forall k :: 0 <= k < |requests| ==>
      WellNamed(requests[k]) && (requests[k].assistantId, requests[k].power) in env.declared
  }

  /** A declared Power with a well-formed name. */
  predicate Invocable(env: Env, i: InvokedPower) {
    (i.assistantId, i.power) in env.declared && PowerId(i.assistantId) && PowerId(i.power)
  }

  /** A pause leaves at least one round, a valid pending batch and nothing pending that was already seen. */
  ghost predicate ContinuationOk(env: Env, c: ChatContinuation) {
    && c.roundIndex < MAX_POWER_ROUNDS
    && c.turn.status == PowerRequired && TurnOk(c.turn)
    && Text.Ascending(c.seenInterrupts)
    && |c.seenInterrupts| == |c.invoked| <= MAX_POWER_REQUESTS * c.roundIndex
    && (forall i, j :: 0 <= i < j < |c.seenInterrupts| ==> c.seenInterrupts[i] != c.seenInterrupts[j])
    && RepeatsNoId(c.turn.powers)
    && (forall x :: x in c.seenInterrupts ==> SafeId(x))
    && (forall i :: i in c.invoked ==> Invocable(env, i))
    && DeclaredAndNamed(env, c.turn.powers)
    && forall x :: x in c.seenInterrupts ==> x !in IdsOf(c.turn.powers)
  }

  lemma {:induction false} DistinctIdsCount(requests: seq<PowerRequest>)
    requires RepeatsNoId(requests)
    ensures |IdsOf(requests)| == |requests|
  {
    if requests != [] {
      var n := |requests| - 1;
      var init := requests[..n];
      DistinctIdsCount(init);
      assert forall k :: 0 <= k < n ==> init[k] == requests[k];
      assert IdsOf(requests) == IdsOf(init) + {requests[n].interruptId};
    }
  }

  lemma ValidBatchKeepsIds(env: Env, powers: seq<PowerRequest>)
    requires ValidateBatch(env, powers).Some?
    ensures RepeatsNoId(powers) && IdsOf(ValidateBatch(env, powers).value) == IdsOf(powers)
  {
  }

  /** The end of a batch keeps the bounds, sends the Brain exactly one more result map and counts one round. */
  lemma HandKeepsBounds(
    env: Env, seg: Segment, p: Position, batch: Batch, requests: seq<PowerRequest>, results: Results, w: World)
    requires PositionOk(env, p) && p.round < MAX_POWER_ROUNDS
    requires |requests| <= MAX_POWER_REQUESTS && RepeatsNoId(requests) && p.seen * IdsOf(requests) == {}
    requires DeclaredAndNamed(env, requests)
    ensures var (r, w') := Hand(env, seg, p, batch, requests, results, w);
            && |w.sent| <= |w'.sent| <= |w.sent| + 1
            && (r.Success? ==> PositionOk(env, r.value) && r.value.round == p.round + 1 && |w'.sent| == |w.sent| + 1)
  {
    hide DeliverTx, PowerId, SafeId, TurnOk;
    DistinctIdsCount(requests);
    forall i | i in InvokedBy(requests)
      ensures Invocable(env, i)
    {
      var k :| 0 <= k < |requests| && InvokedBy(requests)[k] == i;
      assert WellNamed(requests[k]);
    }
    forall id | id in IdsOf(requests)
      ensures SafeId(id)
    {
      var k :| 0 <= k < |requests| && requests[k].interruptId == id;
      assert WellNamed(requests[k]);
    }
  }

  lemma PrepareSendsNothing(env: Env, seg: Segment, requests: seq<PowerRequest>, w: World)
    ensures Prepare(env, seg, requests, w).1.sent == w.sent
  {
  }

  lemma {:induction false} InvokeAllSendsNothing(
    env: Env, seg: Segment, batch: Batch, requests: seq<PowerRequest>, i: nat, results: Results, w: World)
    requires i <= |requests|
    ensures InvokeAll(env, seg, batch, requests, i, results, w).1.sent == w.sent
    decreases |requests| - i
  {
    hide Invoke;
    if i < |requests| && !seg.cancelled(w.tick) && seg.contextOk(w.tick + 1) {
      var (r, w') := Invoke(env, seg, batch, requests[i], w.(tick := w.tick + 2));
      InvokeSendsNothing(env, seg, batch, requests[i], w.(tick := w.tick + 2));
      if r.Success? && r.value.Returned? {
        InvokeAllSendsNothing(env, seg, batch, requests, i + 1, results[requests[i].interruptId := r.value.value], w');
      }
    }
  }

  lemma InvokeSendsNothing(env: Env, seg: Segment, batch: Batch, request: PowerRequest, w: World)
    ensures Invoke(env, seg, batch, request, w).1.sent == w.sent
  {
  }

  /** One segment: a pause is within bounds, and resumes of the Brain are paid for in rounds. */
  lemma {:induction false} DriveKeepsBounds(env: Env, seg: Segment, p: Position, w: World)
    requires PositionOk(env, p)
    ensures var (r, w') := Drive(env, seg, p, w);
            && |w.sent| <= |w'.sent| <= |w.sent| + (MAX_POWER_ROUNDS - p.round)
            && (r.Paused? ==>
                 var c := r.suspension.continuation;
                 && ContinuationOk(env, c)
                 && p.round <= c.roundIndex && |w'.sent| == |w.sent| + (c.roundIndex - p.round)
                 && Some(r.suspension.requests) == ValidateBatch(env, c.turn.powers))
            && (r.Finished? ==> |r.outcome.powers| <= MAX_POWER_REQUESTS * MAX_POWER_ROUNDS)
    decreases MAX_POWER_ROUNDS + 1 - p.round
  {
    hide InvokeAll, Prepare, Hand, ValidateBatch, Received, IdsOf, RepeatsNoId, ContinuationOk, TurnOk,
      DeclaredAndNamed, Text.Sorted, Locate, HandleOk;
    var batch := ValidateBatch(env, p.turn.powers);
    if p.round < MAX_POWER_ROUNDS && !seg.cancelled(w.tick) && p.turn.status == PowerRequired
      && seg.contextOk(w.tick + 1) && batch.Some? && p.seen * IdsOf(batch.value) == {}
    {
      var requests := batch.value;
      ValidBatchKeepsIds(env, p.turn.powers);
      ValidBatchShape(env, p);
      PauseIsBounded(env, p, requests);
      var w0 := w.(tick := w.tick + 2);
      PrepareSendsNothing(env, seg, requests, w0);
      var (prepared, w1) := Prepare(env, seg, requests, w0);
      if !seg.pauseBefore(requests) && prepared.Success? {
        InvokeAllSendsNothing(env, seg, prepared.value, requests, 0, map[], w1);
        var (progress, w2) := InvokeAll(env, seg, prepared.value, requests, 0, map[], w1);
        if progress.AllDone? {
          HandKeepsBounds(env, seg, p, prepared.value, requests, progress.results, w2);
          var (handed, w3) := Hand(env, seg, p, prepared.value, requests, progress.results, w2);
          if handed.Success? {
            DriveKeepsBounds(env, seg, handed.value, w3);
          }
        }
      }
    }
  }

  lemma ValidBatchShape(env: Env, p: Position)
    requires PositionOk(env, p) && ValidateBatch(env, p.turn.powers).Some?
    ensures var requests := ValidateBatch(env, p.turn.powers).value;
            && |requests| <= MAX_POWER_REQUESTS && RepeatsNoId(requests)
            && DeclaredAndNamed(env, requests) && DeclaredAndNamed(env, p.turn.powers)
  {
  }

  lemma PauseIsBounded(env: Env, p: Position, requests: seq<PowerRequest>)
    requires PositionOk(env, p) && p.round < MAX_POWER_ROUNDS && p.turn.status == PowerRequired
    requires DeclaredAndNamed(env, p.turn.powers)
    requires RepeatsNoId(p.turn.powers) && IdsOf(requests) == IdsOf(p.turn.powers) && p.seen * IdsOf(requests) == {}
    ensures ContinuationOk(env, AsContinuation(p))
  {
    hide Text.Sorted, Invocable, DeclaredAndNamed, TurnOk, IdsOf, RepeatsNoId, SafeId;
    var seen := Text.Sorted(p.seen);
    Text.AscendingHasNoRepeats(seen);
    assert forall x :: x in seen ==> x in p.seen;
    assert forall x :: x in p.seen && x in IdsOf(requests) ==> x in p.seen * IdsOf(requests);
  }

  /** However often a turn pauses, each pause is within bounds and the Brain is resumed at most eight times. */
  lemma {:induction false} ResumeTurnKeepsBounds(
    env: Env, seg: Segment, r: DriveResult, w: World, resumptions: seq<Resumption>, spent: nat)
    requires spent <= MAX_POWER_ROUNDS
    requires r.Paused? ==> ContinuationOk(env, r.suspension.continuation) && r.suspension.continuation.roundIndex == spent
    requires r.Finished? ==> |r.outcome.powers| <= MAX_POWER_REQUESTS * MAX_POWER_ROUNDS
    ensures var end := ResumeTurn(env, seg, r, w, resumptions);
            && |end.world.sent| <= |w.sent| + (MAX_POWER_ROUNDS - spent)
            && (end.result.Paused? ==>
                 var c := end.result.suspension.continuation;
                 && ContinuationOk(env, c)
                 && |end.world.sent| == |w.sent| + (c.roundIndex - spent))
            && (end.result.Finished? ==> |end.result.outcome.powers| <= MAX_POWER_REQUESTS * MAX_POWER_ROUNDS)
    decreases |resumptions|
  {
    hide Drive, AsPosition, Elsewhere, Answered, TurnOk, ContinuationOk;
    if r.Paused? && resumptions != [] {
      var next := resumptions[0];
      var seg' := next.conditions.(answers := Answered(seg.answers, r.suspension, next.answer));
      var w1 := w.(tables := Elsewhere(env, w.tables, next.others));
      var p := AsPosition(r.suspension.continuation);
      ContinuationIsPosition(env, r.suspension.continuation);
      DriveKeepsBounds(env, seg', p, w1);
      var (r', w') := ContinueAfterPause(env, seg', r.suspension.continuation, w1);
      var spent' := if r'.Paused? then r'.suspension.continuation.roundIndex else spent + (|w'.sent| - |w1.sent|);
      ResumeTurnKeepsBounds(env, seg', r', w', resumptions[1..], spent');
    }
  }

  lemma ContinuationIsPosition(env: Env, c: ChatContinuation)
    requires ContinuationOk(env, c)
    ensures PositionOk(env, AsPosition(c)) && AsPosition(c).round == c.roundIndex
  {
    DistinctCount(c.seenInterrupts);
  }

  lemma {:induction false} DistinctCount(s: seq<string>)
    requires forall i, j :: 0 <= i < j < |s| ==> s[i] != s[j]
    ensures |set x | x in s| == |s|
  {
    if s != [] {
      var init := s[..|s| - 1];
      DistinctCount(init);
      assert (set x | x in s) == (set x | x in init) + {s[|s| - 1]};
    }
  }

  lemma EveryPauseIsBounded(env: Env, seg: Segment, w: World, resumptions: seq<Resumption>)
    ensures var end := RunTurn(env, seg, w, resumptions);
            && |end.world.sent| <= |w.sent| + MAX_POWER_ROUNDS
            && (end.result.Paused? ==>
                 && ContinuationOk(env, end.result.suspension.continuation)
                 && |end.world.sent| == |w.sent| + end.result.suspension.continuation.roundIndex)
            && (end.result.Finished? ==> |end.result.outcome.powers| <= MAX_POWER_REQUESTS * MAX_POWER_ROUNDS)
  {
    hide Drive, ContinuationOk, ResumeTurn, TurnOk;
    var (r, w') := RunUntilPause(env, seg, w);
    var turn := Received(env, w.sent);
    if turn.Some? {
      var p := Position(turn.value, {}, [], 0);
      assert PositionOk(env, p);
      DriveKeepsBounds(env, seg, p, w.(tick := w.tick + 2));
    }
    var spent := if r.Paused? then r.suspension.continuation.roundIndex else |w'.sent| - |w.sent|;
    ResumeTurnKeepsBounds(env, seg, r, w', resumptions, spent);
  }

  // ---------------------------------------------------------------- one completing execution per Power

  function LoggedRequests(log: seq<Executed>): seq<PowerRequest> {
    seq(|log|, k requires 0 <= k < |log| => log[k].request)
  }

  /** The log so far holds one execution per invoked Power, in order, and its ids are those seen. */
  ghost predicate LogFits(p: Position, log: seq<Executed>) {
    && p.invoked == InvokedBy(LoggedRequests(log))
    && RepeatsNoId(LoggedRequests(log))
    && IdsOf(LoggedRequests(log)) == p.seen
  }

  lemma BatchFits(env: Env, answers: Answers, p: Position, requests: seq<PowerRequest>, log: seq<Executed>)
    requires LogFits(p, log) && RepeatsNoId(requests) && p.seen * IdsOf(requests) == {}
    ensures var log' := log + Entries(env, answers, requests);
            && InvokedBy(LoggedRequests(log')) == p.invoked + InvokedBy(requests)
            && RepeatsNoId(LoggedRequests(log'))
            && IdsOf(LoggedRequests(log')) == p.seen + IdsOf(requests)
  {
    var log' := log + Entries(env, answers, requests);
    assert LoggedRequests(log') == LoggedRequests(log) + requests;
    DisjointUnion(LoggedRequests(log), requests);
  }

  lemma DisjointUnion(a: seq<PowerRequest>, b: seq<PowerRequest>)
    requires RepeatsNoId(a) && RepeatsNoId(b) && IdsOf(a) * IdsOf(b) == {}
    ensures RepeatsNoId(a + b) && IdsOf(a + b) == IdsOf(a) + IdsOf(b)
  {
    var c := a + b;
    forall x | x in IdsOf(a)
      ensures x !in IdsOf(b)
    {
      assert (x in IdsOf(b)) == (x in IdsOf(a) * IdsOf(b));
    }
    forall i, j | 0 <= i < j < |c|
      ensures c[i].interruptId != c[j].interruptId
    {
      if i < |a| <= j {
        assert a[i].interruptId in IdsOf(a) && b[j - |a|].interruptId in IdsOf(b);
      }
    }
    forall id | id in IdsOf(a) + IdsOf(b)
      ensures id in IdsOf(c)
    {
      if id in IdsOf(a) {
        var k :| 0 <= k < |a| && a[k].interruptId == id;
        assert c[k].interruptId == id;
      } else {
        var k :| 0 <= k < |b| && b[k].interruptId == id;
        assert c[|a| + k].interruptId == id;
      }
    }
  }

  lemma {:induction false} ReferenceCompletesOnce(
    env: Env, answers: Answers, p: Position, sent: seq<Results>, log: seq<Executed>)
    requires LogFits(p, log) && Reference(env, answers, p, sent, log).Some?
    ensures var end := Reference(env, answers, p, sent, log).value;
            && end.outcome.powers == InvokedBy(LoggedRequests(end.completed))
            && RepeatsNoId(LoggedRequests(end.completed))
    decreases MAX_POWER_ROUNDS + 1 - p.round
  {
    if p.turn.status == PowerRequired {
      hide Reference, ValidateBatch, AllResolve, CanPrepare, ResultsOf, IdsOf, Entries;
      var requests, next := ReferenceRound(env, answers, p, sent, log);
      BatchFits(env, answers, p, requests, log);
      assert RepeatsNoId(requests) by { ValidBatchKeepsIds(env, p.turn.powers); }
      ReferenceCompletesOnce(env, answers, next, sent + [ResultsOf(env, answers, requests)],
                             log + Entries(env, answers, requests));
    } else {
      ReferenceEnd(env, answers, p, sent, log);
    }
  }

  /**
   Paused or not, the completing executions of a finished turn are exactly the Powers its outcome lists, in
   that order, and no interrupt has two of them.
   */
  lemma CompletingExecutionsAreTheOutcome(env: Env, seg: Segment, w: World, resumptions: seq<Resumption>)
    requires w.executed == [] && env.generation !in w.tables.batches
    requires RunTurn(env, seg, w, resumptions).result.Finished?
    ensures var end := RunTurn(env, seg, w, resumptions);
            var requests := LoggedRequests(Completing(end.world.executed));
            end.result.outcome.powers == InvokedBy(requests) && RepeatsNoId(requests)
  {
    hide RunTurn, Reference;
    PausedTurnKeeps(env, seg, w, resumptions);
    var p := Position(Received(env, w.sent).value, {}, [], 0);
    assert LogFits(p, []);
    ReferenceCompletesOnce(env, RunTurn(env, seg, w, resumptions).answers, p, w.sent, []);
  }

  // ---------------------------------------------------------------- after a lost effect

  /** Row `k` of the turn's generation is executing and everything before it has completed. */
  ghost predicate StuckAt(env: Env, t: Tables, k: nat) {
    && env.generation in t.batches && env.generation in t.operations
    && k < |t.operations[env.generation]|
    && t.operations[env.generation][k].state == Executing
    && forall j :: 0 <= j < k ==> t.operations[env.generation][j].state == Completed
  }

  /** A crash between the grant of an operation and its outcome leaves its row stuck. */
  lemma CrashInsideIsStuck(env: Env, answers: Answers, requests: seq<PowerRequest>, w: World, base: seq<Executed>, k: nat)
    requires Inside(env, answers, requests, w, base, k) && k < |requests|
    ensures StuckAt(env, Running(env, w, k), k)
  {
  }

  /** Inside a stuck batch an earlier operation is answered from the journal and the stuck one is refused. */
  lemma InvokeStuck(env: Env, seg: Segment, batch: Batch, request: PowerRequest, i: nat, w: World, k: nat)
    requires StuckAt(env, w.tables, k) && batch.generation == env.generation && HandleOk(batch)
    requires i <= k && i < |batch.operations|
    requires OperationOf(env, seg.answers, request) == Some(batch.operations[i])
    ensures var (r, w') := Invoke(env, seg, batch, request, w);
            && w'.tables == w.tables && w'.executed == w.executed
            && (r.Success? ==> i < k && r.value.Returned?)
  {
  }

  lemma {:induction false} InvokeAllStuck(
    env: Env, seg: Segment, batch: Batch, requests: seq<PowerRequest>, i: nat, results: Results, w: World, k: nat)
    requires StuckAt(env, w.tables, k) && batch.generation == env.generation && HandleOk(batch)
    requires i <= k < |requests|
    requires OperationsOf(env, seg.answers, requests) == Some(batch.operations)
    ensures var (r, w') := InvokeAll(env, seg, batch, requests, i, results, w);
            r.Broken? && w'.tables == w.tables && w'.executed == w.executed
    decreases k - i
  {
    hide Invoke, HandleOk, StuckAt;
    if !seg.cancelled(w.tick) && seg.contextOk(w.tick + 1) {
      var w0 := w.(tick := w.tick + 2);
      assert OperationOf(env, seg.answers, requests[i]) == Some(batch.operations[i]);
      InvokeStuck(env, seg, batch, requests[i], i, w0, k);
      var (r, w') := Invoke(env, seg, batch, requests[i], w0);
      if r.Success? {
        InvokeAllStuck(env, seg, batch, requests, i + 1, results[requests[i].interruptId := r.value.value], w', k);
      }
    }
  }

  lemma PrepareStuck(env: Env, seg: Segment, requests: seq<PowerRequest>, w: World, k: nat)
    requires StuckAt(env, w.tables, k)
    ensures var (r, w') := Prepare(env, seg, requests, w);
            && w'.tables == w.tables && w'.executed == w.executed
            && (r.Success? ==>
                 && r.value.generation == env.generation && HandleOk(r.value)
                 && k < |requests|
                 && OperationsOf(env, seg.answers, requests) == Some(r.value.operations))
  {
  }

  /**
   Once an operation of the generation is stuck, no segment of any turn executes a Power, changes the journal
   or finishes after asking for Powers, whatever the Brain asks for and however it is resumed.
   */
  lemma StuckGenerationIsFrozen(env: Env, seg: Segment, p: Position, w: World, k: nat)
    requires StuckAt(env, w.tables, k)
    ensures var (r, w') := Drive(env, seg, p, w);
            && w'.tables == w.tables && w'.executed == w.executed && w'.sent == w.sent
            && (p.turn.status == PowerRequired ==> !r.Finished?)
  {
    hide Prepare, InvokeAll, Hand, StuckAt, HandleOk, ValidateBatch, IdsOf, OperationsOf;
    var batch := ValidateBatch(env, p.turn.powers);
    if batch.Some? {
      var w0 := w.(tick := w.tick + 2);
      PrepareStuck(env, seg, batch.value, w0, k);
      PrepareSendsNothing(env, seg, batch.value, w0);
      var (prepared, w1) := Prepare(env, seg, batch.value, w0);
      if prepared.Success? {
        InvokeAllStuck(env, seg, prepared.value, batch.value, 0, map[], w1, k);
        InvokeAllSendsNothing(env, seg, prepared.value, batch.value, 0, map[], w1);
      }
    }
  }
}
