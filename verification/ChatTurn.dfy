/**
 The durable Power batch (team/power_execution.py) and the loop that drives a turn (team/chat_orchestrator.py)
 as they run: objects and locals updated step by step, each proved to do what `ChatOrchestrator` specifies.
 */
module ChatTurn {
  import opened Wrappers
  import opened JsonTree
  import opened PowerJournal
  import Spec = ChatOrchestrator
  import opened ChatOrchestrator
  import Text

  // ---------------------------------------------------------------- operation identities

  function Generations(generations: seq<(string, int)>): Json {
    List(seq(|generations|, k requires 0 <= k < |generations| =>
      List([Str(generations[k].0), Int(generations[k].1)])))
  }

  /** `power_operation`: None where the source reports a conflict. */
  function PowerOperation(
    request: PowerRequest, containerId: string, image: string,
    secretGenerations: seq<(string, int)>, accountGenerations: seq<(string, int)>)
    : Option<Operation>
  {
    if containerId == "" || image == "" then None
    else
      Some(Operation(request.interruptId, Sha256(Obj(map[
        "assistant_container_id" := Str(containerId),
        "assistant_id" := Str(request.assistantId),
        "assistant_image" := Str(image),
        "account_generations" := Generations(accountGenerations),
        "input" := Obj(request.input),
        "power" := Str(request.power),
        "secret_generations" := Generations(secretGenerations)]))))
  }

  lemma GenerationsAreInjective(a: seq<(string, int)>, b: seq<(string, int)>)
    requires Generations(a) == Generations(b)
    ensures a == b
  {
    var x, y := Generations(a).items, Generations(b).items;
    assert |a| == |x| && |b| == |y|;
    forall k | 0 <= k < |a|
      ensures a[k] == b[k]
    {
      assert x[k].items[0] == Str(a[k].0) && x[k].items[1] == Int(a[k].1);
      assert y[k].items[0] == Str(b[k].0) && y[k].items[1] == Int(b[k].1);
    }
  }

  /** Equal operations mean the same request to the same workload under the same private state. */
  lemma PowerOperationCommits(
    a: PowerRequest, b: PowerRequest, containerA: string, containerB: string, imageA: string, imageB: string,
    secretsA: seq<(string, int)>, secretsB: seq<(string, int)>,
    accountsA: seq<(string, int)>, accountsB: seq<(string, int)>)
    requires PowerOperation(a, containerA, imageA, secretsA, accountsA).Some?
    ensures (PowerOperation(a, containerA, imageA, secretsA, accountsA)
             == PowerOperation(b, containerB, imageB, secretsB, accountsB))
       <==> (a == b && containerA == containerB && imageA == imageB
             && secretsA == secretsB && accountsA == accountsB)
  {
    var x := PowerOperation(a, containerA, imageA, secretsA, accountsA);
    var y := PowerOperation(b, containerB, imageB, secretsB, accountsB);
    if x == y {
      var f, g := x.value.fingerprint.preimage.fields, y.value.fingerprint.preimage.fields;
      assert f["assistant_container_id"] == g["assistant_container_id"];
      assert f["assistant_id"] == g["assistant_id"];
      assert f["assistant_image"] == g["assistant_image"];
      assert f["input"] == g["input"];
      assert f["power"] == g["power"];
      assert f["account_generations"] == g["account_generations"];
      assert f["secret_generations"] == g["secret_generations"];
      GenerationsAreInjective(secretsA, secretsB);
      GenerationsAreInjective(accountsA, accountsB);
    }
  }

  // ---------------------------------------------------------------- the durable batch

  /** What a turn has done to the world outside the journal. */
  class Effects {
    var sent: seq<Results>
    var executed: seq<Executed>
    var tick: nat

    constructor ()
      ensures sent == [] && executed == [] && tick == 0
    {
      sent, executed, tick := [], [], 0;
    }
  }

  /** A closed journal answers like one whose every transaction fails. */
  function Seen(seg: Segment, closed: bool): Segment {
    if closed then seg.(sqlOk := _ => false) else seg
  }

  class PowerBatch {
    const env: Env
    const seg: Segment
    const journal: PowerJournal
    const effects: Effects
    var batch: Option<Batch>
    var operations: map<string, Operation>

    constructor (env: Env, seg: Segment, journal: PowerJournal, effects: Effects)
      requires journal.config == env.config
      ensures this.env == env && this.seg == seg && this.journal == journal && this.effects == effects
      ensures batch.None? && Valid()
    {
      this.env, this.seg, this.journal, this.effects := env, seg, journal, effects;
      batch, operations := None, map[];
    }

    ghost predicate Valid()
      reads this
    {
      && journal.config == env.config
      && (batch.Some? ==>
           && HandleOk(batch.value)
           && forall operation :: operation in batch.value.operations <==>
                operation.interruptId in operations && operations[operation.interruptId] == operation)
    }

    ghost function World(): World
      reads this, journal, effects
    {
      Spec.World(journal.State(), effects.sent, effects.executed, effects.tick)
    }

    ghost function Segment(): Segment
      reads this, journal
    {
      Seen(seg, journal.closed)
    }

    method Prepare(requests: seq<PowerRequest>) returns (r: Result<(), ChatError>)
      requires Valid() && batch.None?
      modifies this, journal`batches, journal`operations, effects`tick
      ensures Valid()
      ensures var (prepared, w) := Spec.Prepare(env, Segment(), requests, old(World()));
              && World() == w
              && (r.Success? <==> prepared.Success?)
              && (r.Failure? ==> r.error == prepared.error && batch.None?)
              && (r.Success? ==> batch == Some(prepared.value))
    {
      hide PrepareTx, HandleOk, OperationsOf;
      var selected := OperationsOf(env, seg.answers, requests);
      if selected.None? {
        return Failure(JournalFailed(Conflict));
      }
      var made := journal.PrepareBatch(env.generation, env.thread, selected.value, seg.sqlOk(effects.tick));
      effects.tick := effects.tick + 1;
      if made.Failure? {
        return Failure(JournalFailed(made.error));
      }
      PreparedHandle(made.value, selected.value, old(journal.State()), seg.sqlOk(old(effects.tick)) && !journal.closed);
      batch := Some(made.value);
      operations := map operation | operation in selected.value :: operation.interruptId := operation;
      r := Success(());
    }

    lemma PreparedHandle(made: Batch, selected: seq<Operation>, t: Tables, usable: bool)
      requires PrepareTx(env.config, t, usable, env.generation, env.thread, selected).1 == Success(made)
      ensures HandleOk(made) && made.operations == selected
      ensures forall a, b :: a in selected && b in selected && a.interruptId == b.interruptId ==> a == b
    {
    }

    method Invoke(request: PowerRequest) returns (r: Result<PowerReply, ChatError>)
      requires Valid() && batch.Some?
      modifies journal`operations, effects`tick, effects`executed
      ensures (r, World()) == Spec.Invoke(env, Segment(), batch.value, request, old(World()))
    {
      hide BeginTx, SuspendTx, CompleteTx, Locate, HandleOk;
      if request.interruptId !in operations {
        return Failure(JournalFailed(Conflict));
      }
      var operation := operations[request.interruptId];
      if OperationOf(env, seg.answers, request) != Some(operation) {
        return Failure(JournalFailed(Conflict));
      }
      var begun := journal.Begin(batch.value, operation, seg.sqlOk(effects.tick));
      effects.tick := effects.tick + 1;
      if begun.Failure? {
        return Failure(JournalFailed(begun.error));
      }
      if begun.value.Cached? {
        return Success(Returned(begun.value.result));
      }
      r := Execute(request, operation);
    }

    /** A granted operation: run the Power, then record what came of it. */
    ghost function Executing(batch: Batch, request: PowerRequest, operation: Operation, w: World)
      : (Result<PowerReply, ChatError>, World)
      reads this, journal
    {
      var answers := AnswersFor(seg.answers, request.interruptId);
      var reply := env.power(request, answers);
      var ran := w.(executed := w.executed + [Executed(request, answers, reply)]);
      var usable := Segment().sqlOk(ran.tick);
      if reply.None? then (Failure(PowerFailed), ran)
      else
        var (t, settled) :=
          if reply.value.Suspended? then SuspendTx(ran.tables, usable, batch, operation)
          else CompleteTx(env.config, ran.tables, usable, batch, operation, reply.value.value);
        (if settled.Success? then Success(reply.value) else Failure(JournalFailed(settled.error)),
         ran.(tables := t, tick := ran.tick + 1))
    }

    method Execute(request: PowerRequest, operation: Operation) returns (r: Result<PowerReply, ChatError>)
      requires Valid() && batch.Some?
      modifies journal`operations, effects`tick, effects`executed
      ensures (r, World()) == Executing(batch.value, request, operation, old(World()))
    {
      hide SuspendTx, CompleteTx, HandleOk;
      var answers := AnswersFor(seg.answers, request.interruptId);
      var reply := env.power(request, answers);
      effects.executed := effects.executed + [Executed(request, answers, reply)];
      if reply.None? {
        return Failure(PowerFailed);
      }
      var settled;
      if reply.value.Suspended? {
        settled := journal.Suspend(batch.value, operation, seg.sqlOk(effects.tick));
      } else {
        settled := journal.Complete(batch.value, operation, reply.value.value, seg.sqlOk(effects.tick));
      }
      effects.tick := effects.tick + 1;
      r := if settled.Success? then Success(reply.value) else Failure(JournalFailed(settled.error));
    }

    /** Only the batch as prepared can be acknowledged; afterwards another one may be prepared. */
    method Delivered(requests: seq<PowerRequest>) returns (r: Result<(), ChatError>)
      requires Valid() && batch.Some?
      modifies this, journal`batches, journal`operations, effects`tick
      ensures Valid()
      ensures var expected := old(batch.value.operations);
              var same := |expected| == |requests|
                && forall k :: 0 <= k < |requests| ==> requests[k].interruptId == expected[k].interruptId;
              if same then
                var (t, done) :=
                  DeliverTx(env.config, old(journal.State()), Segment().sqlOk(old(effects.tick)), old(batch.value));
                && World() == old(World()).(tables := t, tick := old(effects.tick) + 1)
                && (if done.Success? then r.Success? && batch.None?
                    else r == Failure(JournalFailed(done.error)) && batch == old(batch))
              else
                r == Failure(JournalFailed(Conflict)) && World() == old(World()) && batch == old(batch)
    {
      var expected := batch.value.operations;
      if |expected| != |requests|
        || exists k :: 0 <= k < |requests| && requests[k].interruptId != expected[k].interruptId
      {
        return Failure(JournalFailed(Conflict));
      }
      var done := journal.Delivered(batch.value, seg.sqlOk(effects.tick));
      effects.tick := effects.tick + 1;
      if done.Failure? {
        return Failure(JournalFailed(done.error));
      }
      batch, operations := None, map[];
      r := Success(());
    }
  }

  // ---------------------------------------------------------------- validating a whole suspension

  /** Nothing is validated before every contract is declared and every interrupt id is new. */
  method ValidateWhole(env: Env, requests: seq<PowerRequest>) returns (r: Option<seq<PowerRequest>>)
    ensures r == ValidateBatch(env, requests)
  {
    if requests == [] {
      return None;
    }
    var seen: set<string> := {};
    for i := 0 to |requests|
      invariant seen == IdsOf(requests[..i])
      invariant RepeatsNoId(requests[..i])
      invariant forall k :: 0 <= k < i ==> (requests[k].assistantId, requests[k].power) in env.declared
    {
      if (requests[i].assistantId, requests[i].power) !in env.declared {
        return None;
      }
      if requests[i].interruptId in seen {
        var k :| 0 <= k < i && requests[..i][k].interruptId == requests[i].interruptId;
        assert requests[k].interruptId == requests[i].interruptId;
        return None;
      }
      assert IdsOf(requests[..i + 1]) == seen + {requests[i].interruptId} by {
        assert requests[..i + 1] == requests[..i] + [requests[i]];
        assert forall k :: 0 <= k < i ==> requests[..i + 1][k] == requests[..i][k];
      }
      assert forall k :: 0 <= k < i ==> requests[..i][k].interruptId in seen;
      seen := seen + {requests[i].interruptId};
    }
    assert requests[..|requests|] == requests;
    var validated: seq<PowerRequest> := [];
    for i := 0 to |requests|
      invariant |validated| == i
      invariant forall k :: 0 <= k < i ==>
        && env.validatePower(requests[k]).Some?
        && validated[k] == requests[k].(input := env.validatePower(requests[k]).value)
    {
      var safe := env.validatePower(requests[i]);
      if safe.None? {
        return None;
      }
      validated := validated + [requests[i].(input := safe.value)];
    }
    assert forall k :: 0 <= k < |requests| ==> env.validatePower(requests[k]).Some?;
    assert ValidateBatch(env, requests).Some? && ValidateBatch(env, requests).value == validated;
    r := Some(validated);
  }

  // ---------------------------------------------------------------- driving the turn

  /** One prepared batch, request by request. */
  method InvokeBatch(power: PowerBatch, requests: seq<PowerRequest>) returns (r: Progress, done: seq<InvokedPower>)
    requires power.Valid() && power.batch.Some?
    modifies power.journal`operations, power.effects`tick, power.effects`executed
    ensures (r, power.World())
         == InvokeAll(power.env, power.Segment(), power.batch.value, requests, 0, map[], old(power.World()))
    ensures r.AllDone? ==> done == InvokedBy(requests)
  {
    hide Invoke, HandleOk;
    var results: Results := map[];
    done := [];
    ghost var goal :=
      InvokeAll(power.env, power.Segment(), power.batch.value, requests, 0, map[], power.World());
    for i := 0 to |requests|
      invariant power.Valid()
      invariant done == InvokedBy(requests[..i])
      invariant goal == InvokeAll(power.env, power.Segment(), power.batch.value, requests, i, results, power.World())
    {
      var effects := power.effects;
      if power.seg.cancelled(effects.tick) {
        return Broken(Stopped), done;
      }
      if !power.seg.contextOk(effects.tick + 1) {
        return Broken(ContextChanged), done;
      }
      effects.tick := effects.tick + 2;
      var replied := power.Invoke(requests[i]);
      if replied.Failure? {
        return Broken(replied.error), done;
      }
      if replied.value.Suspended? {
        if !HumanKind(replied.value.payload) {
          return Broken(Orchestration), done;
        }
        return Interrupted(HumanInteraction(requests[i], replied.value.payload)), done;
      }
      results := results[requests[i].interruptId := replied.value.value];
      done := done + [InvokedPower(requests[i].assistantId, requests[i].power)];
    }
    assert requests[..|requests|] == requests;
    r := AllDone(results);
  }

  /** Resume the Brain with the batch's results, refuse repeated interrupts, then acknowledge the batch. */
  method HandOver(power: PowerBatch, requests: seq<PowerRequest>, results: Results, seen: set<string>, ghost p: Position)
    returns (r: Result<RuntimeTurn, ChatError>)
    requires power.Valid() && power.batch.Some? && p.seen == seen
    requires OperationsOf(power.env, power.seg.answers, requests) == Some(power.batch.value.operations)
    modifies power, power.journal`batches, power.journal`operations, power.effects`tick, power.effects`sent
    ensures power.Valid() && (r.Success? ==> power.batch.None?)
    ensures
      var (handed, w) := Hand(power.env, power.Segment(), p, old(power.batch.value), requests, results, old(power.World()));
      && power.World() == w
      && (r.Failure? ==> handed == Failure(r.error))
      && (r.Success? ==>
           handed == Success(Position(r.value, seen + IdsOf(requests), p.invoked + InvokedBy(requests), p.round + 1)))
  {
    hide DeliverTx, HandleOk, Received, InvokedBy;
    var effects := power.effects;
    if !power.seg.contextOk(effects.tick) {
      return Failure(ContextChanged);
    }
    effects.sent := effects.sent + [results];
    effects.tick := effects.tick + 1;
    var resumed := Received(power.env, effects.sent);
    if resumed.None? {
      return Failure(BrainFailed);
    }
    var seen' := seen + IdsOf(requests);
    if resumed.value.status == PowerRequired && seen' * IdsOf(resumed.value.powers) != {} {
      return Failure(Orchestration);
    }
    OperationsKeepIds(power.env, power.seg.answers, requests);
    var expected := power.batch.value.operations;
    assert |expected| == |requests| && forall k :: 0 <= k < |requests| ==> requests[k].interruptId == expected[k].interruptId;
    ghost var acknowledged := DeliverTx(
      power.env.config, power.journal.State(), power.Segment().sqlOk(effects.tick), power.batch.value).1;
    var delivered := power.Delivered(requests);
    assert delivered.Success? <==> acknowledged.Success?;
    assert delivered.Failure? ==> delivered.error == JournalFailed(acknowledged.error);
    r := if delivered.Failure? then Failure(delivered.error) else Success(resumed.value);
  }

  lemma OperationsKeepIds(env: Env, answers: Answers, requests: seq<PowerRequest>)
    requires OperationsOf(env, answers, requests).Some?
    ensures var operations := OperationsOf(env, answers, requests).value;
            && |operations| == |requests|
            && forall k :: 0 <= k < |requests| ==> operations[k].interruptId == requests[k].interruptId
  {
  }

  method DriveTurn(power: PowerBatch, continuation: ChatContinuation) returns (r: DriveResult)
    requires power.Valid() && power.batch.None?
    modifies power, power.journal`batches, power.journal`operations,
      power.effects`tick, power.effects`sent, power.effects`executed
    ensures (r, power.World())
         == ContinueAfterPause(power.env, power.Segment(), continuation, old(power.World()))
  {
    hide ValidateBatch, Spec.Prepare, InvokeAll, Hand, HandleOk, IdsOf, InvokedBy, OperationsOf, Text.Sorted;
    var turn := continuation.turn;
    var invoked := continuation.invoked;
    var seen := set id | id in continuation.seenInterrupts;
    var round := continuation.roundIndex;
    ghost var goal := ContinueAfterPause(power.env, power.Segment(), continuation, power.World());
    while round <= MAX_POWER_ROUNDS
      invariant power.Valid() && power.batch.None?
      invariant power.journal.closed == old(power.journal.closed)
      invariant goal == Drive(power.env, power.Segment(), Position(turn, seen, invoked, round), power.World())
      decreases MAX_POWER_ROUNDS + 1 - round
    {
      var effects := power.effects;
      if power.seg.cancelled(effects.tick) {
        return Failed(Stopped);
      }
      if turn.status == TurnCompleted {
        if !power.seg.contextOk(effects.tick + 1) {
          return Failed(ContextChanged);
        }
        return Finished(ChatOutcome(turn.reply, invoked));
      }
      if round == MAX_POWER_ROUNDS {
        return Failed(Orchestration);
      }
      if !power.seg.contextOk(effects.tick + 1) {
        return Failed(ContextChanged);
      }
      var batch := ValidateWhole(power.env, turn.powers);
      if batch.None? {
        return Failed(Orchestration);
      }
      var requests := batch.value;
      if seen * IdsOf(requests) != {} {
        return Failed(Orchestration);
      }
      if power.seg.pauseBefore(requests) {
        return Paused(ChatSuspension(ChatContinuation(turn, Text.Sorted(seen), invoked, round), requests, None));
      }
      effects.tick := effects.tick + 2;
      PreparedIfSo(power.env, power.Segment(), requests, power.World());
      var prepared := power.Prepare(requests);
      if prepared.Failure? {
        return Failed(prepared.error);
      }
      var progress, done := InvokeBatch(power, requests);
      match progress {
        case Broken(e) =>
          return Failed(e);
        case Interrupted(h) =>
          return Paused(ChatSuspension(ChatContinuation(turn, Text.Sorted(seen), invoked, round), requests, Some(h)));
        case AllDone(results) =>
          var resumed := HandOver(power, requests, results, seen, Position(turn, seen, invoked, round));
          if resumed.Failure? {
            return Failed(resumed.error);
          }
          seen := seen + IdsOf(requests);
          invoked := invoked + done;
          turn := resumed.value;
          round := round + 1;
      }
    }
    r := Failed(Orchestration);
  }

  lemma PreparedIfSo(env: Env, seg: Segment, requests: seq<PowerRequest>, w: World)
    ensures Spec.Prepare(env, seg, requests, w).0.Success? ==>
              OperationsOf(env, seg.answers, requests) == Some(Spec.Prepare(env, seg, requests, w).0.value.operations)
  {
  }

  /** Start the Brain and drive the turn until it ends or pauses. */
  method StartTurn(power: PowerBatch) returns (r: DriveResult)
    requires power.Valid() && power.batch.None?
    modifies power, power.journal`batches, power.journal`operations,
      power.effects`tick, power.effects`sent, power.effects`executed
    ensures (r, power.World()) == RunUntilPause(power.env, power.Segment(), old(power.World()))
  {
    hide Drive, Received;
    var effects := power.effects;
    if power.seg.cancelled(effects.tick) {
      return Failed(Stopped);
    }
    if !power.seg.contextOk(effects.tick + 1) {
      return Failed(ContextChanged);
    }
    var turn := Received(power.env, effects.sent);
    if turn.None? {
      return Failed(BrainFailed);
    }
    effects.tick := effects.tick + 2;
    var start := ChatContinuation(turn.value, [], [], 0);
    assert AsPosition(start) == Position(turn.value, {}, [], 0);
    r := DriveTurn(power, start);
  }
}
