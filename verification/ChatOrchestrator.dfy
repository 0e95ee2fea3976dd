/**
 One chat turn between the Brain and the Assistant Powers (team/chat_orchestrator.py) over durable batches
 (team/power_execution.py), as functions from the world before to the result and the world after.

 The Brain is a function of the results it has been sent, a Power a function of its request and the human
 answers given so far. Every poll of `cancelled` and `validate_context` and every journal transaction uses
 one tick of the segment's schedules, so a stop, a changed context or a database fault may come anywhere.
 */
module ChatOrchestrator {
  import opened Wrappers
  import opened JsonTree
  import opened PowerJournal
  import Text

  const MAX_POWER_ROUNDS := 8
  const MAX_POWER_REQUESTS := 64

  type Results = map<string, Json>
  type Answers = map<string, seq<Json>>

  datatype PowerRequest = PowerRequest(interruptId: string, assistantId: string, power: string, input: map<string, Json>)

  datatype TurnStatus = TurnCompleted | PowerRequired

  datatype RuntimeTurn = RuntimeTurn(status: TurnStatus, reply: string, powers: seq<PowerRequest>)

  /** Human interactions suspend a Power; any other reply is its result. */
  datatype PowerReply = Returned(value: Json) | Suspended(payload: map<string, Json>)

  datatype InvokedPower = InvokedPower(assistantId: string, power: string)

  datatype ChatOutcome = ChatOutcome(reply: string, powers: seq<InvokedPower>)

  datatype ChatContinuation = ChatContinuation(
    turn: RuntimeTurn,
    seenInterrupts: seq<string>,
    invoked: seq<InvokedPower>,
    roundIndex: nat)

  datatype HumanInteraction = HumanInteraction(request: PowerRequest, payload: map<string, Json>)

  datatype ChatSuspension = ChatSuspension(
    continuation: ChatContinuation,
    requests: seq<PowerRequest>,
    interaction: Option<HumanInteraction>)

  datatype ChatError =
    | Stopped
    | ContextChanged
    | Orchestration
    | BrainFailed
    | PowerFailed
    | JournalFailed(cause: JournalError)

  datatype DriveResult =
    | Finished(outcome: ChatOutcome)
    | Paused(suspension: ChatSuspension)
    | Failed(error: ChatError)

  /** What stays fixed during one turn. */
  datatype Env = Env(
    config: Config,
    generation: string,
    thread: string,
    brain: seq<Results> -> Option<RuntimeTurn>,
    power: (PowerRequest, seq<Json>) -> Option<PowerReply>,
    declared: set<(string, string)>,
    validatePower: PowerRequest -> Option<map<string, Json>>,
    fingerprint: PowerRequest -> Option<Digest>,
    preflight: (PowerRequest, seq<Json>) -> bool)

  /** What one uninterrupted stretch of the turn sees. */
  datatype Segment = Segment(
    answers: Answers,
    pauseBefore: seq<PowerRequest> -> bool,
    cancelled: nat -> bool,
    contextOk: nat -> bool,
    sqlOk: nat -> bool)

  datatype Executed = Executed(request: PowerRequest, answers: seq<Json>, reply: Option<PowerReply>)

  /** The journal, the results the Brain has received, every Power execution so far, and the tick. */
  datatype World = World(tables: Tables, sent: seq<Results>, executed: seq<Executed>, tick: nat)

  function AnswersFor(answers: Answers, id: string): seq<Json> {
    if id in answers then answers[id] else []
  }

  function IdsOf(requests: seq<PowerRequest>): set<string> {
    set k | 0 <= k < |requests| :: requests[k].interruptId
  }

  predicate RepeatsNoId(requests: seq<PowerRequest>) {
    forall i, j :: 0 <= i < j < |requests| ==> requests[i].interruptId != requests[j].interruptId
  }

  // ---------------------------------------------------------------- the Brain's closed response contract

  const MAX_REPLY_CHARS := 64 * 1024

  predicate LowerAlphanumeric(c: char) {
    'a' <= c <= 'z' || '0' <= c <= '9'
  }

  /** Lower-case words of letters and digits, starting with a letter, joined by single separators. */
  predicate PowerId(s: string) {
    && s != ""
    && 'a' <= s[0] <= 'z'
    && LowerAlphanumeric(s[|s| - 1])
    && (forall k :: 0 <= k < |s| ==> LowerAlphanumeric(s[k]) || s[k] in "._-")
    && forall k :: 0 <= k < |s| - 1 ==> LowerAlphanumeric(s[k]) || LowerAlphanumeric(s[k + 1])
  }

  predicate WellNamed(request: PowerRequest) {
    SafeId(request.interruptId) && PowerId(request.assistantId) && PowerId(request.power)
  }

  /** What `_parse_turn` accepts. */
  predicate TurnOk(turn: RuntimeTurn) {
    && |turn.reply| <= MAX_REPLY_CHARS
    && |turn.powers| <= MAX_POWER_REQUESTS
    && (forall k :: 0 <= k < |turn.powers| ==> WellNamed(turn.powers[k]))
    && (turn.status == TurnCompleted ==> !Text.Blank(turn.reply) && turn.powers == [])
    && (turn.status == PowerRequired ==> turn.reply == "" && turn.powers != [])
  }

  function Received(env: Env, sent: seq<Results>): (turn: Option<RuntimeTurn>)
    ensures turn.Some? ==> TurnOk(turn.value)
  {
    var raw := env.brain(sent);
    if raw.Some? && TurnOk(raw.value) then raw else None
  }

  // ---------------------------------------------------------------- validating a whole suspension

  /** Every request declared, no id repeated, every input accepted; otherwise nothing runs at all. */
  function ValidateBatch(env: Env, requests: seq<PowerRequest>): (batch: Option<seq<PowerRequest>>)
    ensures batch.Some? ==>
      && batch.value != [] && |batch.value| == |requests|
      && RepeatsNoId(batch.value)
      && forall k :: 0 <= k < |requests| ==> batch.value[k].interruptId == requests[k].interruptId
  {
    if requests == [] || !RepeatsNoId(requests) then None
    else if exists k :: 0 <= k < |requests| && (requests[k].assistantId, requests[k].power) !in env.declared then None
    else if exists k :: 0 <= k < |requests| && env.validatePower(requests[k]).None? then None
    else
      Some(seq(|requests|, k requires 0 <= k < |requests| && env.validatePower(requests[k]).Some? =>
        requests[k].(input := env.validatePower(requests[k]).value)))
  }

  // ---------------------------------------------------------------- the durable batch

  /** `PowerBatch._operation`: the Assistant must be bound and the private envelope must fit. */
  function OperationOf(env: Env, answers: Answers, request: PowerRequest): Option<Operation> {
    if env.fingerprint(request).None? || !env.preflight(request, AnswersFor(answers, request.interruptId)) then None
    else Some(Operation(request.interruptId, env.fingerprint(request).value))
  }

  function OperationsOf(env: Env, answers: Answers, requests: seq<PowerRequest>): Option<seq<Operation>> {
    if exists k :: 0 <= k < |requests| && OperationOf(env, answers, requests[k]).None? then None
    else
      Some(seq(|requests|, k requires 0 <= k < |requests| && OperationOf(env, answers, requests[k]).Some? =>
        OperationOf(env, answers, requests[k]).value))
  }

  function Prepare(env: Env, seg: Segment, requests: seq<PowerRequest>, w: World): (Result<Batch, ChatError>, World) {
    match OperationsOf(env, seg.answers, requests)
    case None => (Failure(JournalFailed(Conflict)), w)
    case Some(operations) =>
      var (t, r) := PrepareTx(env.config, w.tables, seg.sqlOk(w.tick), env.generation, env.thread, operations);
      var w' := w.(tables := t, tick := w.tick + 1);
      (if r.Success? then Success(r.value) else Failure(JournalFailed(r.error)), w')
  }

  predicate Holds(batch: Batch, operation: Operation) {
    operation in batch.operations
  }

  ghost function Invoke(env: Env, seg: Segment, batch: Batch, request: PowerRequest, w: World)
    : (Result<PowerReply, ChatError>, World)
  {
    var operation := OperationOf(env, seg.answers, request);
    if operation.None? || !Holds(batch, operation.value) then (Failure(JournalFailed(Conflict)), w)
    else
      var (t, begun) := BeginTx(env.config, w.tables, seg.sqlOk(w.tick), batch, operation.value);
      var w1 := w.(tables := t, tick := w.tick + 1);
      match begun
      case Failure(e) => (Failure(JournalFailed(e)), w1)
      case Success(Cached(value)) => (Success(Returned(value)), w1)
      case Success(Execute) =>
        var answers := AnswersFor(seg.answers, request.interruptId);
        var reply := env.power(request, answers);
        var w2 := w1.(executed := w1.executed + [Executed(request, answers, reply)]);
        match reply
        case None => (Failure(PowerFailed), w2)
        case Some(Suspended(payload)) =>
          var (t', r) := SuspendTx(w2.tables, seg.sqlOk(w2.tick), batch, operation.value);
          var w3 := w2.(tables := t', tick := w2.tick + 1);
          (if r.Success? then Success(Suspended(payload)) else Failure(JournalFailed(r.error)), w3)
        case Some(Returned(value)) =>
          var (t', r) := CompleteTx(env.config, w2.tables, seg.sqlOk(w2.tick), batch, operation.value, value);
          var w3 := w2.(tables := t', tick := w2.tick + 1);
          (if r.Success? then Success(Returned(value)) else Failure(JournalFailed(r.error)), w3)
  }

  // ---------------------------------------------------------------- one round

  datatype Progress =
    | AllDone(results: Results)
    | Interrupted(interaction: HumanInteraction)
    | Broken(error: ChatError)

  predicate HumanKind(payload: map<string, Json>) {
    "kind" in payload && payload["kind"] in {Str("request"), Str("approval")}
  }

  /** The requests of a prepared batch from index `i` on, in order. */
  ghost function InvokeAll(
    env: Env, seg: Segment, batch: Batch, requests: seq<PowerRequest>, i: nat, results: Results, w: World)
    : (Progress, World)
    requires i <= |requests|
    decreases |requests| - i
  {
    if i == |requests| then (AllDone(results), w)
    else if seg.cancelled(w.tick) then (Broken(Stopped), w)
    else if !seg.contextOk(w.tick + 1) then (Broken(ContextChanged), w)
    else
      var (r, w') := Invoke(env, seg, batch, requests[i], w.(tick := w.tick + 2));
      match r
      case Failure(e) => (Broken(e), w')
      case Success(Suspended(payload)) =>
        (if HumanKind(payload) then Interrupted(HumanInteraction(requests[i], payload)) else Broken(Orchestration), w')
      case Success(Returned(value)) =>
        InvokeAll(env, seg, batch, requests, i + 1, results[requests[i].interruptId := value], w')
  }

  function InvokedBy(requests: seq<PowerRequest>): seq<InvokedPower> {
    seq(|requests|, k requires 0 <= k < |requests| => InvokedPower(requests[k].assistantId, requests[k].power))
  }

  /** One iteration's position: the Brain's turn, what has been seen and invoked, and the round. */
  datatype Position = Position(turn: RuntimeTurn, seen: set<string>, invoked: seq<InvokedPower>, round: nat)

  function AsContinuation(p: Position): ChatContinuation {
    ChatContinuation(p.turn, Text.Sorted(p.seen), p.invoked, p.round)
  }

  function AsPosition(c: ChatContinuation): Position {
    Position(c.turn, (set x | x in c.seenInterrupts), c.invoked, c.roundIndex)
  }

  /** Resume the Brain with one batch's results, then acknowledge the batch. */
  ghost function Hand(
    env: Env, seg: Segment, p: Position, batch: Batch, requests: seq<PowerRequest>, results: Results, w: World)
    : (Result<Position, ChatError>, World)
  {
    if !seg.contextOk(w.tick) then (Failure(ContextChanged), w)
    else
      var seen := p.seen + IdsOf(requests);
      var sent := w.sent + [results];
      var w1 := w.(sent := sent, tick := w.tick + 1);
      match Received(env, sent)
      case None => (Failure(BrainFailed), w1)
      case Some(resumed) =>
        if resumed.status == PowerRequired && seen * IdsOf(resumed.powers) != {} then (Failure(Orchestration), w1)
        else
          var (t, r) := DeliverTx(env.config, w1.tables, seg.sqlOk(w1.tick), batch);
          var w2 := w1.(tables := t, tick := w1.tick + 1);
          if r.Failure? then (Failure(JournalFailed(r.error)), w2)
          else (Success(Position(resumed, seen, p.invoked + InvokedBy(requests), p.round + 1)), w2)
  }

  /** `_drive`: at most `MAX_POWER_ROUNDS` rounds, pausing before or inside a batch. */
  ghost function Drive(env: Env, seg: Segment, p: Position, w: World): (DriveResult, World)
    decreases MAX_POWER_ROUNDS + 1 - p.round
  {
    if p.round > MAX_POWER_ROUNDS then (Failed(Orchestration), w)
    else if seg.cancelled(w.tick) then (Failed(Stopped), w)
    else if p.turn.status == TurnCompleted then
      if !seg.contextOk(w.tick + 1) then (Failed(ContextChanged), w)
      else (Finished(ChatOutcome(p.turn.reply, p.invoked)), w)
    else if p.round == MAX_POWER_ROUNDS then (Failed(Orchestration), w)
    else if !seg.contextOk(w.tick + 1) then (Failed(ContextChanged), w)
    else
      match ValidateBatch(env, p.turn.powers)
      case None => (Failed(Orchestration), w)
      case Some(requests) =>
        if p.seen * IdsOf(requests) != {} then (Failed(Orchestration), w)
        else if seg.pauseBefore(requests) then (Paused(ChatSuspension(AsContinuation(p), requests, None)), w)
        else
          match Prepare(env, seg, requests, w.(tick := w.tick + 2))
          case (Failure(e), w1) => (Failed(e), w1)
          case (Success(batch), w1) =>
            match InvokeAll(env, seg, batch, requests, 0, map[], w1)
            case (Broken(e), w2) => (Failed(e), w2)
            case (Interrupted(h), w2) => (Paused(ChatSuspension(AsContinuation(p), requests, Some(h))), w2)
            case (AllDone(results), w2) =>
              match Hand(env, seg, p, batch, requests, results, w2)
              case (Failure(e), w3) => (Failed(e), w3)
              case (Success(next), w3) => Drive(env, seg, next, w3)
  }

  ghost function ContinueAfterPause(env: Env, seg: Segment, c: ChatContinuation, w: World): (DriveResult, World) {
    Drive(env, seg, AsPosition(c), w)
  }

  ghost function RunUntilPause(env: Env, seg: Segment, w: World): (DriveResult, World) {
    if seg.cancelled(w.tick) then (Failed(Stopped), w)
    else if !seg.contextOk(w.tick + 1) then (Failed(ContextChanged), w)
    else
      match Received(env, w.sent)
      case None => (Failed(BrainFailed), w)
      case Some(turn) => Drive(env, seg, Position(turn, {}, [], 0), w.(tick := w.tick + 2))
  }

  /** A continuation lists exactly the interrupts seen so far, so nothing is lost by pausing. */
  lemma ContinuationKeepsPosition(p: Position)
    ensures AsPosition(AsContinuation(p)) == p
  {
  }
}
