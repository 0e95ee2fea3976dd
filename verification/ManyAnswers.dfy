/**
 A turn that is paused with answers for 65 interrupts: a round of 64 Powers that each ask a human once, and a
 second round whose only Power keeps asking. Its pause is encoded and can never be decoded.
 */
module ManyAnswers {
  import opened Wrappers
  import opened JsonTree
  import opened PowerJournal
  import opened ChatOrchestrator
  import opened PauseTransparency
  import opened StoredPauses
  import Codec = ContinuationCodec
  import Text

  // ---------------------------------------------------------------- undisturbed batches that ask

  /** The Power runs and asks a human. */
  ghost predicate Asks(env: Env, answers: Answers, request: PowerRequest, payload: map<string, Json>) {
    && OperationOf(env, answers, request).Some?
    && env.power(request, AnswersFor(answers, request.interruptId)) == Some(Suspended(payload))
  }

  lemma AskNext(
    env: Env, seg: Segment, requests: seq<PowerRequest>, w: World, base: seq<Executed>, k: nat, payload: map<string, Json>)
    requires Undisturbed(seg) && Inside(env, seg.answers, requests, w, base, k) && k < |requests|
    requires HandleOk(HandleFor(env, requests)) && RepeatsNoId(requests)
    requires Asks(env, seg.answers, requests[k], payload)
    ensures var (r, w') := Invoke(env, seg, HandleFor(env, requests), requests[k], w);
            && r == Success(Suspended(payload))
            && w'.tables == w.tables && w'.sent == w.sent
            && Inside(env, seg.answers, requests, w', base, k)
  {
    hide Locate, SuspendTx, HandleOk, RepeatsNoId, AllResolve, Durable;
    var batch := HandleFor(env, requests);
    var answers := AnswersFor(seg.answers, requests[k].interruptId);
    assert batch.operations[k] in batch.operations;
    assert OperationOf(env, seg.answers, requests[k]) == Some(batch.operations[k]);
    BeginNext(env, seg.answers, requests, w, base, k);
    CompletingAppend(w.executed, Executed(requests[k], answers, Some(Suspended(payload))));
    SuspendNext(env, seg.answers, requests, w, base, k, true);
  }

  /** With `k` operations in the journal and the first `j` resolved, the batch gets to its j-th operation. */
  lemma {:induction false} QuietBatch(
    env: Env, seg: Segment, requests: seq<PowerRequest>, i: nat, results: Results, w: World, base: seq<Executed>,
    k: nat, j: nat, payload: map<string, Json>)
    requires Undisturbed(seg) && Inside(env, seg.answers, requests, w, base, k)
    requires HandleOk(HandleFor(env, requests)) && RepeatsNoId(requests)
    requires i <= k <= j <= |requests| && HumanKind(payload)
    requires forall n :: 0 <= n < j ==> Resolves(env, seg.answers, requests[n])
    requires j < |requests| ==> Asks(env, seg.answers, requests[j], payload)
    ensures var (progress, w') := InvokeAll(env, seg, HandleFor(env, requests), requests, i, results, w);
            && w'.sent == w.sent && w'.tables.batches == w.tables.batches
            && (if j < |requests| then progress == Interrupted(HumanInteraction(requests[j], payload)) else progress.AllDone?)
            && Inside(env, seg.answers, requests, w', base, j)
    decreases |requests| - i
  {
    hide Invoke, HandleOk, Durable, RepeatsNoId, Asks, Resolves, RowsAt, Committed, Entries, Completing;
    if i < |requests| {
      var w0 := w.(tick := w.tick + 2);
      assert Inside(env, seg.answers, requests, w0, base, k);
      var (r, w1) := Invoke(env, seg, HandleFor(env, requests), requests[i], w0);
      InvokeKeepsKeys(env, seg, HandleFor(env, requests), requests[i], w0);
      if i < k {
        InvokeCompleted(env, seg, requests, i, w0, base, k);
        QuietBatch(env, seg, requests, i + 1, results[requests[i].interruptId := r.value.value], w1, base, k, j, payload);
      } else if i < j {
        InvokeNext(env, seg, requests, w0, base, k);
        QuietBatch(env, seg, requests, i + 1, results[requests[i].interruptId := r.value.value], w1, base, k + 1, j, payload);
      } else {
        AskNext(env, seg, requests, w0, base, k, payload);
      }
    }
  }

  /** A pending batch is prepared again without a trace. */
  lemma PrepareAgain(env: Env, seg: Segment, requests: seq<PowerRequest>, w: World, base: seq<Executed>, k: nat)
    requires CanPrepare(env, seg.answers, requests) && seg.sqlOk(w.tick)
    requires Inside(env, seg.answers, requests, w, base, k)
    ensures Prepare(env, seg, requests, w).0.Success?
    ensures Prepare(env, seg, requests, w).1.tables == w.tables
  {
    var operations := OperationsOf(env, seg.answers, requests).value;
    assert operations == Committed(env, requests);
    var batch := HandleFor(env, requests);
    assert RowsMatch(RowsOf(w.tables, env.generation), batch);
  }

  // ---------------------------------------------------------------- the turn

  const QUESTION := map["kind" := Str("request")]
  const YES := Bool(true)

  function Id(n: nat): (id: string)
    ensures |id| == n + 1
  {
    seq(n + 1, _ => 'q')
  }

  function Ask(n: nat): PowerRequest {
    PowerRequest(Id(n), "crm", "find", map[])
  }

  function First(): (requests: seq<PowerRequest>)
    ensures |requests| == 64 && forall n :: 0 <= n < 64 ==> requests[n] == Ask(n)
  {
    seq(64, n requires 0 <= n < 64 => Ask(n))
  }

  function Last(): seq<PowerRequest> {
    [Ask(64)]
  }

  function FirstTurn(): RuntimeTurn {
    RuntimeTurn(PowerRequired, "", First())
  }

  function LastTurn(): RuntimeTurn {
    RuntimeTurn(PowerRequired, "", Last())
  }

  function Curious(): Env {
    Env(
      Config(4, 64, 1024, _ => 1),
      "team-1", "thread-1",
      (sent: seq<Results>) => Some(if sent == [] then FirstTurn() else LastTurn()),
      (request: PowerRequest, answers: seq<Json>) =>
        Some(if answers == [] || request.interruptId == Id(64) then Suspended(QUESTION) else Returned(YES)),
      {("crm", "find")},
      (request: PowerRequest) => Some(request.input),
      (request: PowerRequest) => Some(Sha256(Str(request.interruptId))),
      (request: PowerRequest, answers: seq<Json>) => true)
  }

  /** One answer for each of the first `m` interrupts. */
  function Given(m: nat): Answers {
    if m == 0 then map[] else Given(m - 1)[Id(m - 1) := [YES]]
  }

  lemma {:induction false} GivenIs(m: nat, n: nat)
    ensures AnswersFor(Given(m), Id(n)) == if n < m then [YES] else []
    ensures |Given(m)| == m
    ensures forall id :: id in Given(m) ==> Given(m)[id] == [YES] && |id| <= m
  {
    if m > 0 {
      GivenIs(m - 1, n);
      assert |Id(m - 1)| == m;
      assert Id(m - 1) !in Given(m - 1);
    }
  }

  lemma IdsAreSafe(n: nat)
    requires n <= 64
    ensures SafeId(Id(n)) && WellNamed(Ask(n))
  {
    assert forall k :: 0 <= k < n + 1 ==> Id(n)[k] == 'q';
    NamesAreOk();
  }

  lemma NamesAreOk()
    ensures PowerId("crm") && PowerId("find") && SafeId("team-1") && SafeId("thread-1")
  {
  }

  lemma TurnsAreOk()
    ensures TurnOk(FirstTurn()) && TurnOk(LastTurn())
    ensures RepeatsNoId(First()) && RepeatsNoId(Last())
    ensures ValidateBatch(Curious(), First()) == Some(First()) && ValidateBatch(Curious(), Last()) == Some(Last())
  {
    forall n | 0 <= n <= 64
      ensures WellNamed(Ask(n))
    {
      IdsAreSafe(n);
    }
    hide WellNamed;
    assert forall i, j :: 0 <= i < j < 64 ==> |First()[i].interruptId| != |First()[j].interruptId|;
    assert ValidateBatch(Curious(), First()).value == First();
    assert ValidateBatch(Curious(), Last()).value == Last();
  }

  lemma RoundsShareNoId()
    ensures IdsOf(First()) * IdsOf(Last()) == {}
  {
    forall id | id in IdsOf(First())
      ensures |id| <= 64
    {
    }
    forall id | id in IdsOf(Last())
      ensures |id| == 65
    {
    }
  }

  lemma BatchCanPrepare(answers: Answers, requests: seq<PowerRequest>)
    requires requests == First() || requests == Last()
    ensures CanPrepare(Curious(), answers, requests)
    ensures HandleOk(HandleFor(Curious(), requests)) && RepeatsNoId(requests)
  {
    TurnsAreOk();
    NamesAreOk();
    hide TurnOk, ValidateBatch, SafeId;
    var operations := OperationsOf(Curious(), answers, requests).value;
    forall k | 0 <= k < |operations|
      ensures SafeId(operations[k].interruptId) && operations[k].interruptId == requests[k].interruptId
    {
      IdsAreSafe(if requests == First() then k else 64);
    }
    assert operations == Committed(Curious(), requests);
  }

  lemma YesIsDurable()
    ensures Durable(Curious().config, YES)
  {
    hide First, Last, Id;
  }

  lemma PowerBehaves(m: nat, n: nat)
    requires n <= 64
    ensures n < m && n < 64 ==> Resolves(Curious(), Given(m), Ask(n))
    ensures n == m || n == 64 ==> Asks(Curious(), Given(m), Ask(n), QUESTION)
  {
    hide First, Last, Id, Given, Durable;
    GivenIs(m, n);
    YesIsDurable();
    assert n < 64 ==> Id(n) != Id(64) by {
      assert |Id(n)| == n + 1 && |Id(64)| == 65;
    }
  }

  function Start(): Position {
    Position(FirstTurn(), {}, [], 0)
  }

  /** The pause at which the m-th Power of the first round asks. */
  function Pause(m: nat): ChatSuspension
    requires m < 64
  {
    ChatSuspension(AsContinuation(Start()), First(), Some(HumanInteraction(First()[m], QUESTION)))
  }

  function SecondPosition(): Position {
    Position(LastTurn(), IdsOf(First()), InvokedBy(First()), 1)
  }

  function LastPause(): ChatSuspension {
    ChatSuspension(AsContinuation(SecondPosition()), Last(), Some(HumanInteraction(Last()[0], QUESTION)))
  }

  /** The turn of this position is paused with its batch pending and nothing of other Teams in the journal. */
  ghost predicate Waiting(answers: Answers, requests: seq<PowerRequest>, w: World, base: seq<Executed>, k: nat) {
    && Inside(Curious(), answers, requests, w, base, k)
    && w.tables.batches.Keys == {"team-1"}
  }

  /** A prepared round up to the Power that asks, or to its end. */
  lemma RoundGoes(m: nat, requests: seq<PowerRequest>, w: World, base: seq<Executed>, k: nat, j: nat)
    requires Waiting(Given(m), requests, w, base, k) && k <= j
    requires (requests == First() && j == m <= 64) || (requests == Last() && j == 0)
    ensures var seg := Quiet(Given(m));
            var (prepared, w1) := Prepare(Curious(), seg, requests, w);
            var (progress, w2) := InvokeAll(Curious(), seg, HandleFor(Curious(), requests), requests, 0, map[], w1);
            && prepared == Success(HandleFor(Curious(), requests))
            && w2.sent == w.sent
            && (if j < |requests| then progress == Interrupted(HumanInteraction(requests[j], QUESTION)) else progress.AllDone?)
            && Waiting(Given(m), requests, w2, base, j)
  {
    hide ValidateBatch, Inside, CanPrepare, HandleFor, HandleOk, RepeatsNoId, InvokeAll, Prepare, Asks, Resolves;
    var env, seg := Curious(), Quiet(Given(m));
    BatchCanPrepare(Given(m), requests);
    TurnsAreOk();
    PrepareAgain(env, seg, requests, w, base, k);
    var p := if requests == First() then Start() else SecondPosition();
    PrepareEnters(env, seg, p, requests, w, base, k);
    var w1 := Prepare(env, seg, requests, w).1;
    forall n | 0 <= n < j
      ensures Resolves(env, seg.answers, requests[n])
    {
      PowerBehaves(m, n);
    }
    if j < |requests| {
      PowerBehaves(m, if requests == First() then j else 64);
    }
    QuietBatch(env, seg, requests, 0, map[], w1, base, k, j, QUESTION);
  }

  lemma FirstIsReceived(sent: seq<Results>)
    ensures Received(Curious(), sent) == Some(if sent == [] then FirstTurn() else LastTurn())
  {
    TurnsAreOk();
    hide TurnOk;
  }

  lemma AlwaysFingerprinted(requests: seq<PowerRequest>)
    ensures forall j :: 0 <= j < |requests| ==> Curious().fingerprint(requests[j]).Some?
  {
  }

  /** The first round pauses at the first Power that has no answer yet. */
  lemma FirstRoundPauses(m: nat, w: World, base: seq<Executed>, k: nat)
    requires m < 64 && k <= m && Waiting(Given(m), First(), w, base, k)
    ensures var (r, after) := Drive(Curious(), Quiet(Given(m)), Start(), w);
            && r == Paused(Pause(m)) && after.sent == w.sent
            && Waiting(Given(m), First(), after, base, m)
  {
    hide Drive, ValidateBatch, HandleFor, InvokeAll, Prepare, AsContinuation, First, Waiting, Curious, IdsOf;
    TurnsAreOk();
    var w0 := w.(tick := w.tick + 2);
    WaitingIgnoresTick(Given(m), First(), w, w0, base, k);
    RoundGoes(m, First(), w0, base, k, m);
    AlwaysFingerprinted(First());
    InterruptedRoundPauses(Curious(), Quiet(Given(m)), Start(), First(), HandleFor(Curious(), First()),
                           HumanInteraction(First()[m], QUESTION), w);
  }

  lemma WaitingIgnoresTick(answers: Answers, requests: seq<PowerRequest>, w: World, w': World, base: seq<Executed>, k: nat)
    requires Waiting(answers, requests, w, base, k) && w'.tables == w.tables && w'.executed == w.executed
    ensures Waiting(answers, requests, w', base, k)
  {
  }

  /** The second round pauses at its only Power, with any answers. */
  lemma LastRoundPauses(m: nat, w: World, base: seq<Executed>)
    requires Waiting(Given(m), Last(), w, base, 0)
    ensures var (r, after) := Drive(Curious(), Quiet(Given(m)), SecondPosition(), w);
            && r == Paused(LastPause()) && after.sent == w.sent
            && Waiting(Given(m), Last(), after, base, 0)
  {
    hide Drive, ValidateBatch, HandleFor, InvokeAll, Prepare, AsContinuation, First, Waiting, Curious, IdsOf, InvokedBy;
    TurnsAreOk();
    RoundsShareNoId();
    var w0 := w.(tick := w.tick + 2);
    WaitingIgnoresTick(Given(m), Last(), w, w0, base, 0);
    RoundGoes(m, Last(), w0, base, 0, 0);
    AlwaysFingerprinted(Last());
    InterruptedRoundPauses(Curious(), Quiet(Given(m)), SecondPosition(), Last(), HandleFor(Curious(), Last()),
                           HumanInteraction(Last()[0], QUESTION), w);
  }

  /** The first preparation of a batch, into an empty journal. */
  lemma FreshBatchWaits(m: nat, p: Position, requests: seq<PowerRequest>, w: World)
    requires (requests == First() && p == Start()) || (requests == Last() && p == SecondPosition())
    requires w.tables.batches == map[]
    ensures var (r, after) := Prepare(Curious(), Quiet(Given(m)), requests, w);
            && r == Success(HandleFor(Curious(), requests)) && after.sent == w.sent
            && Waiting(Given(m), requests, after, Completing(w.executed), 0)
  {
    hide ValidateBatch, Inside, CanPrepare, HandleFor, HandleOk, RepeatsNoId, Prepare, First;
    TurnsAreOk();
    BatchCanPrepare(Given(m), requests);
    PrepareSucceeds(Curious(), Quiet(Given(m)), requests, w);
    PrepareEnters(Curious(), Quiet(Given(m)), p, requests, w, Completing(w.executed), 0);
  }

  /** With 64 answers the first round is delivered and the Brain asks for the last Power. */
  lemma FirstRoundIsDelivered(w: World, base: seq<Executed>, k: nat) returns (w3: World)
    requires Waiting(Given(64), First(), w, base, k) && w.sent == []
    ensures Drive(Curious(), Quiet(Given(64)), Start(), w) == Drive(Curious(), Quiet(Given(64)), SecondPosition(), w3)
    ensures w3.tables.batches == map[] && |w3.sent| == 1
  {
    hide Drive, ValidateBatch, HandleFor, HandleOk, InvokeAll, Prepare, Hand, AsContinuation, First, Curious, IdsOf, InvokedBy,
      Received, AllResolve, ResultsOf, Inside;
    var env, seg, requests := Curious(), Quiet(Given(64)), First();
    TurnsAreOk();
    AlwaysFingerprinted(requests);
    var w0 := w.(tick := w.tick + 2);
    WaitingIgnoresTick(Given(64), requests, w, w0, base, k);
    WithinBatch(k, w0, base);
    RoundGoes(64, requests, w0, base, k, 64);
    var k' := RoundKeeps(env, seg, Start(), requests, w0, base, k);
    var w1 := Prepare(env, seg, requests, w0).1;
    var (progress, w2) := InvokeAll(env, seg, HandleFor(env, requests), requests, 0, map[], w1);
    HandLeaves(env, seg, Start(), requests, w2, base);
    var results := ResultsOf(env, seg.answers, requests);
    FirstIsReceived([results]);
    SecondPositionFollows([results]);
    assert w2.sent + [results] == [results];
    w3 := DeliveredRoundContinues(env, seg, Start(), requests, HandleFor(env, requests), results, SecondPosition(), w);
    OnlyThisBatch(w2, w3);
  }

  lemma WithinBatch(k: nat, w: World, base: seq<Executed>)
    requires Waiting(Given(64), First(), w, base, k)
    ensures k <= 64
  {
  }

  lemma OnlyThisBatch(w2: World, w3: World)
    requires w2.tables.batches.Keys == {"team-1"} && w3.tables.batches.Keys == w2.tables.batches.Keys - {Curious().generation}
    ensures w3.tables.batches == map[]
  {
  }

  lemma SecondPositionFollows(sent: seq<Results>)
    requires sent != []
    ensures AfterBatch(Curious(), Start(), First(), sent) == Some(SecondPosition())
  {
    hide First, IdsOf, InvokedBy, Received;
    TurnsAreOk();
    RoundsShareNoId();
    FirstIsReceived(sent);
    assert {} + IdsOf(First()) == IdsOf(First()) && [] + InvokedBy(First()) == InvokedBy(First());
  }

  /** The continuation after the 64th answer pauses in the second round. */
  lemma SecondRoundBegins(w: World, base: seq<Executed>, k: nat) returns (base': seq<Executed>)
    requires Waiting(Given(64), First(), w, base, k) && w.sent == []
    ensures var (r, after) := Drive(Curious(), Quiet(Given(64)), Start(), w);
            r == Paused(LastPause()) && Waiting(Given(64), Last(), after, base', 0)
  {
    hide Drive, ValidateBatch, HandleFor, InvokeAll, Prepare, AsContinuation, First, Waiting, Curious, IdsOf, InvokedBy;
    var w3 := FirstRoundIsDelivered(w, base, k);
    TurnsAreOk();
    RoundsShareNoId();
    AlwaysFingerprinted(Last());
    var w0 := w3.(tick := w3.tick + 2);
    base' := Completing(w0.executed);
    FreshBatchWaits(64, SecondPosition(), Last(), w0);
    var w1 := Prepare(Curious(), Quiet(Given(64)), Last(), w0).1;
    PreparedRoundGoes(w1, base');
    InterruptedRoundPauses(Curious(), Quiet(Given(64)), SecondPosition(), Last(), HandleFor(Curious(), Last()),
                           HumanInteraction(Last()[0], QUESTION), w3);
  }

  lemma PreparedRoundGoes(w: World, base: seq<Executed>)
    requires Waiting(Given(64), Last(), w, base, 0)
    ensures var (progress, after) :=
              InvokeAll(Curious(), Quiet(Given(64)), HandleFor(Curious(), Last()), Last(), 0, map[], w);
            progress == Interrupted(HumanInteraction(Last()[0], QUESTION)) && Waiting(Given(64), Last(), after, base, 0)
  {
    hide Inside, CanPrepare, HandleOk, RepeatsNoId, InvokeAll, Asks, First, Given;
    BatchCanPrepare(Given(64), Last());
    PowerBehaves(64, 64);
    QuietBatch(Curious(), Quiet(Given(64)), Last(), 0, map[], w, base, 0, 0, QUESTION);
  }

  // ---------------------------------------------------------------- sixty-five answers

  const AGAIN := Resumption(YES, Quiet(map[]), Tables(map[], map[]))

  function Times(n: nat): seq<Resumption> {
    if n == 0 then [] else [AGAIN] + Times(n - 1)
  }

  lemma NextAnswer(m: nat, s: ChatSuspension)
    requires s.interaction.Some? && s.interaction.value.request == Ask(m)
    ensures Answered(Given(m), s, YES) == Given(m + 1)
  {
    GivenIs(m, m);
    assert [] + [YES] == [YES];
  }

  /** An answered pause is waiting again, in whatever world the other Teams left. */
  lemma AnswerIsWaiting(m: nat, p: Position, s: ChatSuspension, w: World, base: seq<Executed>, k: nat)
    requires (p == Start() && k == m < 64 && s == Pause(m)) || (p == SecondPosition() && k == 0 && m == 64 && s == LastPause())
    requires Waiting(Given(m), s.requests, w, base, k)
    ensures Waiting(Given(m + 1), s.requests, w.(tables := Elsewhere(Curious(), w.tables, AGAIN.others)), base, k)
    ensures AsPosition(s.continuation) == p && Answered(Given(m), s, YES) == Given(m + 1)
  {
    hide ValidateBatch, Inside, AsContinuation, AsPosition, First, IdsOf, InvokedBy, Given, Frozen, AgreesOn;
    TurnsAreOk();
    RoundsShareNoId();
    ContinuationKeepsPosition(p);
    NextAnswer(m, s);
    PauseSurvives(Curious(), Given(m), p, s, w, base, k, YES, AGAIN.others);
  }

  /** One more continuation of a paused turn. */
  lemma ResumeOnce(seg: Segment, m: nat, p: Position, s: ChatSuspension, w: World, n: nat, r: DriveResult, after: World)
    requires n > 0 && seg.answers == Given(m) && Answered(Given(m), s, YES) == Given(m + 1) && AsPosition(s.continuation) == p
    requires Drive(Curious(), Quiet(Given(m + 1)), p, w.(tables := Elsewhere(Curious(), w.tables, AGAIN.others))) == (r, after)
    ensures ResumeTurn(Curious(), seg, Paused(s), w, Times(n))
         == ResumeTurn(Curious(), Quiet(Given(m + 1)), r, after, Times(n - 1))
  {
    hide Drive, Elsewhere, Answered, Given, AsPosition, Curious;
    assert Times(n)[1..] == Times(n - 1);
    assert AGAIN.conditions.(answers := Given(m + 1)) == Quiet(Given(m + 1));
  }

  lemma LastAnswer(seg: Segment, w: World, base: seq<Executed>)
    requires seg.answers == Given(64) && Waiting(Given(64), Last(), w, base, 0)
    ensures var end := ResumeTurn(Curious(), seg, Paused(LastPause()), w, Times(1));
            end.result == Paused(LastPause()) && end.answers == Given(65)
  {
    hide Drive, Waiting, First, Elsewhere, Answered, AsPosition, Given, ContinueAfterPause, AsContinuation, IdsOf, InvokedBy;
    AnswerIsWaiting(64, SecondPosition(), LastPause(), w, base, 0);
    var w1 := w.(tables := Elsewhere(Curious(), w.tables, AGAIN.others));
    LastRoundPauses(65, w1, base);
    var (r, after) := Drive(Curious(), Quiet(Given(65)), SecondPosition(), w1);
    ResumeOnce(seg, 64, SecondPosition(), LastPause(), w, 1, r, after);
  }

  /** Every further answer brings the turn to the next Power that asks, and the last one to the second round. */
  lemma {:induction false} AnswersClimb(m: nat, seg: Segment, w: World, base: seq<Executed>)
    requires m < 64 && seg.answers == Given(m) && Waiting(Given(m), First(), w, base, m) && w.sent == []
    ensures var end := ResumeTurn(Curious(), seg, Paused(Pause(m)), w, Times(65 - m));
            end.result == Paused(LastPause()) && end.answers == Given(65)
    decreases 64 - m
  {
    hide Drive, Waiting, First, Elsewhere, Answered, AsPosition, Given, ContinueAfterPause, AsContinuation, ResumeTurn, Times;
    AnswerIsWaiting(m, Start(), Pause(m), w, base, m);
    var w1 := w.(tables := Elsewhere(Curious(), w.tables, AGAIN.others));
    var (r, after) := Drive(Curious(), Quiet(Given(m + 1)), Start(), w1);
    ResumeOnce(seg, m, Start(), Pause(m), w, 65 - m, r, after);
    if m + 1 < 64 {
      FirstRoundPauses(m + 1, w1, base, m);
      AnswersClimb(m + 1, Quiet(Given(m + 1)), after, base);
    } else {
      var base' := SecondRoundBegins(w1, base, m);
      LastAnswer(Quiet(Given(64)), after, base');
    }
  }

  const EMPTY := World(Tables(map[], map[]), [], [], 0)

  /** The orchestrator can be paused with answers for 65 interrupts. */
  lemma SixtyFiveAnswersAreReachable()
    ensures var end := RunTurn(Curious(), Quiet(map[]), EMPTY, Times(65));
            end.result == Paused(LastPause()) && end.answers == Given(65)
  {
    hide Drive, Waiting, First, Prepare, InvokeAll, HandleFor, AsContinuation, Curious, ResumeTurn, Times, ValidateBatch, IdsOf;
    var w0 := EMPTY.(tick := 4);
    assert Given(0) == map[];
    TurnsAreOk();
    AlwaysFingerprinted(First());
    FirstIsReceived([]);
    FreshBatchWaits(0, Start(), First(), w0);
    var w1 := Prepare(Curious(), Quiet(Given(0)), First(), w0).1;
    FirstPreparedGoes(w1, Completing([]));
    InterruptedRoundPauses(Curious(), Quiet(Given(0)), Start(), First(), HandleFor(Curious(), First()),
                           HumanInteraction(First()[0], QUESTION), EMPTY.(tick := 2));
    var (r, after) := Drive(Curious(), Quiet(map[]), Start(), EMPTY.(tick := 2));
    AnswersClimb(0, Quiet(map[]), after, Completing([]));
    assert RunUntilPause(Curious(), Quiet(map[]), EMPTY) == (Paused(Pause(0)), after);
  }

  lemma FirstPreparedGoes(w: World, base: seq<Executed>)
    requires Waiting(Given(0), First(), w, base, 0)
    ensures var (progress, after) :=
              InvokeAll(Curious(), Quiet(Given(0)), HandleFor(Curious(), First()), First(), 0, map[], w);
            && progress == Interrupted(HumanInteraction(First()[0], QUESTION)) && after.sent == w.sent
            && Waiting(Given(0), First(), after, base, 0)
  {
    hide Inside, CanPrepare, HandleOk, RepeatsNoId, InvokeAll, Asks, Given;
    BatchCanPrepare(Given(0), First());
    PowerBehaves(0, 0);
    QuietBatch(Curious(), Quiet(Given(0)), First(), 0, map[], w, base, 0, 0, QUESTION);
  }

  // ---------------------------------------------------------------- written, never read

  function Zeros(): (digits: string)
    ensures |digits| == 64 && forall k :: 0 <= k < 64 ==> digits[k] == '0'
  {
    seq(64, _ => '0')
  }

  function Release(): string {
    "r@sha256:" + Zeros()
  }

  function PendingInput(): Codec.Requirement {
    Codec.NeedsInput(Id(64), "crm", "find", Release(), 1, "bool", "Title", "Summary", None, [])
  }

  function Team(): Codec.Identity {
    Codec.Identity("Team", "net", [Codec.Assistant("crm", Release(), "c1")], [], Codec.Inference("p", "m"))
  }

  /** The record of the paused turn. */
  function RecordOf(end: TurnEnd): Codec.Continuation
    requires end.result.Paused?
  {
    Codec.Continuation(Codec.Input, [PendingInput()],
      Codec.Pending(end.result.suspension.continuation, ["crm"], [], "p", Team(), LogsOf(end.answers)))
  }

  function Plain(): Codec.Runtime {
    Codec.Runtime(
      map["p" := {"m"}], map["p" := "m"], "p",
      (s: string) => s,
      (j: Json) => if j.Str? then j.s else "",
      (c: char) => ' ' <= c <= '~',
      (j: Json) => 1)
  }

  lemma ReleaseIsImage()
    ensures Codec.Image(Release())
  {
    assert Release()[..1] == "r" && Release()[1..9] == "@sha256:" && Release()[9..] == Zeros();
  }

  lemma PendingInputIsOk()
    ensures Codec.RequirementWf(Plain(), PendingInput())
    ensures Acceptable(Codec.EncRequirement(PendingInput()), CONTINUATION_LIMITS)
  {
    ReleaseIsImage();
    IdsAreSafe(64);
    NamesAreOk();
    assert Codec.RequirementWf(Plain(), PendingInput()) by {
      hide Codec.Image, SafeId, PowerId;
      assert Codec.TextOk(Plain(), "Title", 80) && Codec.TextOk(Plain(), "Summary", 240);
    }
    Codec.RequirementFitsBudget(Plain(), PendingInput());
  }

  lemma BindingsExist(c: Codec.Continuation)
    requires c.requirements == [PendingInput()] && c.pending.identity == Team()
    ensures Codec.Bindings(c).Some?
  {
    ReleaseIsImage();
    NamesAreOk();
    hide Codec.Image, PowerId, Release, Text.Sorted;
    var assistants, images := Team().assistants, map["crm" := Release()];
    assert assistants[..0] == [] && c.requirements[..0] == [];
    assert Codec.Images([]) == Some(map[]);
    assert Codec.Images(assistants) == Some(images);
    assert Codec.AllBindings(images, []) == Some({});
    assert Codec.BindingsOf(images, PendingInput()).Some?;
    assert Codec.AllBindings(images, c.requirements).Some?;
  }

  lemma SmallValues()
    ensures Acceptable(Obj(map[]), CONTINUATION_LIMITS) && Acceptable(YES, CONTINUATION_LIMITS)
    ensures Acceptable(Codec.EncList([], Codec.EncFile), CONTINUATION_LIMITS)
  {
    Codec.FilesFitBudget([]);
  }

  lemma LogsAreGiven(m: nat)
    ensures |LogsOf(Given(m))| == m
    ensures forall i :: 0 <= i < |LogsOf(Given(m))| ==> LogsOf(Given(m))[i].answers == [YES]
  {
    hide Given, Text.Sorted, Text.Ascending, AnswersIn, Id;
    GivenIs(m, 0);
    AnswersSurviveStorage(Given(m));
    var ids := Text.Sorted(Given(m).Keys);
    forall i | 0 <= i < |ids|
      ensures LogsOf(Given(m))[i].answers == [YES]
    {
      assert ids[i] in ids;
    }
  }

  lemma RecordIsWritten(end: TurnEnd)
    requires end.result == Paused(LastPause()) && end.answers == Given(65)
    ensures Codec.Encode(Plain(), RecordOf(end)).Some?
  {
    hide Codec.EncRequirement, Codec.Bindings, Codec.Body, LogsOf, Given, Acceptable, Codec.EncList, First, IdsOf, InvokedBy,
      Text.Sorted;
    var c := RecordOf(end);
    PendingInputIsOk();
    BindingsExist(c);
    SmallValues();
    LogsAreGiven(65);
    assert c.pending.continuation.turn.powers == Last();
    assert Codec.Encodable(Plain(), c);
  }

  lemma PlainIsOk()
    ensures Codec.RuntimeOk(Plain())
  {
  }

  lemma RecordKeepsLogs(end: TurnEnd)
    requires end.result.Paused?
    ensures RecordOf(end).pending.answerLogs == LogsOf(end.answers) && RecordOf(end).kind == Codec.Input
  {
  }

  /** A turn can be paused so that its record is written and can never be read back. */
  lemma ReachablePauseIsLost()
    ensures Codec.RuntimeOk(Plain())
    ensures var end := RunTurn(Curious(), Quiet(map[]), EMPTY, Times(65));
            && end.result.Paused? && |end.answers| == 65
            && var encoded := Codec.Encode(Plain(), RecordOf(end));
               && encoded.Some?
               && Codec.Decode(Plain(), Codec.Stored(Codec.Input, encoded.value.0, encoded.value.1)) == None
  {
    hide RunTurn, Codec.Encode, Codec.Decode, LogsOf, Given, First, AsContinuation, Codec.RuntimeOk, Curious, Plain, RecordOf,
      LastPause;
    SixtyFiveAnswersAreReachable();
    var end := RunTurn(Curious(), Quiet(map[]), EMPTY, Times(65));
    GivenIs(65, 0);
    LogsAreGiven(65);
    RecordIsWritten(end);
    PlainIsOk();
    RecordKeepsLogs(end);
    TooManyAnswerLogsAreLost(Plain(), RecordOf(end));
  }
}
