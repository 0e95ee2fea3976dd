/** One concrete paused turn, so that the assumptions of the general results are seen to be met. */
module PausedTurnExample {
  import opened Wrappers
  import opened JsonTree
  import opened PowerJournal
  import opened ChatOrchestrator
  import opened PauseTransparency

  const REQUEST := PowerRequest("call-1", "crm", "find", map[])
  const QUESTION := map["kind" := Str("request")]
  const ASKING := RuntimeTurn(PowerRequired, "", [REQUEST])
  const ANSWERING := RuntimeTurn(TurnCompleted, "done", [])

  /** The Brain asks for one Power and then answers; the Power asks a human once and then returns. */
  function Example(): Env {
    Env(
      Config(4, 64, 1024, _ => 1),
      "team-1", "thread-1",
      (sent: seq<Results>) => Some(if sent == [] then ASKING else ANSWERING),
      (request: PowerRequest, answers: seq<Json>) => Some(if answers == [] then Suspended(QUESTION) else Returned(Int(1))),
      {("crm", "find")},
      (request: PowerRequest) => Some(request.input),
      (request: PowerRequest) => Some(Sha256(Str(request.interruptId))),
      (request: PowerRequest, answers: seq<Json>) => true)
  }

  const NOTHING := World(Tables(map[], map[]), [], [], 0)
  const YES := [Resumption(Str("yes"), Quiet(map[]), Tables(map[], map[]))]

  const OPERATION := Operation("call-1", Sha256(Str("call-1")))
  const HANDLE := Batch("team-1", BatchDigest("team-1", "thread-1", [OPERATION]), [OPERATION])

  lemma NamesAreOk()
    ensures TurnOk(ASKING) && TurnOk(ANSWERING)
    ensures SafeId("team-1") && SafeId("thread-1") && SafeId("call-1")
  {
    TurnsAreOk();
    hide TurnOk;
  }

  lemma TurnsAreOk()
    ensures TurnOk(ASKING) && TurnOk(ANSWERING)
  {
    PowerIsNamed();
    hide WellNamed;
    assert ANSWERING.reply[0] == 'd';
  }

  lemma PowerIsNamed()
    ensures WellNamed(REQUEST)
  {
  }

  lemma BatchIsValid()
    ensures ValidateBatch(Example(), ASKING.powers) == Some([REQUEST])
  {
    var batch := ValidateBatch(Example(), ASKING.powers);
    assert batch.Some? && batch.value[0] == REQUEST;
    assert batch.value == [REQUEST];
  }

  function Pending(state: OperationState, result: Option<Json>): Tables {
    Tables(map["team-1" := BatchRow(HANDLE.fingerprint, 1)],
           map["team-1" := [OperationRow(0, "call-1", OPERATION.fingerprint, state, result)]])
  }

  lemma PreparingWorks(answers: Answers, w: World)
    requires w.tables == Tables(map[], map[]) || w.tables == Pending(OperationState.Prepared, None)
    ensures Prepare(Example(), Quiet(answers), [REQUEST], w)
         == (Success(HANDLE), w.(tables := Pending(OperationState.Prepared, None), tick := w.tick + 1))
  {
    NamesAreOk();
    assert OperationsOf(Example(), answers, [REQUEST]).value == [OPERATION];
    assert FreshRows([OPERATION]) == [OperationRow(0, "call-1", OPERATION.fingerprint, OperationState.Prepared, None)];
    if w.tables == Tables(map[], map[]) {
      assert Insert(w.tables, HANDLE) == Pending(OperationState.Prepared, None);
    }
  }

  lemma RowRewritten(state: OperationState, result: Option<Json>, state': OperationState, result': Option<Json>)
    ensures var t := Pending(state, result);
            var rows := RowsOf(t, "team-1");
            && rows == [OperationRow(0, "call-1", OPERATION.fingerprint, state, result)]
            && WithRow(t, "team-1", rows, 0, rows[0].(state := state', result := result')) == Pending(state', result')
  {
    var t := Pending(state, result);
    var rows := RowsOf(t, "team-1");
    assert rows[0 := rows[0].(state := state', result := result')]
        == [OperationRow(0, "call-1", OPERATION.fingerprint, state', result')];
  }

  const ANSWERED: Answers := map["call-1" := [Str("yes")]]

  lemma OperationIs(answers: Answers)
    ensures OperationOf(Example(), answers, REQUEST) == Some(OPERATION)
    ensures Holds(HANDLE, OPERATION)
    ensures Locate(Pending(OperationState.Prepared, None), true, HANDLE, OPERATION) == Success(0)
    ensures Locate(Pending(Executing, None), true, HANDLE, OPERATION) == Success(0)
    ensures HandleOk(HANDLE)
  {
    NamesAreOk();
  }

  /** Without an answer the Power asks, and the journal is as before. */
  lemma AskingInvocation(w: World)
    requires w.tables == Pending(OperationState.Prepared, None)
    ensures var (r, after) := Invoke(Example(), Quiet(map[]), HANDLE, REQUEST, w);
            && r == Success(Suspended(QUESTION))
            && after == w.(executed := w.executed + [Executed(REQUEST, [], Some(Suspended(QUESTION)))], tick := w.tick + 2)
  {
    OperationIs(map[]);
    hide Locate, Pending;
    RowRewritten(OperationState.Prepared, None, Executing, None);
    RowRewritten(Executing, None, OperationState.Prepared, None);
    var started := BeginTx(Example().config, w.tables, true, HANDLE, OPERATION).0;
    assert started == Pending(Executing, None);
    assert SuspendTx(started, true, HANDLE, OPERATION).0 == w.tables;
  }

  /** With an answer it returns, and its result is kept. */
  lemma ReturningInvocation(w: World)
    requires w.tables == Pending(OperationState.Prepared, None)
    ensures var (r, after) := Invoke(Example(), Quiet(ANSWERED), HANDLE, REQUEST, w);
            && r == Success(Returned(Int(1)))
            && after == w.(tables := Pending(OperationState.Completed, Some(Int(1))),
                           executed := w.executed + [Executed(REQUEST, [Str("yes")], Some(Returned(Int(1))))],
                           tick := w.tick + 2)
  {
    OperationIs(ANSWERED);
    hide Locate, Pending, HandleOk, SafeId;
    NamesAreOk();
    RowRewritten(OperationState.Prepared, None, Executing, None);
    RowRewritten(Executing, None, OperationState.Completed, Some(Int(1)));
    var started := BeginTx(Example().config, w.tables, true, HANDLE, OPERATION).0;
    assert started == Pending(Executing, None);
    assert Durable(Example().config, Int(1));
    assert CompleteTx(Example().config, started, true, HANDLE, OPERATION, Int(1)).0
        == Pending(OperationState.Completed, Some(Int(1)));
  }

  const START := Position(ASKING, {}, [], 0)
  const SUSPENSION := ChatSuspension(AsContinuation(START), [REQUEST], Some(HumanInteraction(REQUEST, QUESTION)))

  lemma FirstSegmentPauses(w: World)
    requires w.tables == Tables(map[], map[])
    ensures var (r, after) := Drive(Example(), Quiet(map[]), START, w);
            && r == Paused(SUSPENSION)
            && after.tables == Pending(OperationState.Prepared, None) && after.sent == w.sent
            && after.executed == w.executed + [Executed(REQUEST, [], Some(Suspended(QUESTION)))]
  {
    hide Prepare, Invoke, Hand, ValidateBatch, Pending, AsContinuation;
    BatchIsValid();
    var w0 := w.(tick := w.tick + 2);
    PreparingWorks(map[], w0);
    var w1 := Prepare(Example(), Quiet(map[]), [REQUEST], w0).1;
    AskingInvocation(w1.(tick := w1.tick + 2));
    assert InvokeAll(Example(), Quiet(map[]), HANDLE, [REQUEST], 0, map[], w1).0
        == Interrupted(HumanInteraction(REQUEST, QUESTION));
  }

  lemma OneInvocation(w: World)
    requires w.tables == Pending(OperationState.Prepared, None)
    ensures var (progress, after) := InvokeAll(Example(), Quiet(ANSWERED), HANDLE, [REQUEST], 0, map[], w);
            && progress == AllDone(map["call-1" := Int(1)])
            && after.tables == Pending(OperationState.Completed, Some(Int(1))) && after.sent == w.sent
            && after.executed == w.executed + [Executed(REQUEST, [Str("yes")], Some(Returned(Int(1))))]
  {
    hide Invoke, Pending;
    ReturningInvocation(w.(tick := w.tick + 2));
    var (r, w1) := Invoke(Example(), Quiet(ANSWERED), HANDLE, REQUEST, w.(tick := w.tick + 2));
    var results: Results := map[];
    results := results["call-1" := Int(1)];
    assert InvokeAll(Example(), Quiet(ANSWERED), HANDLE, [REQUEST], 1, results, w1) == (AllDone(results), w1);
    assert results == map["call-1" := Int(1)];
  }

  lemma OneId()
    ensures IdsOf([REQUEST]) == {"call-1"} && IdsOf(ANSWERING.powers) == {}
    ensures InvokedBy([REQUEST]) == [InvokedPower("crm", "find")]
  {
    assert [REQUEST][0].interruptId == "call-1";
    assert "call-1" in IdsOf([REQUEST]);
  }

  lemma AnsweringFinishes(w: World)
    ensures var p := Position(ANSWERING, {"call-1"}, [InvokedPower("crm", "find")], 1);
            Drive(Example(), Quiet(ANSWERED), p, w) == (Finished(ChatOutcome("done", [InvokedPower("crm", "find")])), w)
  {
    hide Prepare, InvokeAll, Hand, ValidateBatch, IdsOf;
  }

  lemma SecondSegmentFinishes(w: World)
    requires w.tables == Pending(OperationState.Prepared, None) && w.sent == []
    ensures var (r, after) := Drive(Example(), Quiet(ANSWERED), START, w);
            && r == Finished(ChatOutcome("done", [InvokedPower("crm", "find")]))
            && after.sent == [map["call-1" := Int(1)]]
            && after.executed == w.executed + [Executed(REQUEST, [Str("yes")], Some(Returned(Int(1))))]
  {
    hide Drive, Prepare, InvokeAll, Hand, ValidateBatch, Pending, IdsOf, Undisturbed;
    BatchIsValid();
    QuietIsUndisturbed();
    var w0 := w.(tick := w.tick + 2);
    PreparingWorks(ANSWERED, w0);
    var w1 := Prepare(Example(), Quiet(ANSWERED), [REQUEST], w0).1;
    OneInvocation(w1);
    var results := map["call-1" := Int(1)];
    var w2 := InvokeAll(Example(), Quiet(ANSWERED), HANDLE, [REQUEST], 0, map[], w1).1;
    HandsOver(results, w2);
    var next := Position(ANSWERING, {"call-1"}, [InvokedPower("crm", "find")], 1);
    var w3 := DeliveredRoundContinues(Example(), Quiet(ANSWERED), START, [REQUEST], HANDLE, results, next, w);
    AnsweringFinishes(w3);
  }

  lemma QuietIsUndisturbed()
    ensures Undisturbed(Quiet(ANSWERED))
  {
  }

  lemma CompletedBatchIsDelivered()
    ensures DeliverTx(Example().config, Pending(OperationState.Completed, Some(Int(1))), true, HANDLE).1.Success?
  {
    NamesAreOk();
    hide SafeId, Durable;
    RowRewritten(OperationState.Completed, Some(Int(1)), OperationState.Completed, Some(Int(1)));
    ResultIsDurable();
  }

  lemma ResultIsDurable()
    ensures Durable(Example().config, Int(1))
  {
  }

  lemma HandsOver(results: Results, w: World)
    requires w.tables == Pending(OperationState.Completed, Some(Int(1))) && w.sent == []
    ensures var (r, after) := Hand(Example(), Quiet(ANSWERED), START, HANDLE, [REQUEST], results, w);
            && r == Success(Position(ANSWERING, {"call-1"}, [InvokedPower("crm", "find")], 1))
            && after.sent == [results] && after.executed == w.executed
  {
    NamesAreOk();
    CompletedBatchIsDelivered();
    OneId();
    hide DeliverTx, Pending, IdsOf, InvokedBy, TurnOk;
    assert w.sent + [results] == [results];
    assert Received(Example(), [results]) == Some(ANSWERING);
    assert START.seen + IdsOf([REQUEST]) == {"call-1"};
    assert START.invoked + InvokedBy([REQUEST]) == [InvokedPower("crm", "find")];
  }

  /** A turn that pauses inside a batch, is answered and continued, and finishes: the theorem applies to it. */
  lemma PausedTurnFinishes()
    ensures var end := RunTurn(Example(), Quiet(map[]), NOTHING, YES);
            && end.result == Finished(ChatOutcome("done", [InvokedPower("crm", "find")]))
            && end.answers == ANSWERED
            && |end.world.executed| == 2
    ensures var unpaused := RunTurn(Example(), Quiet(ANSWERED), NOTHING, []);
            unpaused.world.executed == [Executed(REQUEST, [Str("yes")], Some(Returned(Int(1))))]
  {
    hide Drive, AsContinuation, Pending, Completing;
    NamesAreOk();
    FirstSegmentPauses(NOTHING.(tick := 2));
    ContinuationKeepsPosition(START);
    var w1 := Drive(Example(), Quiet(map[]), START, NOTHING.(tick := 2)).1;
    assert Received(Example(), []) == Some(ASKING);
    assert RunUntilPause(Example(), Quiet(map[]), NOTHING) == (Paused(SUSPENSION), w1);
    var w2 := w1.(tables := Elsewhere(Example(), w1.tables, Tables(map[], map[])));
    assert w2.tables == Pending(OperationState.Prepared, None) by { PendingIsElsewhere(); }
    SecondSegmentFinishes(w2);
    AnswerIs();
    assert Quiet(map[]).(answers := ANSWERED) == Quiet(ANSWERED);
    assert YES[1..] == [];
    PausingIsTransparent(Example(), Quiet(map[]), NOTHING, YES);
    var end := RunTurn(Example(), Quiet(map[]), NOTHING, YES);
    CompletingIsTheSecond();
    assert end.world.executed == [Executed(REQUEST, [], Some(Suspended(QUESTION))),
                                  Executed(REQUEST, [Str("yes")], Some(Returned(Int(1))))];
  }

  lemma AnswerIs()
    ensures Answered(map[], SUSPENSION, Str("yes")) == ANSWERED
  {
    var none: Answers := map[];
    assert AnswersFor(none, "call-1") + [Str("yes")] == [Str("yes")];
    assert none["call-1" := [Str("yes")]] == ANSWERED;
  }

  lemma PendingIsElsewhere()
    ensures Elsewhere(Example(), Pending(OperationState.Prepared, None), Tables(map[], map[]))
         == Pending(OperationState.Prepared, None)
  {
  }

  lemma CompletingIsTheSecond()
    ensures var asked := Executed(REQUEST, [], Some(Suspended(QUESTION)));
            var returned := Executed(REQUEST, [Str("yes")], Some(Returned(Int(1))));
            Completing([asked, returned]) == [returned]
  {
    var asked := Executed(REQUEST, [], Some(Suspended(QUESTION)));
    var returned := Executed(REQUEST, [Str("yes")], Some(Returned(Int(1))));
    CompletingAppend([asked], returned);
    CompletingAppend([], asked);
    assert [] + [asked] == [asked] && [asked] + [returned] == [asked, returned];
  }
}
