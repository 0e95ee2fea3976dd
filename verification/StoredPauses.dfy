/**
 Pauses as they survive a restart: every pause the orchestrator can reach fits the continuation codec, and the
 decoded record resumes the turn exactly as the suspension in memory would have.
 */
module StoredPauses {
  import opened Wrappers
  import opened JsonTree
  import opened PowerJournal
  import opened ChatOrchestrator
  import opened PauseTransparency
  import opened TurnBounds
  import Codec = ContinuationCodec
  import Text

  // ---------------------------------------------------------------- every reachable pause fits

  /** Ids of installed Assistants and their Powers fit the 80 characters of a component id. */
  ghost predicate ShortNames(env: Env) {
    forall d :: d in env.declared ==> |d.0| <= 80 && |d.1| <= 80
  }

  ghost predicate InputsFit(c: ChatContinuation) {
    forall k :: 0 <= k < |c.turn.powers| ==> Acceptable(Obj(c.turn.powers[k].input), CONTINUATION_LIMITS)
  }

  /** A reachable pause is stored and read back exactly when its Power inputs respect the structure limits. */
  lemma PauseFitsDecoder(env: Env, c: ChatContinuation)
    requires ContinuationOk(env, c) && ShortNames(env)
    ensures Codec.ContinuationWf(c) <==> InputsFit(c)
    ensures InputsFit(c) ==> Codec.DecContinuation(Codec.EncContinuation(c)) == Some(c)
  {
    hide SafeId, PowerId, Acceptable, Text.Ascending, IdsOf, RepeatsNoId, Codec.DecContinuation, Codec.EncContinuation;
    Codec.ContinuationExactly(Codec.EncContinuation(c), c);
    forall k | 0 <= k < |c.invoked|
      ensures Codec.InvokedWf(c.invoked[k])
    {
      assert Invocable(env, c.invoked[k]);
    }
    forall k | 0 <= k < |c.turn.powers|
      ensures Codec.PowerWf(c.turn.powers[k]) <==> Acceptable(Obj(c.turn.powers[k].input), CONTINUATION_LIMITS)
    {
      assert WellNamed(c.turn.powers[k]);
    }
  }

  /** However many times a turn has paused, its continuation fits. */
  lemma EveryPauseFitsDecoder(env: Env, seg: Segment, w: World, resumptions: seq<Resumption>)
    requires ShortNames(env) && RunTurn(env, seg, w, resumptions).result.Paused?
    ensures var c := RunTurn(env, seg, w, resumptions).result.suspension.continuation;
            Codec.ContinuationWf(c) <==> InputsFit(c)
  {
    hide RunTurn, Codec.ContinuationWf, InputsFit, ContinuationOk;
    EveryPauseIsBounded(env, seg, w, resumptions);
    PauseFitsDecoder(env, RunTurn(env, seg, w, resumptions).result.suspension.continuation);
  }

  // ---------------------------------------------------------------- answer logs

  /** `tuple(sorted(answers_by_interrupt.items()))`. */
  function LogsOf(answers: Answers): seq<Codec.AnswerLog> {
    var ids := Text.Sorted(answers.Keys);
    seq(|ids|, k requires 0 <= k < |ids| =>
      assert ids[k] in ids;
      Codec.AnswerLog(ids[k], answers[ids[k]]))
  }

  /** `_hosted_answer_log`: None where the log repeats an interrupt. */
  function AnswersIn(logs: seq<Codec.AnswerLog>): Option<Answers> {
    if !Codec.Distinct(Codec.LogIds(logs)) then None else Some(Collect(logs))
  }

  function Collect(logs: seq<Codec.AnswerLog>): Answers {
    if logs == [] then map[]
    else
      var n := |logs| - 1;
      Collect(logs[..n])[logs[n].interruptId := logs[n].answers]
  }

  lemma {:induction false} CollectLooksUp(logs: seq<Codec.AnswerLog>)
    requires forall i, j :: 0 <= i < j < |logs| ==> logs[i].interruptId != logs[j].interruptId
    ensures forall id :: id in Collect(logs) ==> exists k :: 0 <= k < |logs| && logs[k].interruptId == id
    ensures forall k :: 0 <= k < |logs| ==>
              logs[k].interruptId in Collect(logs) && Collect(logs)[logs[k].interruptId] == logs[k].answers
  {
    if logs != [] {
      var n := |logs| - 1;
      var init := logs[..n];
      CollectLooksUp(init);
      assert forall k :: 0 <= k < n ==> init[k] == logs[k];
    }
  }

  /** A log is read exactly if it repeats no interrupt, and then as what it lists. */
  lemma AnswersInIsExact(logs: seq<Codec.AnswerLog>)
    ensures AnswersIn(logs).Some? <==>
              forall i, j :: 0 <= i < j < |logs| ==> logs[i].interruptId != logs[j].interruptId
    ensures AnswersIn(logs).Some? ==>
              forall k :: 0 <= k < |logs| ==>
                logs[k].interruptId in AnswersIn(logs).value && AnswersIn(logs).value[logs[k].interruptId] == logs[k].answers
  {
    hide Collect;
    var ids := Codec.LogIds(logs);
    assert |ids| == |logs| && forall k :: 0 <= k < |logs| ==> ids[k] == logs[k].interruptId;
    if forall i, j :: 0 <= i < j < |logs| ==> logs[i].interruptId != logs[j].interruptId {
      assert Codec.Distinct(ids);
      CollectLooksUp(logs);
    }
  }

  /** The stored listing of the answers is sorted by interrupt and loses none of them. */
  lemma AnswersSurviveStorage(answers: Answers)
    ensures AnswersIn(LogsOf(answers)) == Some(answers)
    ensures Text.Ascending(Codec.LogIds(LogsOf(answers)))
    ensures |LogsOf(answers)| == |answers|
  {
    hide Collect, Text.Less, Text.Ascending, Text.Sorted;
    var ids := Text.Sorted(answers.Keys);
    var logs := LogsOf(answers);
    assert Codec.LogIds(logs) == ids;
    Text.AscendingHasNoRepeats(ids);
    assert forall k :: 0 <= k < |ids| ==> logs[k] == Codec.AnswerLog(ids[k], answers[ids[k]]);
    CollectLooksUp(logs);
    SameMap(Collect(logs), answers, ids);
  }

  lemma SameMap(a: Answers, b: Answers, ids: seq<string>)
    requires forall id :: id in ids <==> id in b
    requires forall id :: id in a ==> id in ids
    requires forall k :: 0 <= k < |ids| ==> ids[k] in a && ids[k] in b && a[ids[k]] == b[ids[k]]
    ensures a == b
  {
  }

  // ---------------------------------------------------------------- resuming from a record

  /** The record of one pause holds the pause's continuation and answers. */
  ghost predicate Records(c: Codec.Continuation, end: TurnEnd) {
    && end.result.Paused?
    && c.pending.continuation == end.result.suspension.continuation
    && c.pending.answerLogs == LogsOf(end.answers)
  }

  /**
   A paused turn whose record was written and read back resumes, after any loss of memory, exactly as it would
   have resumed from memory.
   */
  lemma StoredPauseResumes(
    rt: Codec.Runtime, env: Env, c: Codec.Continuation, end: TurnEnd, seg: Segment, w: World)
    requires Codec.RuntimeOk(rt) && Records(c, end)
    requires Codec.WellFormed(rt, c) && Codec.Encode(rt, c).Some?
    ensures var (bindings, payload) := Codec.Encode(rt, c).value;
            var decoded := Codec.Decode(rt, Codec.Stored(c.kind, bindings, payload));
            && decoded.Some?
            && AnswersIn(decoded.value.pending.answerLogs) == Some(end.answers)
            && ContinueAfterPause(env, seg.(answers := AnswersIn(decoded.value.pending.answerLogs).value),
                                  decoded.value.pending.continuation, w)
               == ContinueAfterPause(env, seg.(answers := end.answers), end.result.suspension.continuation, w)
  {
    hide Codec.Encode, Codec.Decode, Codec.WellFormed, ContinueAfterPause, LogsOf, AnswersIn;
    Codec.RoundTrip(rt, c);
    AnswersSurviveStorage(end.answers);
  }

  /**
   The encoder does not count answer logs, the decoder does: a pause with answers for more than 64 interrupts
   is written without complaint and can never be read back.
   */
  lemma TooManyAnswerLogsAreLost(rt: Codec.Runtime, c: Codec.Continuation)
    requires Codec.RuntimeOk(rt) && Codec.Encode(rt, c).Some? && |c.pending.answerLogs| > Codec.MAX_ANSWER_LOGS
    ensures var (bindings, payload) := Codec.Encode(rt, c).value;
            Codec.Decode(rt, Codec.Stored(c.kind, bindings, payload)) == None
  {
    hide Codec.Encode, Codec.Body, Codec.Bindings, Codec.WrittenInBody, Codec.Reads, Codec.EncList, Codec.RequirementWf,
      Codec.EncRequirement, Codec.Strings, Codec.EncContinuation, Codec.EncIdentity, Codec.IdentityWf,
      Codec.ContinuationWf, Codec.LogWf, Text.Ascending;
    var (bindings, payload) := Codec.Encode(rt, c).value;
    var stored := Codec.Stored(c.kind, bindings, payload);
    var decoded := Codec.Decode(rt, stored);
    if decoded.Some? {
      Codec.DecodeExactly(rt, stored, decoded.value);
      EncodedIsBody(rt, c);
      BodyKeepsLogCount(decoded.value, c, Codec.WrittenInBody(payload), Codec.Plainly(c));
      assert false;
    }
  }

  lemma EncodedIsBody(rt: Codec.Runtime, c: Codec.Continuation)
    requires Codec.Encode(rt, c).Some?
    ensures Codec.Encode(rt, c).value.1 == Codec.Body(c, Codec.Plainly(c))
  {
  }

  lemma BodyKeepsLogCount(a: Codec.Continuation, b: Codec.Continuation, x: Codec.Written, y: Codec.Written)
    requires Codec.Body(a, x) == Codec.Body(b, y)
    ensures |a.pending.answerLogs| == |b.pending.answerLogs|
  {
    var p, q := Codec.EncPending(a.pending, x), Codec.EncPending(b.pending, y);
    assert Codec.Body(a, x).fields["pending"] == Codec.Body(b, y).fields["pending"];
    assert p.fields["answer_logs"] == q.fields["answer_logs"];
    assert |p.fields["answer_logs"].items| == |a.pending.answerLogs|;
    assert |q.fields["answer_logs"].items| == |b.pending.answerLogs|;
  }
}
