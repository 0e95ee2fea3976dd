/**
 Human answers to a paused hosted turn (team/assistant_human/hosted_chat_api.py): the submission is bound to the
 ordinal its challenge was created with, extends the stored answer log by exactly one answer, and continues the
 turn. Whole lives of a turn, with any number of submissions and automatic approvals, are transparent.
 */
module HumanAnswers {
  import opened Wrappers
  import opened JsonTree
  import opened PowerJournal
  import opened ChatOrchestrator
  import opened PauseTransparency
  import opened AutoApproval
  import opened StoredPauses
  import Codec = ContinuationCodec

  datatype SubmitError = InvalidLog | ReplayChanged

  /** `_submit_chat_input` and `_submit_chat_approval`: the new log, or a refusal when the log has moved on. */
  function SubmitAnswer(logs: seq<Codec.AnswerLog>, interruptId: string, ordinal: nat, answer: Json)
    : Result<seq<Codec.AnswerLog>, SubmitError>
  {
    match AnswersIn(logs)
    case None => Failure(InvalidLog)
    case Some(answers) =>
      var existing := AnswersFor(answers, interruptId);
      if |existing| != ordinal then Failure(ReplayChanged)
      else Success(LogsOf(answers[interruptId := existing + [answer]]))
  }

  /**
   A submission succeeds exactly at the ordinal after the stored answers, and then the log is the old one with
   this answer appended for this interrupt; the same submission can never succeed again.
   */
  lemma SubmissionIsExact(answers: Answers, interruptId: string, ordinal: nat, answer: Json)
    ensures var r := SubmitAnswer(LogsOf(answers), interruptId, ordinal, answer);
            && (r.Success? <==> ordinal == |AnswersFor(answers, interruptId)|)
            && (r.Success? ==>
                 && AnswersIn(r.value) == Some(answers[interruptId := AnswersFor(answers, interruptId) + [answer]])
                 && SubmitAnswer(r.value, interruptId, ordinal, answer) == Failure(ReplayChanged))
  {
    hide LogsOf, AnswersIn;
    AnswersSurviveStorage(answers);
    AnswersSurviveStorage(answers[interruptId := AnswersFor(answers, interruptId) + [answer]]);
  }

  /** The answers after one visit: a pause before a batch asks nothing, any other is answered at its ordinal. */
  function Submitted(answers: Answers, s: ChatSuspension, answer: Json): Option<Answers> {
    match s.interaction
    case None => Some(answers)
    case Some(h) =>
      var id := h.request.interruptId;
      match SubmitAnswer(LogsOf(answers), id, |AnswersFor(answers, id)|, answer)
      case Failure(_) => None
      case Success(logs) => AnswersIn(logs)
  }

  lemma SubmissionAnswers(answers: Answers, s: ChatSuspension, answer: Json)
    ensures Submitted(answers, s, answer) == Some(Answered(answers, s, answer))
  {
    hide LogsOf, AnswersIn, SubmitAnswer;
    if s.interaction.Some? {
      var id := s.interaction.value.request.interruptId;
      SubmissionIsExact(answers, id, |AnswersFor(answers, id)|, answer);
    }
  }

  // ---------------------------------------------------------------- the whole life of a turn

  /** One later request: the human's answer, what its segment meets, and the journal as others left it. */
  datatype Visit = Visit(answer: Json, conditions: Conditions, others: Tables)

  ghost function Life(
    env: Env, conditions: Conditions, from: Option<ChatContinuation>, answers: Answers, w: World, visits: seq<Visit>)
    : (HostedEnd, World)
    decreases |visits|
  {
    var (end, w') := Hosted(env, conditions, 0, from, answers, w);
    if end.Ended? && end.result.Paused? && visits != []
      && Submitted(end.answers, end.result.suspension, visits[0].answer).Some?
    then
      var next := visits[0];
      Life(env, next.conditions, Some(end.result.suspension.continuation),
           Submitted(end.answers, end.result.suspension, next.answer).value,
           w'.(tables := Elsewhere(env, w'.tables, next.others)), visits[1..])
    else (end, w')
  }

  /** A paused turn picks up where its earlier resumptions left it. */
  lemma {:induction false} ResumptionsCompose(
    env: Env, seg: Segment, r: DriveResult, w: World, a: seq<Resumption>, b: seq<Resumption>)
    requires ResumeTurn(env, seg, r, w, a).result.Paused?
    ensures var end := ResumeTurn(env, seg, r, w, a);
            ResumeTurn(env, seg, r, w, a + b)
            == ResumeTurn(env, seg.(answers := end.answers), end.result, end.world, b)
    decreases |a|
  {
    hide ContinueAfterPause, Elsewhere, Answered;
    if a == [] {
      assert a + b == b;
      assert seg.(answers := seg.answers) == seg;
    } else {
      var next := a[0];
      var seg' := next.conditions.(answers := Answered(seg.answers, r.suspension, next.answer));
      var w1 := w.(tables := Elsewhere(env, w.tables, next.others));
      var (r', w') := ContinueAfterPause(env, seg', r.suspension.continuation, w1);
      assert (a + b)[0] == next && (a + b)[1..] == a[1..] + b;
      ResumptionsCompose(env, seg', r', w', a[1..], b);
      SegmentAnswersOnly(env, seg'.(answers := ResumeTurn(env, seg, r, w, a).answers),
                         seg.(answers := ResumeTurn(env, seg, r, w, a).answers),
                         ResumeTurn(env, seg, r, w, a).result, ResumeTurn(env, seg, r, w, a).world, b);
    }
  }

  /** Of the segment in which a turn paused, only the answers matter for what follows. */
  lemma SegmentAnswersOnly(env: Env, a: Segment, b: Segment, r: DriveResult, w: World, resumptions: seq<Resumption>)
    requires a.answers == b.answers
    ensures ResumeTurn(env, a, r, w, resumptions) == ResumeTurn(env, b, r, w, resumptions)
  {
  }

  /** The life of a turn is a turn resumed with the automatic and the human answers, in order. */
  lemma {:induction false} LifeResumes(
    env: Env, conditions: Conditions, from: Option<ChatContinuation>, answers: Answers, w: World, visits: seq<Visit>)
    returns (resumptions: seq<Resumption>)
    requires Life(env, conditions, from, answers, w, visits).0.Ended?
    ensures var seg := conditions.segment(0).(answers := answers);
            var (r, w') := Stretch(env, seg, from, w);
            var (end, w'') := Life(env, conditions, from, answers, w, visits);
            ResumeTurn(env, seg, r, w', resumptions) == TurnEnd(end.result, w'', end.answers)
    decreases |visits|
  {
    hide Hosted, Stretch, Submitted, Elsewhere, ContinueAfterPause, Answered;
    var (end, w1) := Hosted(env, conditions, 0, from, answers, w);
    resumptions := HostedResumes(env, conditions, 0, from, answers, w);
    if end.result.Paused? && visits != [] {
      var next, s := visits[0], end.result.suspension;
      SubmissionAnswers(end.answers, s, next.answer);
      var answers' := Answered(end.answers, s, next.answer);
      var w2 := w1.(tables := Elsewhere(env, w1.tables, next.others));
      var rest := LifeResumes(env, next.conditions, Some(s.continuation), answers', w2, visits[1..]);
      var seg := conditions.segment(0).(answers := answers);
      var (r, w') := Stretch(env, seg, from, w);
      var step := Resumption(next.answer, next.conditions.segment(0), next.others);
      ResumptionsCompose(env, seg, r, w', resumptions, [step] + rest);
      assert ([step] + rest)[1..] == rest;
      StretchContinues(env, next.conditions.segment(0).(answers := answers'), s.continuation, w2);
      resumptions := resumptions + ([step] + rest);
    }
  }

  /**
   However often a hosted turn was paused, answered by humans, answered automatically, crashed at a pause and
   continued: if it finishes, it ended as the turn that had all those answers from the start.
   */
  lemma HostedLifeIsTransparent(env: Env, conditions: Conditions, w: World, visits: seq<Visit>)
    requires w.executed == []
    requires env.generation !in w.tables.batches && |w.tables.batches| < env.config.maxGenerations
    requires Life(env, conditions, None, map[], w, visits).0.Ended?
    requires Life(env, conditions, None, map[], w, visits).0.result.Finished?
    ensures var (end, w') := Life(env, conditions, None, map[], w, visits);
            var unpaused := RunTurn(env, Quiet(end.answers), w, []);
            && unpaused.result == end.result
            && unpaused.world.sent == w'.sent
            && unpaused.world.executed == Completing(w'.executed)
  {
    hide RunUntilPause, Quiet, Completing, ResumeTurn, Life;
    var resumptions := LifeResumes(env, conditions, None, map[], w, visits);
    PausingIsTransparent(env, conditions.segment(0).(answers := map[]), w, resumptions);
  }
}
