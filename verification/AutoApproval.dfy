/**
 The hosted chat segment (team/assistant_human/hosted_chat_segment.py) with its auto-approval loop: an approval
 that was already granted is answered without a human and the turn continues at once. The loop has no bound
 of its own; the round limit and the ordinal limit of approval_flow.py make it end.
 */
module AutoApproval {
  import opened Wrappers
  import opened JsonTree
  import opened PowerJournal
  import opened ChatOrchestrator
  import opened PauseTransparency
  import opened ChatTurn
  import opened TurnEffects
  import Text

  const MAX_ORDINAL := 63

  datatype ApprovalRequirement = ApprovalRequirement(
    interruptId: string,
    assistantId: string,
    assistantName: string,
    powerId: string,
    assistantImage: string,
    ordinal: nat,
    title: string,
    summary: string,
    docs: Option<string>,
    runs: string)

  // ---------------------------------------------------------------- the closed approval request

  predicate ClosedText(value: Json, maximum: nat) {
    && value.Str? && 0 < |value.s| <= maximum
    && Text.Stripped(value.s)
    && forall k :: 0 <= k < |value.s| ==> value.s[k] >= ' ' && value.s[k] != '\U{7f}'
  }

  const APPROVAL_FIELDS := {"ordinal", "kind", "request_type", "title", "summary", "docs", "options", "runs"}

  /** The approval names the next answer of its Power, so one call site can never be answered twice. */
  function Requirement(h: HumanInteraction, assistantName: string, assistantImage: string, answerCount: nat)
    : (r: Option<ApprovalRequirement>)
    ensures r.Some? ==>
      && r.value.ordinal == answerCount <= MAX_ORDINAL
      && r.value.interruptId == h.request.interruptId
      && r.value.runs in {"always", "once"}
  {
    var payload := h.payload;
    if payload.Keys != APPROVAL_FIELDS then None
    else if payload["ordinal"] != Int(answerCount) || answerCount > MAX_ORDINAL then None
    else if payload["kind"] != Str("approval") || payload["request_type"] != Str("bool") then None
    else if payload["options"] != List([]) || payload["runs"] !in {Str("always"), Str("once")} then None
    else if assistantName == "" || assistantImage == "" then None
    else if payload["docs"] != Null && !ClosedText(payload["docs"], 2048) then None
    else if !ClosedText(payload["title"], 80) || !ClosedText(payload["summary"], 240) then None
    else
      Some(ApprovalRequirement(
        h.request.interruptId, h.request.assistantId, assistantName, h.request.power, assistantImage, answerCount,
        payload["title"].s, payload["summary"].s,
        if payload["docs"] == Null then None else Some(payload["docs"].s),
        payload["runs"].s))
  }

  /** The payload an approval for its next answer comes with. */
  function PayloadOf(q: ApprovalRequirement): map<string, Json> {
    map["ordinal" := Int(q.ordinal), "kind" := Str("approval"), "request_type" := Str("bool"),
        "title" := Str(q.title), "summary" := Str(q.summary),
        "docs" := if q.docs.None? then Null else Str(q.docs.value),
        "options" := List([]), "runs" := Str(q.runs)]
  }

  /** The requirement is bound to this pause and this Assistant, and its texts are closed. */
  predicate RequirementFor(q: ApprovalRequirement, h: HumanInteraction, assistantName: string, assistantImage: string) {
    && (q.interruptId, q.assistantId, q.powerId) == (h.request.interruptId, h.request.assistantId, h.request.power)
    && q.assistantName == assistantName != "" && q.assistantImage == assistantImage != ""
    && q.ordinal <= MAX_ORDINAL && q.runs in {"always", "once"}
    && ClosedText(Str(q.title), 80) && ClosedText(Str(q.summary), 240)
    && (q.docs.Some? ==> ClosedText(Str(q.docs.value), 2048))
  }

  /** A payload is accepted as exactly the requirement it is the payload of, for the next answer only. */
  lemma RequirementExactly(h: HumanInteraction, name: string, image: string, answerCount: nat, q: ApprovalRequirement)
    ensures Requirement(h, name, image, answerCount) == Some(q)
       <==> RequirementFor(q, h, name, image) && q.ordinal == answerCount && h.payload == PayloadOf(q)
  {
    var r := Requirement(h, name, image, answerCount);
    if r.Some? {
      var p := PayloadOf(r.value);
      assert p.Keys == APPROVAL_FIELDS == h.payload.Keys;
      assert forall f :: f in APPROVAL_FIELDS ==> h.payload[f] == p[f];
      assert h.payload == p;
    }
    if RequirementFor(q, h, name, image) && q.ordinal == answerCount && h.payload == PayloadOf(q) {
      assert h.payload.Keys == APPROVAL_FIELDS;
    }
  }

  // ---------------------------------------------------------------- one iteration

  /** What the loop meets on its n-th iteration; the stores behind `granted` may change between iterations. */
  datatype Conditions = Conditions(
    segment: nat -> Segment,
    identityOk: nat -> bool,
    credentialOk: nat -> bool,
    bound: string -> Option<(string, string)>,
    granted: (nat, ApprovalRequirement) -> Option<bool>)

  datatype HostedError = Drove(error: ChatError) | IdentityChanged | CredentialChanged | ApprovalInvalid

  datatype HostedEnd =
    | Ended(result: DriveResult, requirement: Option<ApprovalRequirement>, answers: Answers)
    | HostedFailed(error: HostedError)

  datatype Verdict = NoApproval | Ask(requirement: ApprovalRequirement) | Granted | Refused

  function Judge(conditions: Conditions, n: nat, answers: Answers, r: DriveResult): (v: Verdict)
    ensures v.Granted? ==>
      && r.Paused? && r.suspension.interaction.Some?
      && |AnswersFor(answers, r.suspension.interaction.value.request.interruptId)| <= MAX_ORDINAL
  {
    if !r.Paused? || r.suspension.interaction.None? then NoApproval
    else
      var h := r.suspension.interaction.value;
      if "kind" in h.payload && h.payload["kind"] == Str("request") then NoApproval
      else
        match conditions.bound(h.request.assistantId)
        case None => Refused
        case Some((name, image)) =>
          match Requirement(h, name, image, |AnswersFor(answers, h.request.interruptId)|)
          case None => Refused
          case Some(requirement) =>
            if requirement.runs != "once" then Ask(requirement)
            else
              match conditions.granted(n, requirement)
              case None => Refused
              case Some(granted) => if granted then Granted else Ask(requirement)
  }

  ghost function Stretch(env: Env, seg: Segment, from: Option<ChatContinuation>, w: World): (DriveResult, World) {
    match from
    case None => RunUntilPause(env, seg, w)
    case Some(c) => ContinueAfterPause(env, seg, c, w)
  }

  /** In iteration `m` the human has already granted the k-th answer of this Power, once and for all. */
  ghost predicate GrantedOnce(conditions: Conditions, m: nat, q: ApprovalRequirement, id: string, k: nat) {
    q.interruptId == id && q.ordinal == k && q.runs == "once" && conditions.granted(m, q) == Some(true)
  }

  /** What the paused Power asks to have approved, if that is in order. */
  function Asked(conditions: Conditions, answers: Answers, h: HumanInteraction): Option<ApprovalRequirement> {
    match conditions.bound(h.request.assistantId)
    case None => None
    case Some((name, image)) => Requirement(h, name, image, |AnswersFor(answers, h.request.interruptId)|)
  }

  /** Exactly when each verdict is given; in particular only a stored grant answers without the human. */
  lemma JudgeExactly(conditions: Conditions, n: nat, answers: Answers, r: DriveResult)
    ensures var v := Judge(conditions, n, answers, r);
            if !r.Paused? || r.suspension.interaction.None? then v == NoApproval
            else
              var h := r.suspension.interaction.value;
              var request := "kind" in h.payload && h.payload["kind"] == Str("request");
              var asked := Asked(conditions, answers, h);
              && (v == NoApproval <==> request)
              && (v.Granted? <==> !request && asked.Some? && asked.value.runs == "once"
                                  && conditions.granted(n, asked.value) == Some(true))
              && (v.Granted? ==> GrantedOnce(conditions, n, asked.value, h.request.interruptId,
                                             |AnswersFor(answers, h.request.interruptId)|))
              && (v.Ask? <==> !request && asked.Some?
                              && (asked.value.runs == "once" ==> conditions.granted(n, asked.value) == Some(false)))
              && (v.Ask? ==> asked == Some(v.requirement))
  {
    hide Requirement;
  }

  // ---------------------------------------------------------------- the measure

  function RoundsLeft(from: Option<ChatContinuation>): nat {
    match from
    case None => MAX_POWER_ROUNDS + 1
    case Some(c) => if c.roundIndex <= MAX_POWER_ROUNDS then MAX_POWER_ROUNDS - c.roundIndex else 0
  }

  function AnswersLeft(answers: Answers, requests: seq<PowerRequest>): nat {
    if requests == [] then 0
    else
      var given := |AnswersFor(answers, requests[0].interruptId)|;
      (if given <= MAX_ORDINAL then MAX_ORDINAL + 1 - given else 0) + AnswersLeft(answers, requests[1..])
  }

  function AnswersLeftFrom(answers: Answers, from: Option<ChatContinuation>): nat {
    match from
    case None => 0
    case Some(c) => AnswersLeft(answers, c.turn.powers)
  }

  /** One more answer to a Power of the batch, below the ordinal limit, uses up the batch's allowance. */
  lemma {:induction false} AnswerUsesAllowance(answers: Answers, requests: seq<PowerRequest>, id: string, answer: Json)
    requires |AnswersFor(answers, id)| <= MAX_ORDINAL
    ensures var after := answers[id := AnswersFor(answers, id) + [answer]];
            && AnswersLeft(after, requests) <= AnswersLeft(answers, requests)
            && (id in IdsOf(requests) ==> AnswersLeft(after, requests) < AnswersLeft(answers, requests))
  {
    if requests != [] {
      AnswerUsesAllowance(answers, requests[1..], id, answer);
      if id in IdsOf(requests) && requests[0].interruptId != id {
        var k :| 0 <= k < |requests| && requests[k].interruptId == id;
        assert requests[1..][k - 1].interruptId == id;
      }
    }
  }

  lemma {:induction false} InterruptionIsInBatch(
    env: Env, seg: Segment, batch: Batch, requests: seq<PowerRequest>, i: nat, results: Results, w: World)
    requires i <= |requests|
    ensures var r := InvokeAll(env, seg, batch, requests, i, results, w).0;
            r.Interrupted? ==> r.interaction.request.interruptId in IdsOf(requests)
    decreases |requests| - i
  {
    hide Invoke;
    if i < |requests| {
      var (r, w') := Invoke(env, seg, batch, requests[i], w.(tick := w.tick + 2));
      if r.Success? && r.value.Returned? {
        InterruptionIsInBatch(env, seg, batch, requests, i + 1, results[requests[i].interruptId := r.value.value], w');
      }
    }
  }

  /** A pause is in a later round, or in the same round with the same batch; its question is about that batch. */
  lemma {:induction false} PauseAdvances(env: Env, seg: Segment, p: Position, w: World)
    ensures var r := Drive(env, seg, p, w).0;
            r.Paused? ==>
              var c := r.suspension.continuation;
              && p.round <= c.roundIndex < MAX_POWER_ROUNDS
              && (c.roundIndex == p.round ==> c.turn == p.turn)
              && (r.suspension.interaction.Some? ==>
                   r.suspension.interaction.value.request.interruptId in IdsOf(c.turn.powers))
    decreases MAX_POWER_ROUNDS + 1 - p.round
  {
    hide InvokeAll, Prepare, Hand, ValidateBatch, Received, IdsOf, RepeatsNoId, HandleOk;
    var batch := ValidateBatch(env, p.turn.powers);
    if p.round < MAX_POWER_ROUNDS && batch.Some? {
      var requests := batch.value;
      BatchIds(env, p.turn.powers);
      var (prepared, w1) := Prepare(env, seg, requests, w.(tick := w.tick + 2));
      if prepared.Success? {
        InterruptionIsInBatch(env, seg, prepared.value, requests, 0, map[], w1);
        var (progress, w2) := InvokeAll(env, seg, prepared.value, requests, 0, map[], w1);
        if progress.AllDone? {
          HandCountsRound(env, seg, p, prepared.value, requests, progress.results, w2);
          var (handed, w3) := Hand(env, seg, p, prepared.value, requests, progress.results, w2);
          if handed.Success? {
            PauseAdvances(env, seg, handed.value, w3);
          }
        }
      }
    }
  }

  lemma HandCountsRound(
    env: Env, seg: Segment, p: Position, batch: Batch, requests: seq<PowerRequest>, results: Results, w: World)
    ensures var r := Hand(env, seg, p, batch, requests, results, w).0;
            r.Success? ==> r.value.round == p.round + 1
  {
  }

  lemma BatchIds(env: Env, powers: seq<PowerRequest>)
    requires ValidateBatch(env, powers).Some?
    ensures IdsOf(ValidateBatch(env, powers).value) == IdsOf(powers)
  {
  }

  /** Every automatic answer lowers the measure, whatever the Brain, the Powers and the stores do. */
  lemma AutomaticAnswerDecreases(
    env: Env, conditions: Conditions, n: nat, seg: Segment, from: Option<ChatContinuation>, answers: Answers, w: World)
    requires Judge(conditions, n, answers, Stretch(env, seg, from, w).0).Granted?
    ensures var s := Stretch(env, seg, from, w).0.suspension;
            var next := Some(s.continuation);
            var answers' := Answered(answers, s, Bool(true));
            || RoundsLeft(next) < RoundsLeft(from)
            || (RoundsLeft(next) == RoundsLeft(from) && AnswersLeftFrom(answers', next) < AnswersLeftFrom(answers, from))
  {
    hide Drive, Received, IdsOf, Requirement;
    var s := Stretch(env, seg, from, w).0.suspension;
    match from {
      case None =>
        var turn := Received(env, w.sent).value;
        PauseAdvances(env, seg, Position(turn, {}, [], 0), w.(tick := w.tick + 2));
      case Some(c) =>
        PauseAdvances(env, seg, AsPosition(c), w);
    }
    AnswerUsesAllowance(answers, s.continuation.turn.powers, s.interaction.value.request.interruptId, Bool(true));
  }

  // ---------------------------------------------------------------- the loop

  ghost function Hosted(
    env: Env, conditions: Conditions, n: nat, from: Option<ChatContinuation>, answers: Answers, w: World)
    : (HostedEnd, World)
    decreases RoundsLeft(from), AnswersLeftFrom(answers, from)
  {
    if !conditions.identityOk(n) then (HostedFailed(IdentityChanged), w)
    else
      var seg := conditions.segment(n).(answers := answers);
      var (r, w') := Stretch(env, seg, from, w);
      if r.Failed? then (HostedFailed(Drove(r.error)), w')
      else if !conditions.credentialOk(n) then (HostedFailed(CredentialChanged), w')
      else
        match Judge(conditions, n, answers, r)
        case NoApproval => (Ended(r, None, answers), w')
        case Refused => (HostedFailed(ApprovalInvalid), w')
        case Ask(requirement) => (Ended(r, Some(requirement), answers), w')
        case Granted =>
          AutomaticAnswerDecreases(env, conditions, n, seg, from, answers, w);
          Hosted(env, conditions, n + 1, Some(r.suspension.continuation), Answered(answers, r.suspension, Bool(true)), w')
  }

  function SeenBy(conditions: Conditions, closed: bool): Conditions {
    if closed then conditions.(segment := (n: nat) => Seen(conditions.segment(n), true)) else conditions
  }

  lemma JudgeIgnoresSegments(conditions: Conditions, closed: bool, n: nat, answers: Answers, r: DriveResult)
    ensures Judge(SeenBy(conditions, closed), n, answers, r) == Judge(conditions, n, answers, r)
  {
  }

  /** The hosted segment as it runs: a new durable batch object for every stretch, the same journal throughout. */
  method RunHostedSegment(
    env: Env, conditions: Conditions, journal: PowerJournal, effects: Effects,
    from: Option<ChatContinuation>, logged: Answers)
    returns (end: HostedEnd)
    requires journal.config == env.config
    modifies journal`batches, journal`operations, effects
    ensures (end, World(journal.State(), effects.sent, effects.executed, effects.tick))
         == Hosted(env, SeenBy(conditions, journal.closed), 0, from, logged,
                   old(World(journal.State(), effects.sent, effects.executed, effects.tick)))
  {
    hide Judge, RunUntilPause, Drive, Answered;
    var current, answers, n := from, logged, 0;
    ghost var seen := SeenBy(conditions, journal.closed);
    ghost var goal := Hosted(env, seen, 0, from, logged, World(journal.State(), effects.sent, effects.executed, effects.tick));
    while true
      invariant seen == SeenBy(conditions, journal.closed)
      invariant goal == Hosted(env, seen, n, current, answers,
                               World(journal.State(), effects.sent, effects.executed, effects.tick))
      decreases RoundsLeft(current), AnswersLeftFrom(answers, current)
    {
      if !conditions.identityOk(n) {
        return HostedFailed(IdentityChanged);
      }
      var seg := conditions.segment(n).(answers := answers);
      ghost var w := World(journal.State(), effects.sent, effects.executed, effects.tick);
      var batch := new PowerBatch(env, seg, journal, effects);
      assert batch.Segment() == seen.segment(n).(answers := answers);
      var r;
      match current {
        case None => r := StartTurn(batch);
        case Some(c) => r := DriveTurn(batch, c);
      }
      assert (r, batch.World()) == Stretch(env, seen.segment(n).(answers := answers), current, w);
      if r.Failed? {
        return HostedFailed(Drove(r.error));
      }
      if !conditions.credentialOk(n) {
        return HostedFailed(CredentialChanged);
      }
      JudgeIgnoresSegments(conditions, journal.closed, n, answers, r);
      match Judge(conditions, n, answers, r) {
        case NoApproval => return Ended(r, None, answers);
        case Refused => return HostedFailed(ApprovalInvalid);
        case Ask(requirement) => return Ended(r, Some(requirement), answers);
        case Granted =>
          AutomaticAnswerDecreases(env, conditions, n, seen.segment(n).(answers := answers), current, answers, w);
          answers := Answered(answers, r.suspension, Bool(true));
          current := Some(r.suspension.continuation);
          n := n + 1;
      }
    }
  }

  // ---------------------------------------------------------------- what the loop owes

  /** An approval that reaches the human asks for the next answer of the Power that paused, within the limit. */
  lemma {:induction false} AskedApprovalIsNext(
    env: Env, conditions: Conditions, n: nat, from: Option<ChatContinuation>, answers: Answers, w: World)
    ensures var end := Hosted(env, conditions, n, from, answers, w).0;
            end.Ended? && end.requirement.Some? ==>
              && end.result.Paused? && end.result.suspension.interaction.Some?
              && var id := end.result.suspension.interaction.value.request.interruptId;
                 && end.requirement.value.interruptId == id
                 && end.requirement.value.ordinal == |AnswersFor(end.answers, id)| <= MAX_ORDINAL
    decreases RoundsLeft(from), AnswersLeftFrom(answers, from)
  {
    hide Stretch, AnswersLeftFrom;
    if conditions.identityOk(n) {
      var seg := conditions.segment(n).(answers := answers);
      var (r, w') := Stretch(env, seg, from, w);
      if Judge(conditions, n, answers, r).Granted? {
        AutomaticAnswerDecreases(env, conditions, n, seg, from, answers, w);
        AskedApprovalIsNext(env, conditions, n + 1, Some(r.suspension.continuation),
                            Answered(answers, r.suspension, Bool(true)), w');
      }
    }
  }

  /** The answers only grow, by `true` answers, and stay within the ordinal limit. */
  ghost predicate Extends(after: Answers, before: Answers) {
    forall id: string ::
      && |AnswersFor(before, id)| <= |AnswersFor(after, id)|
      && AnswersFor(after, id)[..|AnswersFor(before, id)|] == AnswersFor(before, id)
      && (forall k :: |AnswersFor(before, id)| <= k < |AnswersFor(after, id)| ==> AnswersFor(after, id)[k] == Bool(true))
      && (|AnswersFor(after, id)| <= MAX_ORDINAL + 1 || AnswersFor(after, id) == AnswersFor(before, id))
  }

  lemma ExtendsChains(a: Answers, b: Answers, c: Answers)
    requires Extends(a, b) && Extends(b, c)
    ensures Extends(a, c)
  {
  }

  lemma NothingExtends(answers: Answers)
    ensures Extends(answers, answers)
  {
  }

  lemma TrueAnswerExtends(answers: Answers, s: ChatSuspension)
    requires s.interaction.Some? && |AnswersFor(answers, s.interaction.value.request.interruptId)| <= MAX_ORDINAL
    ensures Extends(Answered(answers, s, Bool(true)), answers)
  {
  }

  lemma {:induction false} AnswersOnlyGrow(
    env: Env, conditions: Conditions, n: nat, from: Option<ChatContinuation>, answers: Answers, w: World)
    ensures var end := Hosted(env, conditions, n, from, answers, w).0;
            end.Ended? ==> Extends(end.answers, answers)
    decreases RoundsLeft(from), AnswersLeftFrom(answers, from)
  {
    hide Stretch, AnswersLeftFrom, RoundsLeft, Judge, Answered, Extends;
    NothingExtends(answers);
    if conditions.identityOk(n) {
      var seg := conditions.segment(n).(answers := answers);
      var (r, w') := Stretch(env, seg, from, w);
      if Judge(conditions, n, answers, r).Granted? {
        AutomaticAnswerDecreases(env, conditions, n, seg, from, answers, w);
        var answers' := Answered(answers, r.suspension, Bool(true));
        AnswersOnlyGrow(env, conditions, n + 1, Some(r.suspension.continuation), answers', w');
        var end := Hosted(env, conditions, n + 1, Some(r.suspension.continuation), answers', w').0;
        TrueAnswerExtends(answers, r.suspension);
        if end.Ended? {
          ExtendsChains(end.answers, answers', answers);
        }
      }
    }
  }

  // ---------------------------------------------------------------- nothing is approved that nobody granted

  ghost predicate Approved(conditions: Conditions, n: nat, id: string, k: nat) {
    exists m: nat, q :: n <= m && GrantedOnce(conditions, m, q, id, k)
  }

  /** Every answer beyond those of `before` was granted in an iteration from the n-th on. */
  ghost predicate AllApproved(conditions: Conditions, n: nat, before: Answers, id: string, after: seq<Json>) {
    forall k :: |AnswersFor(before, id)| <= k < |after| ==> Approved(conditions, n, id, k)
  }

  ghost predicate RunsApproved(conditions: Conditions, n: nat, answers: Answers, before: seq<Executed>, after: seq<Executed>) {
    && before <= after
    && forall j :: |before| <= j < |after| ==>
         AllApproved(conditions, n, answers, after[j].request.interruptId, after[j].answers)
  }

  lemma StretchRuns(env: Env, conditions: Conditions, n: nat, seg: Segment, from: Option<ChatContinuation>, w: World)
    ensures RunsApproved(conditions, n, seg.answers, w.executed, Stretch(env, seg, from, w).1.executed)
  {
    hide Drive, Received, TurnEffects.Admits, AllApproved;
    match from {
      case None =>
        var turn := Received(env, w.sent);
        if turn.Some? {
          DriveRunsOnlyJustified(env, seg, Position(turn.value, {}, [], 0), w.(tick := w.tick + 2));
        }
      case Some(c) =>
        DriveRunsOnlyJustified(env, seg, AsPosition(c), w);
    }
    var after := Stretch(env, seg, from, w).1.executed;
    forall j | |w.executed| <= j < |after|
      ensures AllApproved(conditions, n, seg.answers, after[j].request.interruptId, after[j].answers)
    {
      assert Justified(env, seg, after[j]);
      NothingNewToApprove(conditions, n, seg.answers, after[j].request.interruptId);
    }
  }

  lemma NothingNewToApprove(conditions: Conditions, n: nat, answers: Answers, id: string)
    ensures AllApproved(conditions, n, answers, id, AnswersFor(answers, id))
  {
  }

  /** What was granted after one more granted answer was granted after the answers before it. */
  lemma ApprovalsChain(conditions: Conditions, n: nat, answers: Answers, s: ChatSuspension, id: string, after: seq<Json>)
    requires s.interaction.Some?
    requires var asked := s.interaction.value.request.interruptId;
             Approved(conditions, n, asked, |AnswersFor(answers, asked)|)
    requires AllApproved(conditions, n + 1, Answered(answers, s, Bool(true)), id, after)
    ensures AllApproved(conditions, n, answers, id, after)
  {
    hide GrantedOnce;
    var asked := s.interaction.value.request.interruptId;
    var given := |AnswersFor(Answered(answers, s, Bool(true)), id)|;
    assert given == |AnswersFor(answers, id)| + if id == asked then 1 else 0;
    forall k | |AnswersFor(answers, id)| <= k < |after|
      ensures Approved(conditions, n, id, k)
    {
      if k >= given {
        assert Approved(conditions, n + 1, id, k);
        var m: nat, q :| n + 1 <= m && GrantedOnce(conditions, m, q, id, k);
      }
    }
  }

  lemma RunsChain(
    conditions: Conditions, n: nat, answers: Answers, s: ChatSuspension,
    a: seq<Executed>, b: seq<Executed>, c: seq<Executed>)
    requires s.interaction.Some?
    requires var asked := s.interaction.value.request.interruptId;
             Approved(conditions, n, asked, |AnswersFor(answers, asked)|)
    requires RunsApproved(conditions, n, answers, a, b)
    requires RunsApproved(conditions, n + 1, Answered(answers, s, Bool(true)), b, c)
    ensures RunsApproved(conditions, n, answers, a, c)
  {
    hide AllApproved, Approved, Answered;
    forall j | |a| <= j < |c|
      ensures AllApproved(conditions, n, answers, c[j].request.interruptId, c[j].answers)
    {
      if j < |b| {
        assert c[j] == b[j];
      } else {
        ApprovalsChain(conditions, n, answers, s, c[j].request.interruptId, c[j].answers);
      }
    }
  }

  /**
   However the loop ends, no Power was run with, and no turn continued on, an answer that the human had neither given
   before nor granted once and for all, for that very Power and ordinal.
   */
  lemma {:induction false} OnlyGrantedIsApproved(
    env: Env, conditions: Conditions, n: nat, from: Option<ChatContinuation>, answers: Answers, w: World)
    ensures var (end, after) := Hosted(env, conditions, n, from, answers, w);
            && RunsApproved(conditions, n, answers, w.executed, after.executed)
            && (end.Ended? ==> forall id :: AllApproved(conditions, n, answers, id, AnswersFor(end.answers, id)))
    decreases RoundsLeft(from), AnswersLeftFrom(answers, from)
  {
    hide Stretch, AnswersLeftFrom, RoundsLeft, Judge, Answered, AllApproved, Approved, GrantedOnce;
    forall id
      ensures AllApproved(conditions, n, answers, id, AnswersFor(answers, id))
    {
      NothingNewToApprove(conditions, n, answers, id);
    }
    if conditions.identityOk(n) {
      var seg := conditions.segment(n).(answers := answers);
      var (r, w') := Stretch(env, seg, from, w);
      StretchRuns(env, conditions, n, seg, from, w);
      if Judge(conditions, n, answers, r).Granted? {
        AutomaticAnswerDecreases(env, conditions, n, seg, from, answers, w);
        GrantedIsApproved(conditions, n, answers, r);
        var next, answers' := Some(r.suspension.continuation), Answered(answers, r.suspension, Bool(true));
        OnlyGrantedIsApproved(env, conditions, n + 1, next, answers', w');
        var (end, after) := Hosted(env, conditions, n + 1, next, answers', w');
        RunsChain(conditions, n, answers, r.suspension, w.executed, w'.executed, after.executed);
        if end.Ended? {
          forall id
            ensures AllApproved(conditions, n, answers, id, AnswersFor(end.answers, id))
          {
            ApprovalsChain(conditions, n, answers, r.suspension, id, AnswersFor(end.answers, id));
          }
        }
      }
    }
  }

  lemma GrantedIsApproved(conditions: Conditions, n: nat, answers: Answers, r: DriveResult)
    requires Judge(conditions, n, answers, r).Granted?
    ensures r.Paused? && r.suspension.interaction.Some?
    ensures var id := r.suspension.interaction.value.request.interruptId;
            Approved(conditions, n, id, |AnswersFor(answers, id)|)
  {
    JudgeExactly(conditions, n, answers, r);
  }

  /** The Team's identity is checked before each stretch and its credential after it, up to the last one. */
  lemma {:induction false} EveryStretchIsChecked(
    env: Env, conditions: Conditions, n: nat, from: Option<ChatContinuation>, answers: Answers, w: World)
    returns (last: nat)
    ensures var (end, after) := Hosted(env, conditions, n, from, answers, w);
            && n <= last
            && (forall m :: n <= m < last ==> conditions.identityOk(m) && conditions.credentialOk(m))
            && (end == HostedFailed(IdentityChanged) <==> !conditions.identityOk(last))
            && (!conditions.identityOk(n) ==> last == n && after == w)
            && (end == HostedFailed(CredentialChanged) ==> !conditions.credentialOk(last))
            && (end.Ended? ==> conditions.credentialOk(last) && !end.result.Failed?)
    decreases RoundsLeft(from), AnswersLeftFrom(answers, from)
  {
    hide Stretch, AnswersLeftFrom, RoundsLeft, Judge, Answered;
    last := n;
    if conditions.identityOk(n) {
      var seg := conditions.segment(n).(answers := answers);
      var (r, w') := Stretch(env, seg, from, w);
      if !r.Failed? && conditions.credentialOk(n) && Judge(conditions, n, answers, r).Granted? {
        AutomaticAnswerDecreases(env, conditions, n, seg, from, answers, w);
        last := EveryStretchIsChecked(env, conditions, n + 1, Some(r.suspension.continuation),
                                      Answered(answers, r.suspension, Bool(true)), w');
      }
    }
  }

  lemma OwnTablesElsewhere(env: Env, t: Tables)
    ensures Elsewhere(env, t, t) == t
  {
  }

  lemma StretchContinues(env: Env, seg: Segment, c: ChatContinuation, w: World)
    ensures Stretch(env, seg, Some(c), w) == ContinueAfterPause(env, seg, c, w)
  {
  }

  /** The loop is a particular sequence of resumptions, each with the answer `true`. */
  lemma {:induction false} HostedResumes(
    env: Env, conditions: Conditions, n: nat, from: Option<ChatContinuation>, answers: Answers, w: World)
    returns (resumptions: seq<Resumption>)
    requires Hosted(env, conditions, n, from, answers, w).0.Ended?
    ensures var seg := conditions.segment(n).(answers := answers);
            var (r, w') := Stretch(env, seg, from, w);
            var (end, w'') := Hosted(env, conditions, n, from, answers, w);
            ResumeTurn(env, seg, r, w', resumptions) == TurnEnd(end.result, w'', end.answers)
    ensures forall k :: 0 <= k < |resumptions| ==> resumptions[k].answer == Bool(true)
    decreases RoundsLeft(from), AnswersLeftFrom(answers, from)
  {
    hide RunUntilPause, ContinueAfterPause, Judge, AnswersLeftFrom, RoundsLeft, Answered, Stretch, Elsewhere;
    var seg := conditions.segment(n).(answers := answers);
    var (r, w') := Stretch(env, seg, from, w);
    resumptions := [];
    if Judge(conditions, n, answers, r).Granted? {
      AutomaticAnswerDecreases(env, conditions, n, seg, from, answers, w);
      var answers' := Answered(answers, r.suspension, Bool(true));
      var rest := HostedResumes(env, conditions, n + 1, Some(r.suspension.continuation), answers', w');
      resumptions := [Resumption(Bool(true), conditions.segment(n + 1), w'.tables)] + rest;
      assert resumptions[1..] == rest;
      OwnTablesElsewhere(env, w'.tables);
      var c := r.suspension.continuation;
      assert Stretch(env, conditions.segment(n + 1).(answers := answers'), Some(c), w')
          == ContinueAfterPause(env, conditions.segment(n + 1).(answers := answers'), c, w') by {
        StretchContinues(env, conditions.segment(n + 1).(answers := answers'), c, w');
      }
    }
  }

  /** An auto-approved turn that finishes is the turn that had those approvals from the start. */
  lemma AutoApprovalIsTransparent(env: Env, conditions: Conditions, answers: Answers, w: World)
    requires w.executed == []
    requires env.generation !in w.tables.batches && |w.tables.batches| < env.config.maxGenerations
    requires Hosted(env, conditions, 0, None, answers, w).0.Ended?
    requires Hosted(env, conditions, 0, None, answers, w).0.result.Finished?
    ensures var (end, w') := Hosted(env, conditions, 0, None, answers, w);
            var unpaused := RunTurn(env, Quiet(end.answers), w, []);
            && unpaused.result == end.result
            && unpaused.world.sent == w'.sent
            && unpaused.world.executed == Completing(w'.executed)
  {
    hide RunUntilPause, Quiet, Completing, ResumeTurn;
    var resumptions := HostedResumes(env, conditions, 0, None, answers, w);
    PausingIsTransparent(env, conditions.segment(0).(answers := answers), w, resumptions);
  }
}
