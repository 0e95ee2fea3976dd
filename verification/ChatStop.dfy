/**
 Stopping a running chat turn (team/assistant_human/hosted_chat_api.py) against everything the turn does at the
 same time: one step is one section under a guard, one Docker call or one challenge-store call, and the steps of
 any number of turns and stop requests interleave freely.
 */
module ChatStop {
  import opened Wrappers
  import opened ChatRuntime

  datatype Kind = SecretChallenge | AccountChallenge | InputChallenge | ApprovalChallenge

  /** A registered Power: its exec is not yet started, may be running, has failed ambiguously, or is over. */
  datatype Stage = Waiting | Executing | Failing | Over

  datatype Phase =
    | Working
    | Holding(container: string, stage: Stage)
    | Persisted(kind: Kind)
    | Rejected(rollback: Option<Kind>)
    | Settled(committed: bool)

  datatype Turn = Turn(team: string, phase: Phase)

  datatype StopPhase =
    | Cancelling(next: nat)
    | Unmarked
    | MarkedToken(token: Option<string>)
    | Stopping(victim: string, container: string)
    | Done(token: Option<string>)
    | Failed

  datatype Stop = Stop(team: string, phase: StopPhase)

  /** A Power that may still be executing in a container. */
  datatype Exec = Exec(team: string, token: string, container: string)

  datatype Pending = Pending(id: nat, origin: string)

  /**
   The guarded state, the turn threads by token, the stop threads, and what Docker is doing: a Power in `running`
   is watched by its turn, one in `abandoned` may still execute although its turn has given up on it. The remaining
   fields are history: every token ever used, committed or marked, and what became of each challenge.
   */
  datatype System = System(
    runtime: Runtime,
    turns: map<string, Turn>,
    stops: map<nat, Stop>,
    stopped: set<string>,
    running: set<Exec>,
    abandoned: set<Exec>,
    challenges: map<(Kind, string), Pending>,
    used: set<string>,
    committed: set<string>,
    marked: set<string>,
    nextId: nat,
    claimed: set<nat>,
    dropped: set<nat>)

  datatype Kill = Gone | Unreadable | Proved | Unproved

  datatype Step =
    | Begin(token: string, team: string, container: string)
    | Register(token: string, container: string)
    | Start(token: string)
    | Finish(token: string)
    | Break(token: string)
    | FailStop(token: string, proved: bool)
    | Release(token: string)
    | Persist(token: string, kind: Kind)
    | Commit(token: string, matches: bool)
    | Rollback(token: string)
    | End(token: string)
    | Claim(token: string, kind: Kind)
    | CancelOwn(token: string, kind: Kind)
    | Expire(kind: Kind, team: string)
    | StopBegin(stop: nat, team: string)
    | StopCancel(stop: nat)
    | StopMark(stop: nat, container: string)
    | StopRead(stop: nat)
    | StopKill(stop: nat, kill: Kill)
    | StopFail(stop: nat)
    | Clear(team: string)
    | Revive(container: string)

  function KindAt(n: nat): Kind {
    match n
    case 0 => SecretChallenge
    case 1 => AccountChallenge
    case 2 => InputChallenge
    case _ => ApprovalChallenge
  }

  predicate InPhase(s: System, token: string, phases: set<Phase>) {
    token in s.turns && s.turns[token].phase in phases
  }

  predicate IsHolding(s: System, token: string, stages: set<Stage>) {
    token in s.turns && s.turns[token].phase.Holding? && s.turns[token].phase.stage in stages
  }

  predicate TeamIdle(s: System, team: string) {
    forall t :: t in s.turns ==> s.turns[t].team != team
  }

  /**
   When a step can happen. The chat lock allows one turn per Team; tokens are fresh random values; a Team's
   runtime state is cleared only after its containers are removed, under the chat lock; and a container is
   started again only by operations that hold the chat lock of its Team.
   */
  predicate Enabled(s: System, step: Step) {
    match step
    case Begin(token, team, _) => token !in s.used && TeamIdle(s, team)
    case Register(token, _) => InPhase(s, token, {Working})
    case Start(token) => IsHolding(s, token, {Waiting})
    case Finish(token) => IsHolding(s, token, {Executing})
    case Break(token) => IsHolding(s, token, {Waiting, Executing})
    case FailStop(token, _) => IsHolding(s, token, {Failing})
    case Release(token) => IsHolding(s, token, {Over})
    case Persist(token, _) => InPhase(s, token, {Working})
    case Commit(token, matches) =>
      token in s.turns && ((s.turns[token].phase.Working? && matches) || s.turns[token].phase.Persisted?)
    case Rollback(token) =>
      token in s.turns && s.turns[token].phase.Rejected? && s.turns[token].phase.rollback.Some?
    case End(token) => InPhase(s, token, {Working, Rejected(None), Settled(true), Settled(false)})
    case Claim(token, kind) => InPhase(s, token, {Working}) && (kind, s.turns[token].team) in s.challenges
    case CancelOwn(token, _) => InPhase(s, token, {Working})
    case Expire(_, _) => true
    case StopBegin(stop, _) => stop !in s.stops
    case StopCancel(stop) => stop in s.stops && s.stops[stop].phase.Cancelling?
    case StopMark(stop, _) => stop in s.stops && s.stops[stop].phase.Unmarked?
    case StopRead(stop) => stop in s.stops && s.stops[stop].phase.MarkedToken?
    case StopKill(stop, _) => stop in s.stops && s.stops[stop].phase.Stopping?
    case StopFail(stop) => stop in s.stops
    case Clear(team) => TeamIdle(s, team)
    case Revive(container) => forall t :: t in s.turns && s.turns[t].phase.Holding? ==> s.turns[t].phase.container != container
  }

  function At(s: System, token: string, phase: Phase): map<string, Turn>
    requires token in s.turns
  {
    s.turns[token := s.turns[token].(phase := phase)]
  }

  function StopAt(s: System, stop: nat, phase: StopPhase): map<nat, Stop>
    requires stop in s.stops
  {
    s.stops[stop := s.stops[stop].(phase := phase)]
  }

  function Elsewhere(running: set<Exec>, container: string): set<Exec> {
    set e | e in running && e.container != container
  }

  /** The container cannot execute anything any more. */
  function Halted(s: System, container: string): System {
    s.(stopped := s.stopped + {container}, running := Elsewhere(s.running, container),
       abandoned := Elsewhere(s.abandoned, container))
  }

  /** The turn gives up on a Power whose termination it could not prove, and blocks the workload. */
  function GivenUp(s: System, e: Exec): System {
    s.(runtime := Blocked(s.runtime, e.team, e.container), running := s.running - {e},
       abandoned := s.abandoned + (s.running * {e}))
  }

  function Dropped(s: System, key: (Kind, string)): set<nat> {
    if key in s.challenges then {s.challenges[key].id} else {}
  }

  predicate OnTurn(step: Step) {
    step.Begin? || step.Register? || step.Start? || step.Finish? || step.Break? || step.FailStop? || step.Release?
  }

  predicate OnSettle(step: Step) {
    step.Persist? || step.Commit? || step.Rollback? || step.End? || step.Claim? || step.CancelOwn? || step.Expire?
  }

  function NextTurn(s: System, step: Step): System
    requires Enabled(s, step) && OnTurn(step)
  {
    match step
    case Begin(token, team, container) =>
      s.(runtime := Began(s.runtime, team, token, container), turns := s.turns[token := Turn(team, Working)],
         used := s.used + {token})
    case Register(token, container) =>
      var (runtime, r) := Registered(s.runtime, s.turns[token].team, token, container);
      if r.Success? then s.(runtime := runtime, turns := At(s, token, Holding(container, Waiting))) else s
    case Start(token) =>
      var c := s.turns[token].phase.container;
      if c in s.stopped then s.(turns := At(s, token, Holding(c, Failing)))
      else
        s.(turns := At(s, token, Holding(c, Executing)), running := s.running + {Exec(s.turns[token].team, token, c)})
    case Finish(token) =>
      var c := s.turns[token].phase.container;
      s.(turns := At(s, token, Holding(c, Over)), running := s.running - {Exec(s.turns[token].team, token, c)})
    case Break(token) => s.(turns := At(s, token, Holding(s.turns[token].phase.container, Failing)))
    case FailStop(token, proved) =>
      var c := s.turns[token].phase.container;
      var after := if proved then Halted(s, c) else GivenUp(s, Exec(s.turns[token].team, token, c));
      after.(turns := At(s, token, Holding(c, Over)))
    case Release(token) =>
      var turn := s.turns[token];
      s.(runtime := Released(s.runtime, turn.team, token, turn.phase.container), turns := At(s, token, Working))
  }

  function NextSettle(s: System, step: Step): System
    requires Enabled(s, step) && OnSettle(step)
  {
    match step
    case Persist(token, kind) =>
      var key := (kind, s.turns[token].team);
      if key in s.challenges then s
      else
        s.(challenges := s.challenges[key := Pending(s.nextId, token)], nextId := s.nextId + 1,
           turns := At(s, token, Persisted(kind)))
    case Commit(token, matches) =>
      var (runtime, ok) :=
        if matches then Committed(s.runtime, s.turns[token].team, token) else (s.runtime, false);
      if ok then s.(runtime := runtime, turns := At(s, token, Settled(true)), committed := s.committed + {token})
      else
        var rollback := if s.turns[token].phase.Persisted? then Some(s.turns[token].phase.kind) else None;
        s.(runtime := runtime, turns := At(s, token, Rejected(rollback)))
    case Rollback(token) =>
      s.(challenges := s.challenges - {(s.turns[token].phase.rollback.value, s.turns[token].team)},
         turns := At(s, token, Settled(false)))
    case End(token) => s.(runtime := Ended(s.runtime, s.turns[token].team, token), turns := s.turns - {token})
    case Claim(token, kind) =>
      var key := (kind, s.turns[token].team);
      s.(challenges := s.challenges - {key}, claimed := s.claimed + Dropped(s, key))
    case CancelOwn(token, kind) => s.(challenges := s.challenges - {(kind, s.turns[token].team)})
    case Expire(kind, team) => s.(challenges := s.challenges - {(kind, team)})
  }

  function NextStop(s: System, step: Step): System
    requires Enabled(s, step) && !OnTurn(step) && !OnSettle(step)
  {
    match step
    case StopBegin(stop, team) => s.(stops := s.stops[stop := Stop(team, Cancelling(0))])
    case StopCancel(stop) =>
      var n := s.stops[stop].phase.next;
      var key := (KindAt(n), s.stops[stop].team);
      s.(challenges := s.challenges - {key}, dropped := s.dropped + Dropped(s, key),
         stops := StopAt(s, stop, if n >= 3 then Unmarked else Cancelling(n + 1)))
    case StopMark(stop, container) =>
      (match MarkedBy(s.runtime, s.stops[stop].team, container)
       case (_, WrongContainer) => s.(stops := StopAt(s, stop, Failed))
       case (runtime, Marked(token)) =>
         s.(runtime := runtime, stops := StopAt(s, stop, MarkedToken(token)),
            marked := s.marked + (if token.Some? then {token.value} else {})))
    case StopRead(stop) =>
      var token := s.stops[stop].phase.token;
      var active := Lookup(s.runtime.activePowers, s.stops[stop].team);
      s.(stops := StopAt(s, stop,
           if token.Some? && active.Some? && active.value.0 == token.value then Stopping(token.value, active.value.1)
           else Done(token)))
    case StopKill(stop, kill) =>
      var token, c := s.stops[stop].phase.victim, s.stops[stop].phase.container;
      (match kill
       case Unreadable => s.(stops := StopAt(s, stop, Failed))
       case Unproved =>
         s.(runtime := Blocked(s.runtime, s.stops[stop].team, c), stops := StopAt(s, stop, Failed))
       case _ => Halted(s, c).(stops := StopAt(s, stop, Done(Some(token)))))
    case StopFail(stop) => s.(stops := StopAt(s, stop, Failed))
    case Clear(team) =>
      s.(runtime := Cleared(s.runtime, team), running := (set e | e in s.running && e.team != team),
         abandoned := set e | e in s.abandoned && e.team != team)
    case Revive(container) => s.(stopped := s.stopped - {container})
  }

  function Next(s: System, step: Step): System
    requires Enabled(s, step)
  {
    if OnTurn(step) then NextTurn(s, step) else if OnSettle(step) then NextSettle(s, step) else NextStop(s, step)
  }

  // ---------------------------------------------------------------- the invariant

  predicate Live(turn: Turn) {
    !(turn.phase.Settled? && turn.phase.committed)
  }

  /** One turn per Team; the active token of a Team is its turn until that commits; marks are on active tokens. */
  ghost predicate TokensOk(s: System) {
    && (forall t :: t in s.turns ==> t in s.used)
    && (forall t, u :: t in s.turns && u in s.turns && s.turns[t].team == s.turns[u].team ==> t == u)
    && (forall team :: team in s.runtime.activeTokens ==>
         && s.runtime.activeTokens[team] in s.turns
         && s.turns[s.runtime.activeTokens[team]].team == team
         && Live(s.turns[s.runtime.activeTokens[team]]))
    && (forall t :: t in s.turns && Live(s.turns[t]) ==>
         s.turns[t].team in s.runtime.activeTokens && s.runtime.activeTokens[s.turns[t].team] == t)
    && forall t :: t in s.runtime.cancelled ==> t in s.turns && Live(s.turns[t])
  }

  /** The registered Powers are exactly the ones that turns hold. */
  ghost predicate HeldOk(s: System) {
    && (forall team :: team in s.runtime.activePowers ==>
         var (t, c) := s.runtime.activePowers[team];
         t in s.turns && s.turns[t].team == team && s.turns[t].phase.Holding? && s.turns[t].phase.container == c)
    && forall t :: t in s.turns && s.turns[t].phase.Holding? ==>
         && s.turns[t].team in s.runtime.activePowers
         && s.runtime.activePowers[s.turns[t].team] == (t, s.turns[t].phase.container)
  }

  /** A watched Power runs only where its turn holds it; a halted container executes nothing. */
  ghost predicate RunningOk(s: System) {
    && (forall e :: e in s.running ==>
         && e.container !in s.stopped
         && e.token in s.turns && s.turns[e.token].team == e.team
         && s.turns[e.token].phase in {Holding(e.container, Executing), Holding(e.container, Failing)})
    && forall e :: e in s.abandoned ==> e.container !in s.stopped && (e.team, e.container) in s.runtime.blocked
  }

  ghost predicate StopOk(s: System, stop: Stop) {
    match stop.phase
    case MarkedToken(Some(t)) => t in s.marked && (t in s.turns ==> s.turns[t].team == stop.team)
    case Stopping(t, c) =>
      t in s.marked && (t in s.turns && s.turns[t].phase.Holding? ==> s.turns[t].phase.container == c)
    case Done(Some(t)) =>
      && t in s.marked
      && (t in s.turns && s.turns[t].phase.Holding? && s.turns[t].phase.stage != Over ==>
           s.turns[t].phase.container in s.stopped)
    case _ => true
  }

  ghost predicate StopsOk(s: System) {
    forall i :: i in s.stops ==> StopOk(s, s.stops[i])
  }

  /** No token is both committed and marked, and a mark lasts as long as its turn. */
  ghost predicate HistoryOk(s: System) {
    && s.committed <= s.used && s.marked <= s.used && s.committed !! s.marked
    && (forall t :: t in s.marked && t in s.turns ==> t in s.runtime.cancelled)
    && forall t :: t in s.turns ==> (t in s.committed <==> s.turns[t].phase == Settled(true))
  }

  /** A pending challenge was committed, or its turn is still about to commit it or roll it back. */
  ghost predicate ChallengesOk(s: System) {
    forall k :: k in s.challenges ==>
      var origin := s.challenges[k].origin;
      || origin in s.committed
      || (&& origin in s.turns && s.turns[origin].team == k.1
          && s.turns[origin].phase in {Persisted(k.0), Rejected(Some(k.0))})
  }

  ghost predicate IdsOk(s: System) {
    && (forall k :: k in s.challenges ==>
         s.challenges[k].id < s.nextId && s.challenges[k].id !in s.claimed && s.challenges[k].id !in s.dropped)
    && (forall j, k :: j in s.challenges && k in s.challenges && s.challenges[j].id == s.challenges[k].id ==> j == k)
    && (forall i :: i in s.claimed || i in s.dropped ==> i < s.nextId)
    && s.claimed !! s.dropped
  }

  ghost predicate Inv(s: System) {
    TokensOk(s) && HeldOk(s) && RunningOk(s) && StopsOk(s) && HistoryOk(s) && ChallengesOk(s) && IdsOk(s)
  }

  // ---------------------------------------------------------------- what a step leaves alone

  /** The steps after which one turn is in a new phase and every other turn is as before. */
  predicate MovesOneTurn(step: Step) {
    (OnTurn(step) || OnSettle(step)) && !step.Begin? && !step.End? && !step.Expire?
  }

  function PhaseAfter(s: System, step: Step): Phase
    requires Enabled(s, step) && MovesOneTurn(step)
  {
    var turn := s.turns[step.token];
    match step
    case Register(token, container) =>
      if Registered(s.runtime, turn.team, token, container).1.Success? then Holding(container, Waiting) else turn.phase
    case Start(_) => Holding(turn.phase.container, if turn.phase.container in s.stopped then Failing else Executing)
    case Finish(_) => Holding(turn.phase.container, Over)
    case Break(_) => Holding(turn.phase.container, Failing)
    case FailStop(_, _) => Holding(turn.phase.container, Over)
    case Release(_) => Working
    case Persist(_, kind) => if (kind, turn.team) in s.challenges then turn.phase else Persisted(kind)
    case Commit(token, matches) =>
      if matches && token !in s.runtime.cancelled then Settled(true)
      else Rejected(if turn.phase.Persisted? then Some(turn.phase.kind) else None)
    case Rollback(_) => Settled(false)
    case _ => turn.phase
  }

  lemma TurnStep(s: System, step: Step)
    requires Enabled(s, step) && MovesOneTurn(step)
    ensures step.token in s.turns
    ensures Next(s, step).turns == At(s, step.token, PhaseAfter(s, step))
  {
    hide Elsewhere, KindAt, Dropped;
  }

  lemma TurnLeaves(s: System, step: Step)
    requires Enabled(s, step) && (OnTurn(step) || OnSettle(step))
    ensures var s' := Next(s, step);
            && s'.stops == s.stops && s'.marked == s.marked && s'.dropped == s.dropped
            && s'.runtime.blocked >= s.runtime.blocked && s'.stopped >= s.stopped
            && (!step.Begin? ==> s'.used == s.used)
            && (!step.Commit? ==> s'.committed == s.committed)
            && (!step.Register? && !step.Release? && !step.End? ==> s'.runtime.activePowers == s.runtime.activePowers)
            && (!step.Start? && !step.Finish? && !step.FailStop? ==>
                 s'.running == s.running && s'.stopped == s.stopped && s'.abandoned == s.abandoned)
            && (!step.Persist? ==> Fewer(s'.challenges, s.challenges))
  {
    hide Elsewhere, KindAt, Dropped;
  }

  ghost predicate Fewer<K, V>(a: map<K, V>, b: map<K, V>) {
    forall k :: k in a ==> k in b && a[k] == b[k]
  }

  lemma StopLeaves(s: System, step: Step)
    requires Enabled(s, step) && !OnTurn(step) && !OnSettle(step)
    ensures var s' := Next(s, step);
            && s'.turns == s.turns && s'.used == s.used && s'.committed == s.committed && s'.marked >= s.marked
            && s'.nextId == s.nextId && s'.claimed == s.claimed && s'.dropped >= s.dropped
            && (!step.Clear? ==> s'.runtime.activePowers == s.runtime.activePowers)
            && (!step.Clear? ==> s'.runtime.blocked >= s.runtime.blocked)
            && (if step.Revive? then s'.stopped == s.stopped - {step.container} else s'.stopped >= s.stopped)
            && (!step.StopKill? && !step.Clear? ==>
                 s'.running == s.running && s'.abandoned == s.abandoned && s'.stopped <= s.stopped)
            && (step.Clear? || step.Revive? ==> s'.stops == s.stops)
            && Fewer(s'.challenges, s.challenges)
  {
    hide Elsewhere, KindAt;
  }

  lemma BeginStep(s: System, step: Step)
    requires Enabled(s, step) && (step.Begin? || step.End? || step.Expire?)
    ensures Next(s, step).turns
         == match step
            case Begin(token, team, _) => s.turns[token := Turn(team, Working)]
            case End(token) => s.turns - {token}
            case _ => s.turns
    ensures step.Begin? ==> step.token !in s.used
  {
  }

  // ---------------------------------------------------------------- each part is kept

  ghost predicate SameTokens(s: System, s': System) {
    && s'.runtime.activeTokens == s.runtime.activeTokens && s'.runtime.cancelled == s.runtime.cancelled
    && s'.used == s.used
    && s'.turns.Keys == s.turns.Keys
    && forall t :: t in s.turns ==> s'.turns[t].team == s.turns[t].team && Live(s'.turns[t]) == Live(s.turns[t])
  }

  predicate MovesTokens(step: Step) {
    step.Begin? || step.Commit? || step.End? || step.StopMark? || step.Clear?
  }

  /** Outside the sections that change them, tokens, marks and their history stay. */
  lemma GuardLeaves(s: System, step: Step)
    requires Enabled(s, step) && !MovesTokens(step)
    ensures var s' := Next(s, step);
            && s'.runtime.activeTokens == s.runtime.activeTokens && s'.runtime.cancelled == s.runtime.cancelled
            && s'.used == s.used && s'.committed == s.committed && s'.marked == s.marked
  {
    hide Elsewhere, KindAt, Dropped;
  }

  lemma QuietForTokens(s: System, step: Step)
    requires Enabled(s, step) && !MovesTokens(step)
    ensures SameTokens(s, Next(s, step))
  {
    hide Next;
    GuardLeaves(s, step);
    if MovesOneTurn(step) {
      TurnStep(s, step);
    } else if OnSettle(step) {
      BeginStep(s, step);
    } else {
      StopLeaves(s, step);
    }
  }

  lemma SameTokensKeeps(s: System, s': System)
    requires TokensOk(s) && SameTokens(s, s')
    ensures TokensOk(s')
  {
  }

  lemma BeginKeepsTokens(s: System, step: Step)
    requires Enabled(s, step) && TokensOk(s) && step.Begin?
    ensures TokensOk(Next(s, step))
  {
  }

  lemma CommitEffect(s: System, step: Step)
    requires Enabled(s, step) && TokensOk(s) && step.Commit?
    ensures var s' := Next(s, step);
            var settled := PhaseAfter(s, step) == Settled(true);
            && s'.runtime.cancelled == s.runtime.cancelled && s'.used == s.used
            && step.token in s.turns && Live(s.turns[step.token])
            && s'.runtime.activeTokens
               == (if settled then s.runtime.activeTokens - {s.turns[step.token].team} else s.runtime.activeTokens)
            && (settled ==> step.token !in s.runtime.cancelled)
            && step.token in s.used && s'.marked == s.marked
            && s'.committed == s.committed + (if settled then {step.token} else {})
  {
    assert Lookup(s.runtime.activeTokens, s.turns[step.token].team) == Some(step.token);
  }

  /** A turn that commits stops being its Team's active one. */
  lemma SettlingKeepsTokens(s: System, s': System, token: string)
    requires TokensOk(s) && token in s.turns && Live(s.turns[token]) && token !in s.runtime.cancelled
    requires s'.turns == At(s, token, Settled(true)) && s'.used == s.used && s'.runtime.cancelled == s.runtime.cancelled
    requires s'.runtime.activeTokens == s.runtime.activeTokens - {s.turns[token].team}
    ensures TokensOk(s')
  {
    assert !Live(s'.turns[token]);
    assert s'.turns[token].team == s.turns[token].team;
    assert s'.turns.Keys == s.turns.Keys && forall t :: t in s.turns && t != token ==> s'.turns[t] == s.turns[t];
    hide Live, At;
  }

  lemma CommitKeepsTokens(s: System, step: Step)
    requires Enabled(s, step) && TokensOk(s) && step.Commit?
    ensures TokensOk(Next(s, step))
  {
    hide Next, Enabled, TokensOk;
    TurnStep(s, step);
    CommitEffect(s, step);
    if PhaseAfter(s, step) == Settled(true) {
      SettlingKeepsTokens(s, Next(s, step), step.token);
    } else {
      SameTokensKeeps(s, Next(s, step));
    }
  }

  lemma EndKeepsTokens(s: System, step: Step)
    requires Enabled(s, step) && TokensOk(s) && step.End?
    ensures TokensOk(Next(s, step))
  {
  }

  lemma GuardKeepsTokens(s: System, step: Step)
    requires Enabled(s, step) && TokensOk(s) && (step.StopMark? || step.Clear?)
    ensures TokensOk(Next(s, step))
  {
    if step.Clear? {
      assert step.team !in s.runtime.activeTokens;
      assert s.runtime.activeTokens - {step.team} == s.runtime.activeTokens;
    }
  }

  lemma KeepsTokens(s: System, step: Step)
    requires Enabled(s, step) && TokensOk(s)
    ensures TokensOk(Next(s, step))
  {
    hide TokensOk, Enabled, Next, SameTokens;
    if !MovesTokens(step) {
      QuietForTokens(s, step);
      SameTokensKeeps(s, Next(s, step));
    } else if step.Begin? {
      BeginKeepsTokens(s, step);
    } else if step.Commit? {
      CommitKeepsTokens(s, step);
    } else if step.End? {
      EndKeepsTokens(s, step);
    } else {
      GuardKeepsTokens(s, step);
    }
  }

  ghost predicate SameHeld(s: System, s': System) {
    && s'.runtime.activePowers == s.runtime.activePowers
    && (forall t :: t in s.turns && s.turns[t].phase.Holding? ==>
         && t in s'.turns && s'.turns[t].team == s.turns[t].team
         && s'.turns[t].phase.Holding? && s'.turns[t].phase.container == s.turns[t].phase.container)
    && forall t :: t in s'.turns && s'.turns[t].phase.Holding? ==> t in s.turns && s.turns[t].phase.Holding?
  }

  predicate MovesHeld(step: Step) {
    step.Register? || step.Release? || step.End? || step.Clear?
  }

  lemma OneTurnQuietForHeld(s: System, step: Step)
    requires Enabled(s, step) && TokensOk(s) && !MovesHeld(step) && MovesOneTurn(step)
    ensures SameHeld(s, Next(s, step))
  {
    hide Next, TokensOk, Registered;
    TurnStep(s, step);
    TurnLeaves(s, step);
  }

  lemma QuietForHeld(s: System, step: Step)
    requires Enabled(s, step) && TokensOk(s) && !MovesHeld(step)
    ensures SameHeld(s, Next(s, step))
  {
    hide Next;
    if MovesOneTurn(step) {
      OneTurnQuietForHeld(s, step);
    } else if OnTurn(step) || OnSettle(step) {
      TurnLeaves(s, step);
      BeginStep(s, step);
    } else {
      StopLeaves(s, step);
    }
  }

  lemma SameHeldKeeps(s: System, s': System)
    requires HeldOk(s) && SameHeld(s, s')
    ensures HeldOk(s')
  {
  }

  ghost predicate OnlyTurnOf(s: System, token: string) {
    token in s.turns && forall t :: t in s.turns && t != token ==> s.turns[t].team != s.turns[token].team
  }

  lemma OneTurnPerTeam(s: System, token: string)
    requires TokensOk(s) && token in s.turns
    ensures OnlyTurnOf(s, token)
  {
  }

  lemma RegisteringKeepsHeld(s: System, s': System, token: string, container: string)
    requires OnlyTurnOf(s, token) && HeldOk(s) && token in s.turns && !s.turns[token].phase.Holding?
    requires s'.turns == At(s, token, Holding(container, Waiting))
    requires s'.runtime.activePowers == s.runtime.activePowers[s.turns[token].team := (token, container)]
    ensures HeldOk(s')
  {
    assert forall t :: t in s.turns && t != token ==> s'.turns[t] == s.turns[t];
  }

  lemma ReleasingKeepsHeld(s: System, s': System, token: string)
    requires OnlyTurnOf(s, token) && HeldOk(s) && token in s.turns && s.turns[token].phase.Holding?
    requires s'.turns == At(s, token, Working)
    requires s'.runtime.activePowers == s.runtime.activePowers - {s.turns[token].team}
    ensures HeldOk(s')
  {
    assert forall t :: t in s.turns && t != token ==> s'.turns[t] == s.turns[t];
  }

  /** A registration either fails and changes nothing, or is for a turn that held nothing; a release is of its own. */
  lemma MovingEffect(s: System, step: Step)
    requires Enabled(s, step) && HeldOk(s) && (step.Register? || step.Release?)
    ensures var s' := Next(s, step);
            var team := s.turns[step.token].team;
            && (step.Register? ==>
                 && !s.turns[step.token].phase.Holding?
                 && (s' == s || s'.runtime.activePowers == s.runtime.activePowers[team := (step.token, step.container)]))
            && (step.Release? ==>
                 && s.turns[step.token].phase.Holding?
                 && s'.runtime.activePowers == s.runtime.activePowers - {team})
  {
  }

  lemma MovingKeepsHeld(s: System, step: Step)
    requires Enabled(s, step) && TokensOk(s) && HeldOk(s) && (step.Register? || step.Release?)
    ensures HeldOk(Next(s, step))
  {
    hide TokensOk, HeldOk, OnlyTurnOf;
    TurnStep(s, step);
    MovingEffect(s, step);
    OneTurnPerTeam(s, step.token);
    if step.Release? {
      ReleasingKeepsHeld(s, Next(s, step), step.token);
    } else if Next(s, step) != s {
      RegisteringKeepsHeld(s, Next(s, step), step.token, step.container);
    }
  }

  lemma RemovalEffect(s: System, step: Step)
    requires Enabled(s, step) && TokensOk(s) && (step.End? || step.Clear?)
    ensures var team := if step.End? then s.turns[step.token].team else step.team;
            var s' := Next(s, step);
            && s'.runtime.activePowers == s.runtime.activePowers - {team}
            && s'.turns == (if step.End? then s.turns - {step.token} else s.turns)
            && (step.End? ==> !s.turns[step.token].phase.Holding?)
            && (step.Clear? ==> TeamIdle(s, team))
  {
  }

  lemma TeamRemovalKeepsHeld(s: System, s': System, team: string)
    requires HeldOk(s) && Fewer(s'.turns, s.turns)
    requires forall t :: t in s'.turns ==> s.turns[t].team != team
    requires forall t :: t in s.turns && s.turns[t].team != team ==> t in s'.turns
    requires s'.runtime.activePowers == s.runtime.activePowers - {team}
    ensures HeldOk(s')
  {
  }

  lemma RemovalKeepsHeld(s: System, step: Step)
    requires Enabled(s, step) && TokensOk(s) && HeldOk(s) && (step.End? || step.Clear?)
    ensures HeldOk(Next(s, step))
  {
    hide Next, HeldOk;
    RemovalEffect(s, step);
    TeamRemovalKeepsHeld(s, Next(s, step), if step.End? then s.turns[step.token].team else step.team);
  }

  lemma KeepsHeld(s: System, step: Step)
    requires Enabled(s, step) && TokensOk(s) && HeldOk(s)
    ensures HeldOk(Next(s, step))
  {
    hide TokensOk, HeldOk, Enabled, Next, SameHeld;
    if !MovesHeld(step) {
      QuietForHeld(s, step);
      SameHeldKeeps(s, Next(s, step));
    } else if step.Register? || step.Release? {
      MovingKeepsHeld(s, step);
    } else {
      RemovalKeepsHeld(s, step);
    }
  }

  ghost predicate SameRunning(s: System, s': System) {
    && s'.running == s.running && s'.abandoned == s.abandoned
    && s'.stopped <= s.stopped && s'.runtime.blocked >= s.runtime.blocked
    && forall t :: t in s.turns && s.turns[t].phase.Holding? && s.turns[t].phase.stage in {Executing, Failing} ==>
         && t in s'.turns && s'.turns[t].team == s.turns[t].team
         && s'.turns[t].phase in {s.turns[t].phase, Holding(s.turns[t].phase.container, Failing)}
  }

  predicate MovesRunning(step: Step) {
    step.Start? || step.Finish? || step.FailStop? || step.StopKill? || step.Clear?
  }

  lemma OneTurnQuietForRunning(s: System, step: Step)
    requires Enabled(s, step) && TokensOk(s) && !MovesRunning(step) && MovesOneTurn(step)
    ensures SameRunning(s, Next(s, step))
  {
    hide Next;
    TurnStep(s, step);
    TurnLeaves(s, step);
  }

  lemma QuietForRunning(s: System, step: Step)
    requires Enabled(s, step) && TokensOk(s) && !MovesRunning(step)
    ensures SameRunning(s, Next(s, step))
  {
    hide Next;
    if MovesOneTurn(step) {
      OneTurnQuietForRunning(s, step);
    } else if OnTurn(step) || OnSettle(step) {
      TurnLeaves(s, step);
      BeginStep(s, step);
    } else {
      StopLeaves(s, step);
    }
  }

  lemma SameRunningKeeps(s: System, s': System)
    requires RunningOk(s) && SameRunning(s, s')
    ensures RunningOk(s')
  {
  }

  lemma TurnKeepsRunning(s: System, step: Step)
    requires Enabled(s, step) && TokensOk(s) && RunningOk(s) && (step.Start? || step.Finish?)
    ensures RunningOk(Next(s, step))
  {
  }

  lemma FailureKeepsRunning(s: System, step: Step)
    requires Enabled(s, step) && TokensOk(s) && RunningOk(s) && step.FailStop?
    ensures RunningOk(Next(s, step))
  {
  }

  lemma StopKeepsRunning(s: System, step: Step)
    requires Enabled(s, step) && TokensOk(s) && RunningOk(s) && (step.StopKill? || step.Clear?)
    ensures RunningOk(Next(s, step))
  {
    assert Next(s, step).turns == s.turns;
  }

  lemma KeepsRunning(s: System, step: Step)
    requires Enabled(s, step) && TokensOk(s) && RunningOk(s)
    ensures RunningOk(Next(s, step))
  {
    hide TokensOk, RunningOk, Enabled, Next, SameRunning;
    if !MovesRunning(step) {
      QuietForRunning(s, step);
      SameRunningKeeps(s, Next(s, step));
    } else if step.StopKill? || step.Clear? {
      StopKeepsRunning(s, step);
    } else if step.FailStop? {
      FailureKeepsRunning(s, step);
    } else {
      TurnKeepsRunning(s, step);
    }
  }

  /** Marks stay, no marked turn takes hold of a new container, and held containers do not come back to life. */
  ghost predicate SameStops(s: System, s': System) {
    && s'.stops == s.stops && s'.marked >= s.marked
    && forall t :: t in s'.turns && t in s.marked ==>
         && t in s.turns && s'.turns[t].team == s.turns[t].team
         && (s'.turns[t].phase.Holding? ==>
              && s.turns[t].phase.Holding? && s.turns[t].phase.container == s'.turns[t].phase.container
              && (s'.turns[t].phase.stage != Over ==> s.turns[t].phase.stage != Over)
              && (s.turns[t].phase.container in s.stopped ==> s'.turns[t].phase.container in s'.stopped))
  }

  predicate MovesStops(step: Step) {
    step.StopBegin? || step.StopCancel? || step.StopMark? || step.StopRead? || step.StopKill? || step.StopFail?
  }

  lemma OneTurnQuietForStops(s: System, step: Step)
    requires Enabled(s, step) && TokensOk(s) && HistoryOk(s) && !MovesStops(step) && MovesOneTurn(step)
    ensures SameStops(s, Next(s, step))
  {
    hide Next;
    TurnStep(s, step);
    TurnLeaves(s, step);
  }

  lemma QuietForStops(s: System, step: Step)
    requires Enabled(s, step) && TokensOk(s) && HistoryOk(s) && !MovesStops(step)
    ensures SameStops(s, Next(s, step))
  {
    hide Next;
    if MovesOneTurn(step) {
      OneTurnQuietForStops(s, step);
    } else if OnTurn(step) || OnSettle(step) {
      TurnLeaves(s, step);
      BeginStep(s, step);
    } else {
      StopLeaves(s, step);
    }
  }

  lemma SameStopsKeeps(s: System, s': System)
    requires StopsOk(s) && SameStops(s, s')
    ensures StopsOk(s')
  {
  }

  function StopPhaseAfter(s: System, step: Step): StopPhase
    requires Enabled(s, step) && MovesStops(step)
  {
    match step
    case StopBegin(_, _) => Cancelling(0)
    case StopCancel(stop) => if s.stops[stop].phase.next >= 3 then Unmarked else Cancelling(s.stops[stop].phase.next + 1)
    case StopMark(stop, container) =>
      (match MarkedBy(s.runtime, s.stops[stop].team, container)
       case (_, WrongContainer) => Failed
       case (_, Marked(token)) => MarkedToken(token))
    case StopRead(stop) =>
      var token, active := s.stops[stop].phase.token, Lookup(s.runtime.activePowers, s.stops[stop].team);
      if token.Some? && active.Some? && active.value.0 == token.value then Stopping(token.value, active.value.1)
      else Done(token)
    case StopKill(stop, kill) =>
      if kill == Unreadable || kill == Unproved then Failed else Done(Some(s.stops[stop].phase.victim))
    case _ => Failed
  }

  /** A stop thread changes its own record only. */
  lemma StopStep(s: System, step: Step)
    requires Enabled(s, step) && MovesStops(step)
    ensures var s' := Next(s, step);
            && s'.stops == s.stops[step.stop :=
                 Stop(if step.StopBegin? then step.team else s.stops[step.stop].team, StopPhaseAfter(s, step))]
            && (!step.StopBegin? ==> step.stop in s.stops)
            && (step.StopMark? && StopPhaseAfter(s, step).MarkedToken? && StopPhaseAfter(s, step).token.Some? ==>
                 && StopPhaseAfter(s, step).token.value in s'.marked
                 && Lookup(s.runtime.activeTokens, s.stops[step.stop].team) == StopPhaseAfter(s, step).token)
            && (step.StopKill? && StopPhaseAfter(s, step).Done? ==> s.stops[step.stop].phase.container in s'.stopped)
  {
    hide Elsewhere, KindAt, Dropped;
  }

  /** Other stop threads see the same turns and no fewer marks. */
  lemma OtherStopsStay(s: System, s': System, stop: Stop)
    requires StopOk(s, stop)
    requires s'.turns == s.turns && s'.marked >= s.marked && s'.stopped >= s.stopped
    ensures StopOk(s', stop)
  {
  }

  lemma OwnStopOk(s: System, step: Step)
    requires Enabled(s, step) && TokensOk(s) && HeldOk(s) && MovesStops(step)
    requires step.stop in s.stops ==> StopOk(s, s.stops[step.stop])
    ensures StopOk(Next(s, step), Next(s, step).stops[step.stop])
  {
    hide Next;
    StopStep(s, step);
    StopLeaves(s, step);
  }

  lemma StopStepKeepsStops(s: System, step: Step)
    requires Enabled(s, step) && TokensOk(s) && HeldOk(s) && StopsOk(s) && MovesStops(step)
    ensures StopsOk(Next(s, step))
  {
    hide Next, StopOk, TokensOk, HeldOk, Enabled, StopPhaseAfter;
    StopStep(s, step);
    StopLeaves(s, step);
    OwnStopOk(s, step);
    var s' := Next(s, step);
    forall i | i in s'.stops && i != step.stop
      ensures StopOk(s', s'.stops[i])
    {
      OtherStopsStay(s, s', s.stops[i]);
    }
  }

  lemma KeepsStops(s: System, step: Step)
    requires Enabled(s, step) && TokensOk(s) && HeldOk(s) && HistoryOk(s) && StopsOk(s)
    ensures StopsOk(Next(s, step))
  {
    hide TokensOk, HeldOk, HistoryOk, StopsOk, Enabled, Next, SameStops;
    if MovesStops(step) {
      StopStepKeepsStops(s, step);
    } else {
      QuietForStops(s, step);
      SameStopsKeeps(s, Next(s, step));
    }
  }

  ghost predicate SameHistory(s: System, s': System) {
    && s'.used == s.used && s'.committed == s.committed && s'.marked == s.marked
    && s'.runtime.cancelled == s.runtime.cancelled
    && forall t :: t in s'.turns ==> t in s.turns && Live(s'.turns[t]) == Live(s.turns[t])
  }

  lemma QuietForHistory(s: System, step: Step)
    requires Enabled(s, step) && !MovesTokens(step)
    ensures SameHistory(s, Next(s, step))
  {
    hide Next, Enabled;
    GuardLeaves(s, step);
    QuietForTokens(s, step);
  }

  lemma SameHistoryKeeps(s: System, s': System)
    requires HistoryOk(s) && SameHistory(s, s')
    ensures HistoryOk(s')
  {
  }

  lemma CommitKeepsHistory(s: System, step: Step)
    requires Enabled(s, step) && TokensOk(s) && HistoryOk(s) && step.Commit?
    ensures HistoryOk(Next(s, step))
  {
    hide TokensOk;
    TurnStep(s, step);
    CommitEffect(s, step);
  }

  lemma MovingKeepsHistory(s: System, step: Step)
    requires Enabled(s, step) && TokensOk(s) && HistoryOk(s) && MovesTokens(step) && !step.Commit?
    ensures HistoryOk(Next(s, step))
  {
  }

  lemma KeepsHistory(s: System, step: Step)
    requires Enabled(s, step) && TokensOk(s) && HistoryOk(s)
    ensures HistoryOk(Next(s, step))
  {
    hide TokensOk, HistoryOk, Enabled, Next, SameHistory;
    if step.Commit? {
      CommitKeepsHistory(s, step);
    } else if MovesTokens(step) {
      MovingKeepsHistory(s, step);
    } else {
      QuietForHistory(s, step);
      SameHistoryKeeps(s, Next(s, step));
    }
  }

  predicate Pausing(phase: Phase) {
    phase.Persisted? || (phase.Rejected? && phase.rollback.Some?)
  }

  ghost predicate SameChallenges(s: System, s': System) {
    && (forall k :: k in s'.challenges ==> k in s.challenges && s'.challenges[k] == s.challenges[k])
    && s'.committed >= s.committed
    && forall t :: t in s.turns && Pausing(s.turns[t].phase) ==> t in s'.turns && s'.turns[t] == s.turns[t]
  }

  predicate MovesChallenges(step: Step) {
    step.Persist? || step.Commit? || step.Rollback?
  }

  lemma OneTurnQuietForChallenges(s: System, step: Step)
    requires Enabled(s, step) && TokensOk(s) && !MovesChallenges(step) && MovesOneTurn(step)
    ensures SameChallenges(s, Next(s, step))
  {
    hide Next;
    TurnStep(s, step);
    TurnLeaves(s, step);
  }

  lemma QuietForChallenges(s: System, step: Step)
    requires Enabled(s, step) && TokensOk(s) && !MovesChallenges(step)
    ensures SameChallenges(s, Next(s, step))
  {
    hide Next;
    if MovesOneTurn(step) {
      OneTurnQuietForChallenges(s, step);
    } else if OnTurn(step) || OnSettle(step) {
      TurnLeaves(s, step);
      BeginStep(s, step);
    } else {
      StopLeaves(s, step);
    }
  }

  lemma SameChallengesKeeps(s: System, s': System)
    requires ChallengesOk(s) && SameChallenges(s, s')
    ensures ChallengesOk(s')
  {
  }

  lemma MovingKeepsChallenges(s: System, step: Step)
    requires Enabled(s, step) && TokensOk(s) && HistoryOk(s) && ChallengesOk(s) && MovesChallenges(step)
    ensures ChallengesOk(Next(s, step))
  {
  }

  lemma KeepsChallenges(s: System, step: Step)
    requires Enabled(s, step) && TokensOk(s) && HistoryOk(s) && ChallengesOk(s)
    ensures ChallengesOk(Next(s, step))
  {
    hide TokensOk, HistoryOk, ChallengesOk, Enabled, Next, SameChallenges;
    if MovesChallenges(step) {
      MovingKeepsChallenges(s, step);
    } else {
      QuietForChallenges(s, step);
      SameChallengesKeeps(s, Next(s, step));
    }
  }

  ghost predicate SameIds(s: System, s': System) {
    && (forall k :: k in s'.challenges ==> k in s.challenges && s'.challenges[k] == s.challenges[k])
    && s'.nextId == s.nextId && s'.claimed == s.claimed && s'.dropped == s.dropped
  }

  predicate MovesIds(step: Step) {
    step.Persist? || step.Claim? || step.StopCancel?
  }

  lemma QuietForIds(s: System, step: Step)
    requires Enabled(s, step) && !MovesIds(step)
    ensures SameIds(s, Next(s, step))
  {
    hide Elsewhere;
  }

  lemma MovingKeepsIds(s: System, step: Step)
    requires Enabled(s, step) && IdsOk(s) && MovesIds(step)
    ensures IdsOk(Next(s, step))
  {
  }

  lemma SameIdsKeeps(s: System, s': System)
    requires IdsOk(s) && SameIds(s, s')
    ensures IdsOk(s')
  {
  }

  lemma KeepsIds(s: System, step: Step)
    requires Enabled(s, step) && IdsOk(s)
    ensures IdsOk(Next(s, step))
  {
    hide IdsOk, Enabled, Next, SameIds;
    if MovesIds(step) {
      MovingKeepsIds(s, step);
    } else {
      QuietForIds(s, step);
      SameIdsKeeps(s, Next(s, step));
    }
  }

  lemma StepKeepsInv(s: System, step: Step)
    requires Inv(s) && Enabled(s, step)
    ensures Inv(Next(s, step))
  {
    hide TokensOk, HeldOk, RunningOk, StopsOk, HistoryOk, ChallengesOk, IdsOk, Next, Enabled;
    KeepsTokens(s, step);
    KeepsHeld(s, step);
    KeepsRunning(s, step);
    KeepsStops(s, step);
    KeepsHistory(s, step);
    KeepsChallenges(s, step);
    KeepsIds(s, step);
  }

  // ---------------------------------------------------------------- whole runs

  ghost predicate ValidRun(s: System, steps: seq<Step>)
    decreases |steps|
  {
    steps != [] ==> Enabled(s, steps[0]) && ValidRun(Next(s, steps[0]), steps[1..])
  }

  ghost function Run(s: System, steps: seq<Step>): System
    requires ValidRun(s, steps)
    decreases |steps|
  {
    if steps == [] then s else Run(Next(s, steps[0]), steps[1..])
  }

  const START := System(Runtime(map[], map[], map[], {}, {}), map[], map[], {}, {}, {}, map[], {}, {}, {}, 0, {}, {})

  lemma {:induction false} RunKeepsInv(s: System, steps: seq<Step>)
    requires Inv(s) && ValidRun(s, steps)
    ensures Inv(Run(s, steps))
    decreases |steps|
  {
    hide Inv, Next, Enabled;
    if steps != [] {
      StepKeepsInv(s, steps[0]);
      RunKeepsInv(Next(s, steps[0]), steps[1..]);
    }
  }

  lemma EveryReachableStateIsOk(steps: seq<Step>)
    requires ValidRun(START, steps)
    ensures Inv(Run(START, steps))
  {
    RunKeepsInv(START, steps);
  }

  // ---------------------------------------------------------------- what a successful stop leaves running

  ghost predicate MayExecute(s: System, e: Exec) {
    e in s.running || e in s.abandoned
  }

  ghost predicate StoppedTurn(s: System, stop: nat, token: string) {
    stop in s.stops && s.stops[stop].phase == Done(Some(token))
  }

  /** The step gives up on this Power while it may still execute. */
  ghost predicate GivesUp(s: System, step: Step, e: Exec)
    requires Enabled(s, step)
  {
    && step.FailStop? && !step.proved && step.token == e.token && e in s.running
    && s.turns[step.token].team == e.team && s.turns[step.token].phase.container == e.container
  }

  /** The step halts the container, or clears the Team whose containers have all been removed. */
  ghost predicate Silences(s: System, step: Step, e: Exec)
    requires Enabled(s, step)
  {
    match step
    case FailStop(token, proved) => proved && s.turns[token].phase.container == e.container
    case StopKill(stop, kill) => kill in {Gone, Proved} && s.stops[stop].phase.container == e.container
    case Clear(team) => team == e.team
    case _ => false
  }

  lemma AbandonedAfterStep(s: System, step: Step, e: Exec)
    requires Enabled(s, step)
    ensures e in Next(s, step).abandoned <==> GivesUp(s, step, e) || (e in s.abandoned && !Silences(s, step, e))
  {
    hide KindAt, Dropped;
  }

  ghost predicate NeverSilenced(s: System, steps: seq<Step>, e: Exec)
    requires ValidRun(s, steps)
    decreases |steps|
  {
    steps != [] ==> !Silences(s, steps[0], e) && NeverSilenced(Next(s, steps[0]), steps[1..], e)
  }

  /** Somewhere in the run a turn gave up on this Power, and nothing has silenced it since. */
  ghost predicate LeftBehind(s: System, steps: seq<Step>, e: Exec)
    requires ValidRun(s, steps)
    decreases |steps|
  {
    steps != [] &&
    var next := Next(s, steps[0]);
    || (GivesUp(s, steps[0], e) && NeverSilenced(next, steps[1..], e))
    || LeftBehind(next, steps[1..], e)
  }

  lemma {:induction false} AbandonedIsLeftBehind(s: System, steps: seq<Step>, e: Exec)
    requires ValidRun(s, steps)
    ensures e in Run(s, steps).abandoned
       <==> LeftBehind(s, steps, e) || (e in s.abandoned && NeverSilenced(s, steps, e))
    decreases |steps|
  {
    hide Next, Enabled, GivesUp, Silences;
    if steps != [] {
      AbandonedAfterStep(s, steps[0], e);
      AbandonedIsLeftBehind(Next(s, steps[0]), steps[1..], e);
    }
  }

  lemma StoppedTurnIsNotWatched(s: System, stop: nat, e: Exec)
    requires Inv(s) && StoppedTurn(s, stop, e.token)
    ensures e !in s.running
  {
    hide TokensOk, HeldOk, HistoryOk, ChallengesOk, IdsOk;
    assert StopOk(s, s.stops[stop]);
  }

  /**
   After a successful stop a Power of the stopped turn may still execute exactly if that turn itself had given up
   on it without proof of its termination, and its container was not halted nor its Team cleared since.
   */
  lemma SuccessfulStopLeavesExactly(steps: seq<Step>, stop: nat, e: Exec)
    requires ValidRun(START, steps) && StoppedTurn(Run(START, steps), stop, e.token)
    ensures MayExecute(Run(START, steps), e) <==> LeftBehind(START, steps, e)
  {
    hide Inv, Next, Enabled, LeftBehind, NeverSilenced;
    EveryReachableStateIsOk(steps);
    StoppedTurnIsNotWatched(Run(START, steps), stop, e);
    AbandonedIsLeftBehind(START, steps, e);
  }

  /** No termination of a Power of this turn stayed unproved in the run. */
  ghost predicate AlwaysProved(steps: seq<Step>, token: string) {
    forall i :: 0 <= i < |steps| ==> steps[i] != FailStop(token, false)
  }

  lemma {:induction false} ProvedLeavesNothing(s: System, steps: seq<Step>, e: Exec)
    requires ValidRun(s, steps) && AlwaysProved(steps, e.token)
    ensures !LeftBehind(s, steps, e)
    decreases |steps|
  {
    hide Next, Enabled, Silences;
    if steps != [] {
      assert steps[0] != FailStop(e.token, false);
      assert forall i :: 0 <= i < |steps| - 1 ==> steps[1..][i] == steps[i + 1];
      ProvedLeavesNothing(Next(s, steps[0]), steps[1..], e);
    }
  }

  /** If every termination of the turn was proved, a successful stop leaves none of its Powers executing. */
  lemma SuccessfulStopLeavesNothingRunning(steps: seq<Step>, stop: nat, e: Exec)
    requires ValidRun(START, steps) && StoppedTurn(Run(START, steps), stop, e.token)
    requires AlwaysProved(steps, e.token)
    ensures !MayExecute(Run(START, steps), e)
  {
    hide MayExecute, StoppedTurn, ValidRun, Run, LeftBehind, AlwaysProved;
    SuccessfulStopLeavesExactly(steps, stop, e);
    ProvedLeavesNothing(START, steps, e);
  }

  lemma {:induction false} RunsCompose(s: System, a: seq<Step>, b: seq<Step>)
    requires ValidRun(s, a) && ValidRun(Run(s, a), b)
    ensures ValidRun(s, a + b) && Run(s, a + b) == Run(Run(s, a), b)
    decreases |a|
  {
    hide Next, Enabled;
    if a == [] {
      assert a + b == b;
    } else {
      assert (a + b)[0] == a[0] && (a + b)[1..] == a[1..] + b;
      RunsCompose(Next(s, a[0]), a[1..], b);
    }
  }

  const GIVING_UP: seq<Step> :=
    [Begin("t", "a", "brain"), Register("t", "c"), Start("t"), Break("t"), FailStop("t", false), Release("t")]

  const STOPPING: seq<Step> :=
    [StopBegin(0, "a"), StopCancel(0), StopCancel(0), StopCancel(0), StopCancel(0), StopMark(0, "brain"), StopRead(0)]

  /** The turn is idle again, and its Power executes on in a blocked workload. */
  const GIVEN_UP := System(
    Runtime(map["a" := "t"], map["a" := "brain"], map[], {("a", "c")}, {}), map["t" := Turn("a", Working)], map[], {},
    {}, {Exec("a", "t", "c")}, map[], {"t"}, {}, {}, 0, {}, {})

  /** The turn in one phase, with its Power watched or not. */
  function Escaping(phase: Phase, running: set<Exec>, abandoned: set<Exec>): System {
    var powers: map<string, (string, string)> := if phase.Holding? then map["a" := ("t", "c")] else map[];
    var blocked := if abandoned == {} then {} else {("a", "c")};
    System(Runtime(map["a" := "t"], map["a" := "brain"], powers, blocked, {}), map["t" := Turn("a", phase)], map[], {},
           running, abandoned, map[], {"t"}, {}, {}, 0, {}, {})
  }

  const POWER := Exec("a", "t", "c")

  lemma EscapeBegins()
    ensures Enabled(START, GIVING_UP[0]) && Next(START, GIVING_UP[0]) == Escaping(Working, {}, {})
    ensures var s := Escaping(Working, {}, {});
            Enabled(s, GIVING_UP[1]) && Next(s, GIVING_UP[1]) == Escaping(Holding("c", Waiting), {}, {})
  {
  }

  lemma EscapeRuns()
    ensures var s := Escaping(Holding("c", Waiting), {}, {});
            Enabled(s, GIVING_UP[2]) && Next(s, GIVING_UP[2]) == Escaping(Holding("c", Executing), {POWER}, {})
    ensures var s := Escaping(Holding("c", Executing), {POWER}, {});
            Enabled(s, GIVING_UP[3]) && Next(s, GIVING_UP[3]) == Escaping(Holding("c", Failing), {POWER}, {})
  {
  }

  lemma EscapeIsUnproved()
    ensures var s := Escaping(Holding("c", Failing), {POWER}, {});
            Enabled(s, GIVING_UP[4]) && Next(s, GIVING_UP[4]) == Escaping(Holding("c", Over), {}, {POWER})
    ensures var s := Escaping(Holding("c", Over), {}, {POWER});
            Enabled(s, GIVING_UP[5]) && Next(s, GIVING_UP[5]) == GIVEN_UP
  {
  }

  lemma TurnGivesUp()
    ensures ValidRun(START, GIVING_UP) && Run(START, GIVING_UP) == GIVEN_UP
  {
    hide Enabled, Next, Escaping;
    EscapeBegins();
    EscapeRuns();
    EscapeIsUnproved();
    RunOfSix(START, Escaping(Working, {}, {}), Escaping(Holding("c", Waiting), {}, {}),
             Escaping(Holding("c", Executing), {POWER}, {}), Escaping(Holding("c", Failing), {POWER}, {}),
             Escaping(Holding("c", Over), {}, {POWER}), GIVING_UP);
  }

  lemma RunOfSix(s: System, s1: System, s2: System, s3: System, s4: System, s5: System, steps: seq<Step>)
    requires |steps| == 6
    requires Enabled(s, steps[0]) && Next(s, steps[0]) == s1 && Enabled(s1, steps[1]) && Next(s1, steps[1]) == s2
    requires Enabled(s2, steps[2]) && Next(s2, steps[2]) == s3 && Enabled(s3, steps[3]) && Next(s3, steps[3]) == s4
    requires Enabled(s4, steps[4]) && Next(s4, steps[4]) == s5 && Enabled(s5, steps[5])
    ensures ValidRun(s, steps) && Run(s, steps) == Next(s5, steps[5])
  {
    hide Next, Enabled;
    assert steps[1..][1..] == steps[2..] && steps[2..][1..] == steps[3..] && steps[3..][1..] == steps[4..];
    assert steps[4..][1..] == steps[5..] && steps[5..][1..] == [];
    assert ValidRun(s5, steps[5..]) && Run(s5, steps[5..]) == Next(s5, steps[5]);
    assert ValidRun(s4, steps[4..]) && Run(s4, steps[4..]) == Next(s5, steps[5]);
    assert ValidRun(s3, steps[3..]) && Run(s3, steps[3..]) == Next(s5, steps[5]);
    assert ValidRun(s2, steps[2..]) && Run(s2, steps[2..]) == Next(s5, steps[5]);
    assert ValidRun(s1, steps[1..]) && Run(s1, steps[1..]) == Next(s5, steps[5]);
  }

  /** The idle turn with a stop request in one phase. */
  function Requested(phase: StopPhase): System {
    GIVEN_UP.(stops := map[0 := Stop("a", phase)])
  }

  function MarkedWith(phase: StopPhase): System {
    Requested(phase).(runtime := GIVEN_UP.runtime.(cancelled := {"t"}), marked := {"t"})
  }

  lemma StopCancels(n: nat)
    requires n <= 3
    ensures var s := Requested(Cancelling(n));
            && Enabled(s, StopCancel(0))
            && Next(s, StopCancel(0)) == Requested(if n == 3 then Unmarked else Cancelling(n + 1))
  {
  }

  lemma StopBegins()
    ensures Enabled(GIVEN_UP, StopBegin(0, "a")) && Next(GIVEN_UP, StopBegin(0, "a")) == Requested(Cancelling(0))
  {
  }

  lemma StopMarks()
    ensures var s := Requested(Unmarked);
            Enabled(s, StopMark(0, "brain")) && Next(s, StopMark(0, "brain")) == MarkedWith(MarkedToken(Some("t")))
  {
  }

  lemma StopReads()
    ensures var s := MarkedWith(MarkedToken(Some("t")));
            Enabled(s, StopRead(0)) && Next(s, StopRead(0)) == MarkedWith(Done(Some("t")))
  {
  }

  lemma OneStep(s: System, step: Step)
    requires Enabled(s, step)
    ensures ValidRun(s, [step]) && Run(s, [step]) == Next(s, step)
  {
    hide Enabled, Next;
    assert [step][1..] == [];
  }

  /** The stop finds no registered Power and succeeds. */
  lemma StopMissesPower()
    ensures ValidRun(GIVEN_UP, STOPPING) && Run(GIVEN_UP, STOPPING) == MarkedWith(Done(Some("t")))
  {
    hide Enabled, Next, Requested, MarkedWith;
    StopBegins();
    StopMarks();
    StopReads();
    StopCancels(0);
    StopCancels(1);
    StopCancels(2);
    StopCancels(3);
    RunOfSix(GIVEN_UP, Requested(Cancelling(0)), Requested(Cancelling(1)), Requested(Cancelling(2)),
             Requested(Cancelling(3)), Requested(Unmarked), STOPPING[..6]);
    OneStep(MarkedWith(MarkedToken(Some("t"))), STOPPING[6]);
    RunsCompose(GIVEN_UP, STOPPING[..6], [STOPPING[6]]);
    assert STOPPING[..6] + [STOPPING[6]] == STOPPING;
  }

  /** A stop can succeed although a Power of its turn still executes. */
  lemma SuccessfulStopCanLeavePower()
    ensures ValidRun(START, GIVING_UP + STOPPING)
    ensures StoppedTurn(Run(START, GIVING_UP + STOPPING), 0, "t")
    ensures MayExecute(Run(START, GIVING_UP + STOPPING), Exec("a", "t", "c"))
  {
    hide ValidRun, Run;
    TurnGivesUp();
    StopMissesPower();
    RunsCompose(START, GIVING_UP, STOPPING);
  }

  /** The token was marked by a stop, whether or not its turn has ended since. */
  lemma MarkedTurnCannotRegister(s: System, step: Step)
    requires Inv(s) && Enabled(s, step) && step.Register? && step.token in s.marked
    ensures Next(s, step) == s
  {
  }

  /** After the mark no Power of that turn newly registers: what it holds later, it held all along. */
  lemma {:induction false} NothingRegistersAfterMark(s: System, steps: seq<Step>, token: string)
    requires Inv(s) && ValidRun(s, steps) && token in s.marked
    ensures var s' := Run(s, steps);
            && token in s'.marked
            && (token in s'.turns && s'.turns[token].phase.Holding? ==>
                 && token in s.turns && s.turns[token].phase.Holding?
                 && s.turns[token].phase.container == s'.turns[token].phase.container)
    decreases |steps|
  {
    hide Inv, Next, Enabled;
    if steps != [] {
      StepKeepsInv(s, steps[0]);
      MarkedHoldsNothingNew(s, steps[0], token);
      NothingRegistersAfterMark(Next(s, steps[0]), steps[1..], token);
    }
  }

  lemma MarkedHoldsNothingNew(s: System, step: Step, token: string)
    requires Inv(s) && Enabled(s, step) && token in s.marked
    ensures var s' := Next(s, step);
            && token in s'.marked
            && (token in s'.turns && s'.turns[token].phase.Holding? ==>
                 && token in s.turns && s.turns[token].phase.Holding?
                 && s.turns[token].phase.container == s'.turns[token].phase.container)
  {
    hide TokensOk, HeldOk, RunningOk, StopsOk, HistoryOk, ChallengesOk, IdsOk, Enabled, Next;
    if MovesStops(step) {
      StopsKeepTurns(s, step);
    } else {
      QuietForStops(s, step);
    }
  }

  lemma StopsKeepTurns(s: System, step: Step)
    requires Enabled(s, step) && MovesStops(step)
    ensures Next(s, step).turns == s.turns && Next(s, step).marked >= s.marked
  {
  }

  /** Exactly one of stop and commit wins: a marked turn's commit is rejected, a committed one is never marked. */
  lemma MarkedTurnCannotCommit(s: System, step: Step)
    requires Inv(s) && Enabled(s, step)
    ensures step.Commit? && step.token in s.marked ==> InPhase(Next(s, step), step.token, {
              Rejected(if s.turns[step.token].phase.Persisted? then Some(s.turns[step.token].phase.kind) else None)})
    ensures forall t :: t in s.committed ==> t !in Next(s, step).marked
    ensures forall t :: t in s.marked ==> t !in Next(s, step).committed
  {
    hide HeldOk, RunningOk, StopsOk, ChallengesOk, IdsOk;
    KeepsHistory(s, step);
    HistoryGrows(s, step);
  }

  lemma HistoryGrows(s: System, step: Step)
    requires Enabled(s, step)
    ensures s.committed <= Next(s, step).committed && s.marked <= Next(s, step).marked
  {
    hide Elsewhere, KindAt;
  }

  /** The challenge of a turn that did not commit is gone once the turn has ended. */
  lemma UncommittedTurnLeavesNoChallenge(s: System, key: (Kind, string))
    requires Inv(s) && key in s.challenges && s.challenges[key].origin !in s.turns
    ensures s.challenges[key].origin in s.committed && s.challenges[key].origin !in s.marked
  {
  }

  /** Every mark is on the active token of some Team. */
  lemma EveryCancelledTokenIsActive(s: System, token: string)
    requires Inv(s) && token in s.runtime.cancelled
    ensures exists team :: team in s.runtime.activeTokens && s.runtime.activeTokens[team] == token
  {
  }

  /** A challenge that a stop removed is never claimed, before or afterwards. */
  lemma {:induction false} DroppedChallengeIsNeverClaimed(s: System, steps: seq<Step>, id: nat)
    requires Inv(s) && ValidRun(s, steps) && id in s.dropped
    ensures id in Run(s, steps).dropped && id !in Run(s, steps).claimed
    decreases |steps|
  {
    hide Inv, Next, Enabled;
    if steps != [] {
      StepKeepsInv(s, steps[0]);
      DroppedStays(s, steps[0]);
      DroppedChallengeIsNeverClaimed(Next(s, steps[0]), steps[1..], id);
    } else {
      assert id !in s.claimed by { InvIds(s); }
    }
  }

  lemma InvIds(s: System)
    requires Inv(s)
    ensures s.claimed !! s.dropped
  {
  }

  lemma DroppedStays(s: System, step: Step)
    requires Enabled(s, step)
    ensures s.dropped <= Next(s, step).dropped
  {
  }
}
