/**
 That turns and stops get anywhere: a turn nobody disturbs runs its Power and commits, and a stop that nothing fails
 marks the turn, ends its Power and leaves the turn unable to commit. `ChatStop` says what never happens.
 */
module StopProgress {
  import opened Wrappers
  import opened ChatRuntime
  import opened ChatStop

  /** One more step at the end of a run. */
  lemma RunThen(s: System, steps: seq<Step>, step: Step)
    requires ValidRun(s, steps) && Enabled(Run(s, steps), step)
    ensures ValidRun(s, steps + [step]) && Run(s, steps + [step]) == Next(Run(s, steps), step)
  {
    hide Enabled, Next;
    var last := Run(s, steps);
    assert [step][1..] == [];
    assert ValidRun(last, [step]) && Run(last, [step]) == Next(last, step);
    RunsCompose(s, steps, [step]);
  }

  // ---------------------------------------------------------------- committing

  /** A turn settles as committed exactly if its context still matches and no stop has marked it. */
  lemma CommitIsDecidedByMark(s: System, step: Step)
    requires Inv(s) && Enabled(s, step) && step.Commit?
    ensures var after := Next(s, step);
            var token, phase := step.token, s.turns[step.token].phase;
            var commits := step.matches && token !in s.runtime.cancelled;
            && after.turns == s.turns[token := s.turns[token].(phase :=
                 if commits then Settled(true) else Rejected(if phase.Persisted? then Some(phase.kind) else None))]
            && after.committed == s.committed + (if commits then {token} else {})
            && (commits ==> s.turns[token].team !in after.runtime.activeTokens)
            && (!commits ==> after.runtime == s.runtime)
            && after.challenges == s.challenges
  {
  }

  /** A persisted challenge is new, carries its turn, and goes exactly when the turn rolls it back. */
  lemma PersistAndRollBack(s: System, token: string, kind: Kind)
    requires Inv(s) && Enabled(s, Persist(token, kind)) && (kind, s.turns[token].team) !in s.challenges
    ensures var key := (kind, s.turns[token].team);
            var kept := Next(s, Persist(token, kind));
            && kept.challenges == s.challenges[key := Pending(s.nextId, token)]
            && kept.turns == s.turns[token := Turn(s.turns[token].team, Persisted(kind))]
            && Enabled(kept, Commit(token, false))
            && var rejected := Next(kept, Commit(token, false));
               && Enabled(rejected, Rollback(token))
               && Next(rejected, Rollback(token)).challenges == s.challenges
               && Next(rejected, Rollback(token)).turns == s.turns[token := Turn(s.turns[token].team, Settled(false))]
  {
    hide TokensOk, HeldOk, RunningOk, StopsOk, HistoryOk, ChallengesOk, IdsOk;
    var key := (kind, s.turns[token].team);
    assert (s.challenges[key := Pending(s.nextId, token)]) - {key} == s.challenges;
    var kept := Next(s, Persist(token, kind));
    var rejected := Next(kept, Commit(token, false));
    assert rejected.turns == s.turns[token := Turn(s.turns[token].team, Rejected(Some(kind)))];
    assert rejected.challenges == kept.challenges;
  }

  /** A claim takes the pending challenge of its Team and kind, once. */
  lemma ClaimTakesChallenge(s: System, token: string, kind: Kind)
    requires Inv(s) && Enabled(s, Claim(token, kind))
    ensures var key := (kind, s.turns[token].team);
            var after := Next(s, Claim(token, kind));
            && after == s.(challenges := s.challenges - {key}, claimed := s.claimed + {s.challenges[key].id})
            && s.challenges[key].id !in s.claimed && !Enabled(after, Claim(token, kind))
  {
    hide TokensOk, HeldOk, RunningOk, StopsOk, HistoryOk, ChallengesOk;
  }

  // ---------------------------------------------------------------- a turn nobody disturbs

  /** The Team's turn in one phase, in an otherwise unchanged system. */
  function InTurn(s: System, token: string, team: string, brain: string, phase: Phase): System {
    var e := if phase.Holding? then {Exec(team, token, phase.container)} else {};
    s.(runtime := s.runtime.(activeTokens := s.runtime.activeTokens[team := token],
                             activeContainers := s.runtime.activeContainers[team := brain],
                             activePowers := if phase.Holding? then s.runtime.activePowers[team := (token, phase.container)]
                                             else s.runtime.activePowers),
       turns := s.turns[token := Turn(team, phase)],
       running := if phase.Holding? && phase.stage.Executing? then s.running + e else s.running,
       used := s.used + {token})
  }

  /** The Team has no turn and none of the entries of one. */
  ghost predicate Idle(s: System, team: string) {
    TeamIdle(s, team) && team !in s.runtime.activeContainers
  }

  lemma IdleHasNoEntries(s: System, token: string, team: string)
    requires Inv(s) && Idle(s, team) && token !in s.used
    ensures team !in s.runtime.activeTokens && team !in s.runtime.activePowers && token !in s.turns
    ensures token !in s.runtime.cancelled && forall e :: e in s.running ==> e.token != token
  {
    hide StopsOk, HistoryOk, ChallengesOk, IdsOk;
  }

  lemma TurnBegins(s: System, token: string, team: string, brain: string, container: string)
    requires Inv(s) && Idle(s, team) && token !in s.used && container !in s.stopped
    ensures Enabled(s, Begin(token, team, brain))
    ensures Next(s, Begin(token, team, brain)) == InTurn(s, token, team, brain, Working)
    ensures var w := InTurn(s, token, team, brain, Working);
            && Enabled(w, Register(token, container))
            && Next(w, Register(token, container)) == InTurn(s, token, team, brain, Holding(container, Waiting))
  {
    IdleHasNoEntries(s, token, team);
    hide Inv;
    var w := InTurn(s, token, team, brain, Working);
    assert Next(w, Register(token, container)).turns == s.turns[token := Turn(team, Holding(container, Waiting))];
  }

  lemma NextOnTurn(s: System, step: Step)
    requires Enabled(s, step) && OnTurn(step)
    ensures Next(s, step) == NextTurn(s, step)
  {
  }

  lemma PowerStarts(s: System, token: string, team: string, brain: string, container: string)
    requires container !in s.stopped
    ensures var h := InTurn(s, token, team, brain, Holding(container, Waiting));
            && Enabled(h, Start(token)) && Next(h, Start(token)) == InTurn(s, token, team, brain, Holding(container, Executing))
  {
    var h := InTurn(s, token, team, brain, Holding(container, Waiting));
    NextOnTurn(h, Start(token));
    hide Next, NextSettle, NextStop;
    assert h.turns[token := Turn(team, Holding(container, Executing))]
        == s.turns[token := Turn(team, Holding(container, Executing))];
  }

  lemma PowerFinishes(s: System, token: string, team: string, brain: string, container: string)
    requires Exec(team, token, container) !in s.running
    ensures var h := InTurn(s, token, team, brain, Holding(container, Executing));
            && Enabled(h, Finish(token)) && Next(h, Finish(token)) == InTurn(s, token, team, brain, Holding(container, Over))
  {
    var h := InTurn(s, token, team, brain, Holding(container, Executing));
    NextOnTurn(h, Finish(token));
    hide Next, NextSettle, NextStop;
    assert h.running - {Exec(team, token, container)} == s.running;
    assert h.turns[token := Turn(team, Holding(container, Over))] == s.turns[token := Turn(team, Holding(container, Over))];
  }

  lemma PowerIsReleased(s: System, token: string, team: string, brain: string, container: string)
    requires team !in s.runtime.activePowers
    ensures var h := InTurn(s, token, team, brain, Holding(container, Over));
            && Enabled(h, Release(token)) && Next(h, Release(token)) == InTurn(s, token, team, brain, Working)
  {
    var h := InTurn(s, token, team, brain, Holding(container, Over));
    NextOnTurn(h, Release(token));
    hide Next, NextSettle, NextStop;
    assert (s.runtime.activePowers[team := (token, container)]) - {team} == s.runtime.activePowers;
    assert h.turns[token := Turn(team, Working)] == s.turns[token := Turn(team, Working)];
  }

  /** The turn has committed and is about to end. */
  function Committing(s: System, token: string, team: string): System {
    s.(turns := s.turns[token := Turn(team, Settled(true))], used := s.used + {token}, committed := s.committed + {token})
  }

  lemma TurnCommits(s: System, token: string, team: string, brain: string)
    requires team !in s.runtime.activeTokens && team !in s.runtime.activeContainers && token !in s.runtime.cancelled
    ensures var w := InTurn(s, token, team, brain, Working);
            Enabled(w, Commit(token, true)) && Next(w, Commit(token, true)) == Committing(s, token, team)
  {
    var w := InTurn(s, token, team, brain, Working);
    CommitIsExact(w.runtime, team, token);
    assert w.turns[token := Turn(team, Settled(true))] == s.turns[token := Turn(team, Settled(true))];
    assert w.runtime.activeTokens - {team} == s.runtime.activeTokens;
    assert w.runtime.activeContainers - {team} == s.runtime.activeContainers;
    hide NextTurn, NextStop;
  }

  lemma TurnEnds(s: System, token: string, team: string)
    requires team !in s.runtime.activeTokens && team !in s.runtime.activeContainers && team !in s.runtime.activePowers
    requires token !in s.runtime.cancelled && token !in s.turns
    ensures var settled := Committing(s, token, team);
            && Enabled(settled, End(token))
            && Next(settled, End(token)) == s.(used := s.used + {token}, committed := s.committed + {token})
  {
    var settled := Committing(s, token, team);
    assert settled.turns - {token} == s.turns;
    assert Ended(s.runtime, team, token) == s.runtime by {
      assert s.runtime.activeTokens - {team} == s.runtime.activeTokens;
      assert s.runtime.activeContainers - {team} == s.runtime.activeContainers;
      assert s.runtime.activePowers - {team} == s.runtime.activePowers;
      assert s.runtime.cancelled - {token} == s.runtime.cancelled;
    }
    hide NextTurn, NextStop;
  }

  lemma ExecutingRuns(s: System, token: string, team: string, brain: string, container: string)
    ensures Exec(team, token, container) in InTurn(s, token, team, brain, Holding(container, Executing)).running
  {
  }

  /** A turn nobody disturbs executes its Power, commits, and leaves nothing behind but its history. */
  lemma UndisturbedTurnCommits(s: System, token: string, team: string, brain: string, container: string)
    requires Inv(s) && Idle(s, team) && token !in s.used && container !in s.stopped
    ensures var called := [Begin(token, team, brain), Register(token, container), Start(token)];
            var settled := [Finish(token), Release(token), Commit(token, true), End(token)];
            && ValidRun(s, called) && ValidRun(s, called + settled)
            && Exec(team, token, container) in Run(s, called).running
            && Run(s, called + settled) == s.(used := s.used + {token}, committed := s.committed + {token})
  {
    hide Enabled, Next, Inv, InTurn, Idle, Committing;
    IdleHasNoEntries(s, token, team);
    IdleHasNoContainer(s, team);
    TurnBegins(s, token, team, brain, container);
    PowerStarts(s, token, team, brain, container);
    PowerFinishes(s, token, team, brain, container);
    PowerIsReleased(s, token, team, brain, container);
    TurnCommits(s, token, team, brain);
    TurnEnds(s, token, team);
    ExecutingRuns(s, token, team, brain, container);
    var called := [Begin(token, team, brain), Register(token, container), Start(token)];
    var settled := [Finish(token), Release(token), Commit(token, true), End(token)];
    RunOfThree(s, called[0], called[1], called[2]);
    var executing := InTurn(s, token, team, brain, Holding(container, Executing));
    RunOfFour(executing, settled[0], settled[1], settled[2], settled[3]);
    RunsCompose(s, called, settled);
  }

  lemma IdleHasNoContainer(s: System, team: string)
    requires Idle(s, team)
    ensures team !in s.runtime.activeContainers
  {
  }

  lemma RunOfTwo(s: System, a: Step, b: Step)
    requires Enabled(s, a) && Enabled(Next(s, a), b)
    ensures ValidRun(s, [a, b]) && Run(s, [a, b]) == Next(Next(s, a), b)
  {
    hide Enabled, Next;
    assert [b][1..] == [] && [a, b][1..] == [b];
    assert ValidRun(Next(s, a), [b]) && Run(Next(s, a), [b]) == Next(Next(s, a), b);
  }

  lemma RunOfThree(s: System, a: Step, b: Step, c: Step)
    requires Enabled(s, a) && Enabled(Next(s, a), b) && Enabled(Next(Next(s, a), b), c)
    ensures ValidRun(s, [a, b, c]) && Run(s, [a, b, c]) == Next(Next(Next(s, a), b), c)
  {
    hide Enabled, Next;
    RunOfTwo(s, a, b);
    RunThen(s, [a, b], c);
    assert [a, b] + [c] == [a, b, c];
  }

  lemma RunOfFour(s: System, a: Step, b: Step, c: Step, d: Step)
    requires Enabled(s, a) && Enabled(Next(s, a), b) && Enabled(Next(Next(s, a), b), c)
    requires Enabled(Next(Next(Next(s, a), b), c), d)
    ensures ValidRun(s, [a, b, c, d]) && Run(s, [a, b, c, d]) == Next(Next(Next(Next(s, a), b), c), d)
  {
    hide Enabled, Next;
    RunOfThree(s, a, b, c);
    RunThen(s, [a, b, c], d);
    assert [a, b, c] + [d] == [a, b, c, d];
  }

  // ---------------------------------------------------------------- a stop that nothing fails

  function WithoutChallenges(s: System, team: string, n: nat): map<(Kind, string), Pending> {
    map key | key in s.challenges && !(key.1 == team && exists i :: 0 <= i < n && KindAt(i) == key.0) :: s.challenges[key]
  }

  function DroppedBy(s: System, team: string, n: nat): set<nat> {
    set key | key in s.challenges && key.1 == team && (exists i :: 0 <= i < n && KindAt(i) == key.0) :: s.challenges[key].id
  }

  /** The stop has cancelled the challenges of `n` kinds. */
  function StopCancelled(s: System, stop: nat, team: string, n: nat): System {
    s.(stops := s.stops[stop := Stop(team, if n > 3 then Unmarked else Cancelling(n))],
       challenges := WithoutChallenges(s, team, n), dropped := s.dropped + DroppedBy(s, team, n))
  }

  lemma StopStarts(s: System, stop: nat, team: string)
    requires stop !in s.stops
    ensures Enabled(s, StopBegin(stop, team)) && Next(s, StopBegin(stop, team)) == StopCancelled(s, stop, team, 0)
  {
    assert WithoutChallenges(s, team, 0) == s.challenges;
    assert DroppedBy(s, team, 0) == {};
  }

  lemma OneKindLess(s: System, team: string, n: nat)
    requires n <= 3
    ensures WithoutChallenges(s, team, n) - {(KindAt(n), team)} == WithoutChallenges(s, team, n + 1)
    ensures var key := (KindAt(n), team);
            DroppedBy(s, team, n) + (if key in WithoutChallenges(s, team, n) then {s.challenges[key].id} else {})
            == DroppedBy(s, team, n + 1)
  {
    hide KindAt;
    var key := (KindAt(n), team);
    forall k | k in s.challenges && k.1 == team
      ensures (exists i :: 0 <= i < n + 1 && KindAt(i) == k.0) <==> k == key || exists i :: 0 <= i < n && KindAt(i) == k.0
    {
    }
  }

  lemma StopGoesOn(s: System, stop: nat, team: string, n: nat)
    requires n <= 3
    ensures var s1 := StopCancelled(s, stop, team, n);
            Enabled(s1, StopCancel(stop)) && Next(s1, StopCancel(stop)) == StopCancelled(s, stop, team, n + 1)
  {
    OneKindLess(s, team, n);
    hide WithoutChallenges, DroppedBy;
    var s1 := StopCancelled(s, stop, team, n);
    var key := (KindAt(n), team);
    assert Next(s1, StopCancel(stop)).stops == s.stops[stop := Stop(team, if n + 1 > 3 then Unmarked else Cancelling(n + 1))];
    DroppedOne(s, team, n, key);
  }

  lemma DroppedOne(s: System, team: string, n: nat, key: (Kind, string))
    ensures var left := WithoutChallenges(s, team, n);
            key in left ==> key in s.challenges && left[key] == s.challenges[key]
  {
  }

  /** The kinds are exactly the four that a stop cancels. */
  lemma AllKindsGone(s: System, team: string, kind: Kind)
    ensures (kind, team) !in WithoutChallenges(s, team, 4)
  {
    assert KindAt(0) == SecretChallenge && KindAt(1) == AccountChallenge && KindAt(2) == InputChallenge
      && KindAt(3) == ApprovalChallenge;
    assert kind == KindAt(0) || kind == KindAt(1) || kind == KindAt(2) || kind == KindAt(3);
  }

  /** A turn executing a Power in a container that was not halted. */
  ghost predicate ExecutesIn(s: System, token: string, team: string, brain: string, container: string) {
    && token in s.turns && s.turns[token] == Turn(team, Holding(container, Executing))
    && team in s.runtime.activeContainers && s.runtime.activeContainers[team] == brain
  }

  lemma NextOnStop(s: System, step: Step)
    requires Enabled(s, step) && !OnTurn(step) && !OnSettle(step)
    ensures Next(s, step) == NextStop(s, step)
  {
  }

  /** The stop has marked the turn. */
  function StopMarked(s: System, stop: nat, token: string, phase: StopPhase): System
    requires stop in s.stops
  {
    s.(runtime := s.runtime.(cancelled := s.runtime.cancelled + {token}),
       stops := s.stops[stop := Stop(s.stops[stop].team, phase)], marked := s.marked + {token})
  }

  lemma StopMarks(s: System, stop: nat, token: string, team: string, brain: string)
    requires stop in s.stops && s.stops[stop] == Stop(team, Unmarked)
    requires Lookup(s.runtime.activeTokens, team) == Some(token) && Lookup(s.runtime.activeContainers, team) == Some(brain)
    ensures Enabled(s, StopMark(stop, brain))
    ensures Next(s, StopMark(stop, brain)) == StopMarked(s, stop, token, MarkedToken(Some(token)))
  {
    NextOnStop(s, StopMark(stop, brain));
    hide Next, NextTurn, NextSettle;
  }

  lemma StopReads(s: System, stop: nat, token: string, team: string, container: string)
    requires stop in s.stops && s.stops[stop].team == team
    requires Lookup(s.runtime.activePowers, team) == Some((token, container))
    ensures var marked := StopMarked(s, stop, token, MarkedToken(Some(token)));
            && Enabled(marked, StopRead(stop))
            && Next(marked, StopRead(stop)) == StopMarked(s, stop, token, Stopping(token, container))
  {
    var marked := StopMarked(s, stop, token, MarkedToken(Some(token)));
    NextOnStop(marked, StopRead(stop));
    hide Next, NextTurn, NextSettle;
    assert marked.stops[stop := Stop(team, Stopping(token, container))]
        == s.stops[stop := Stop(team, Stopping(token, container))];
  }

  lemma StopKills(s: System, stop: nat, token: string, team: string, container: string)
    requires stop in s.stops && s.stops[stop].team == team
    ensures var read := StopMarked(s, stop, token, Stopping(token, container));
            && Enabled(read, StopKill(stop, Proved))
            && Next(read, StopKill(stop, Proved)) == Halted(StopMarked(s, stop, token, Done(Some(token))), container)
  {
    var read := StopMarked(s, stop, token, Stopping(token, container));
    NextOnStop(read, StopKill(stop, Proved));
    hide Next, NextTurn, NextSettle;
    assert read.stops[stop := Stop(team, Done(Some(token)))] == s.stops[stop := Stop(team, Done(Some(token)))];
  }

  lemma ExecutesAsActive(s: System, token: string, team: string, brain: string, container: string)
    requires Inv(s) && ExecutesIn(s, token, team, brain, container)
    ensures Lookup(s.runtime.activeTokens, team) == Some(token) && Lookup(s.runtime.activeContainers, team) == Some(brain)
    ensures Lookup(s.runtime.activePowers, team) == Some((token, container))
  {
    hide RunningOk, StopsOk, HistoryOk, ChallengesOk, IdsOk;
  }

  /** The challenges are cancelled first, kind by kind. */
  lemma StopCancelsAll(s: System, stop: nat, team: string)
    requires stop !in s.stops
    ensures var steps := [StopBegin(stop, team), StopCancel(stop), StopCancel(stop), StopCancel(stop), StopCancel(stop)];
            ValidRun(s, steps) && Run(s, steps) == StopCancelled(s, stop, team, 4)
  {
    hide Enabled, Next, StopCancelled;
    StopStarts(s, stop, team);
    StopGoesOn(s, stop, team, 0);
    StopGoesOn(s, stop, team, 1);
    StopGoesOn(s, stop, team, 2);
    StopGoesOn(s, stop, team, 3);
    var cancel := StopCancel(stop);
    RunOfFour(s, StopBegin(stop, team), cancel, cancel, cancel);
    RunThen(s, [StopBegin(stop, team), cancel, cancel, cancel], cancel);
    assert [StopBegin(stop, team), cancel, cancel, cancel] + [cancel]
        == [StopBegin(stop, team), cancel, cancel, cancel, cancel];
  }

  /** Then the turn is marked, and its Power read and ended. */
  lemma StopEnds(s: System, stop: nat, token: string, team: string, brain: string, container: string)
    requires Inv(s) && ExecutesIn(s, token, team, brain, container) && stop !in s.stops
    ensures var unmarked := StopCancelled(s, stop, team, 4);
            var steps := [StopMark(stop, brain), StopRead(stop), StopKill(stop, Proved)];
            && ValidRun(unmarked, steps)
            && Run(unmarked, steps) == Halted(StopMarked(unmarked, stop, token, Done(Some(token))), container)
  {
    ExecutesAsActive(s, token, team, brain, container);
    var unmarked := StopCancelled(s, stop, team, 4);
    assert unmarked.runtime == s.runtime && stop in unmarked.stops && unmarked.stops[stop] == Stop(team, Unmarked);
    hide Enabled, Next, Inv, StopCancelled, StopMarked, Halted;
    StopMarks(unmarked, stop, token, team, brain);
    StopReads(unmarked, stop, token, team, container);
    StopKills(unmarked, stop, token, team, container);
    RunOfThree(unmarked, StopMark(stop, brain), StopRead(stop), StopKill(stop, Proved));
  }

  lemma StopLeavesStopped(s: System, stop: nat, token: string, team: string, container: string)
    ensures var after := Halted(StopMarked(StopCancelled(s, stop, team, 4), stop, token, Done(Some(token))), container);
            && StoppedTurn(after, stop, token) && container in after.stopped
            && (forall e :: e in after.running ==> e.container != container)
            && (forall kind :: (kind, team) !in after.challenges)
            && (forall key :: key in s.challenges && key.1 != team ==> key in after.challenges)
            && after.turns == s.turns && token in after.runtime.cancelled
  {
    forall kind
      ensures (kind, team) !in WithoutChallenges(s, team, 4)
    {
      AllKindsGone(s, team, kind);
    }
  }

  /**
   A stop that nothing fails: it removes every pending challenge of the Team, marks the turn, and halts the container
   its Power executes in; from then on the turn can neither register a Power nor commit.
   */
  lemma UndisturbedStopEndsTurn(s: System, stop: nat, token: string, team: string, brain: string, container: string)
    requires Inv(s) && ExecutesIn(s, token, team, brain, container) && stop !in s.stops
    ensures var cancels := [StopBegin(stop, team), StopCancel(stop), StopCancel(stop), StopCancel(stop), StopCancel(stop)];
            var ends := [StopMark(stop, brain), StopRead(stop), StopKill(stop, Proved)];
            && ValidRun(s, cancels + ends)
            && var after := Run(s, cancels + ends);
               && StoppedTurn(after, stop, token) && container in after.stopped
               && (forall e :: e in after.running ==> e.container != container)
               && (forall kind :: (kind, team) !in after.challenges)
               && (forall key :: key in s.challenges && key.1 != team ==> key in after.challenges)
               && after.turns == s.turns && token in after.runtime.cancelled
  {
    hide Enabled, Next, Inv, StopCancelled, StopMarked, Halted, ExecutesIn, StoppedTurn;
    StopCancelsAll(s, stop, team);
    StopEnds(s, stop, token, team, brain, container);
    StopLeavesStopped(s, stop, token, team, container);
    var cancels := [StopBegin(stop, team), StopCancel(stop), StopCancel(stop), StopCancel(stop), StopCancel(stop)];
    RunsCompose(s, cancels, [StopMark(stop, brain), StopRead(stop), StopKill(stop, Proved)]);
  }
}
