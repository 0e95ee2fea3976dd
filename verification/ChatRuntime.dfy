/**
 The process-wide state of chat turns (team/runtime_state.py, team/assistant_human/hosted_assistants.py and
 hosted_chat_api.py): tokens, cancellation marks and active Powers, each operation one section under one guard.
 */
module ChatRuntime {
  import opened Wrappers

  datatype Runtime = Runtime(
    activeTokens: map<string, string>,
    activeContainers: map<string, string>,
    activePowers: map<string, (string, string)>,
    blocked: set<(string, string)>,
    cancelled: set<string>)

  datatype RegisterError = TurnStopped | PowerActive

  function Lookup<K, V>(m: map<K, V>, k: K): Option<V> {
    if k in m then Some(m[k]) else None
  }

  // ---------------------------------------------------------------- sections on values

  function Began(r: Runtime, team: string, token: string, container: string): Runtime {
    r.(activeTokens := r.activeTokens[team := token], activeContainers := r.activeContainers[team := container])
  }

  function Ended(r: Runtime, team: string, token: string): Runtime {
    Runtime(r.activeTokens - {team}, r.activeContainers - {team}, r.activePowers - {team}, r.blocked, r.cancelled - {token})
  }

  function Registered(r: Runtime, team: string, token: string, container: string): (Runtime, Result<(), RegisterError>) {
    if Lookup(r.activeTokens, team) != Some(token) || token in r.cancelled then (r, Failure(TurnStopped))
    else if team in r.activePowers then (r, Failure(PowerActive))
    else (r.(activePowers := r.activePowers[team := (token, container)]), Success(()))
  }

  function Released(r: Runtime, team: string, token: string, container: string): Runtime {
    if Lookup(r.activePowers, team) == Some((token, container)) then r.(activePowers := r.activePowers - {team}) else r
  }

  /** False means that a stop marked the token first. */
  function Committed(r: Runtime, team: string, token: string): (Runtime, bool) {
    if token in r.cancelled then (r, false)
    else if Lookup(r.activeTokens, team) == Some(token) then
      (r.(activeTokens := r.activeTokens - {team}, activeContainers := r.activeContainers - {team}), true)
    else (r, true)
  }

  datatype MarkResult = WrongContainer | Marked(token: Option<string>)

  function MarkedBy(r: Runtime, team: string, container: string): (Runtime, MarkResult) {
    match Lookup(r.activeTokens, team)
    case None => (r, Marked(None))
    case Some(token) =>
      if Lookup(r.activeContainers, team) != Some(container) then (r, WrongContainer)
      else (r.(cancelled := r.cancelled + {token}), Marked(Some(token)))
  }

  function Blocked(r: Runtime, team: string, container: string): Runtime {
    r.(blocked := r.blocked + {(team, container)})
  }

  function Cleared(r: Runtime, team: string): Runtime {
    Runtime(
      r.activeTokens - {team}, r.activeContainers - {team}, r.activePowers - {team},
      (set b | b in r.blocked && b.0 != team),
      if team in r.activeTokens then r.cancelled - {r.activeTokens[team]} else r.cancelled)
  }

  // ---------------------------------------------------------------- the shared state

  class ChatRuntime {
    var activeTokens: map<string, string>
    var activeContainers: map<string, string>
    var activePowers: map<string, (string, string)>
    var blocked: set<(string, string)>
    var cancelled: set<string>

    constructor ()
      ensures State() == Runtime(map[], map[], map[], {}, {})
    {
      activeTokens, activeContainers, activePowers := map[], map[], map[];
      blocked, cancelled := {}, {};
    }

    function State(): Runtime
      reads this
    {
      Runtime(activeTokens, activeContainers, activePowers, blocked, cancelled)
    }

    method BeginTurn(team: string, token: string, container: string)
      modifies this
      ensures State() == Began(old(State()), team, token, container)
    {
      activeTokens := activeTokens[team := token];
      activeContainers := activeContainers[team := container];
    }

    method EndTurn(team: string, token: string)
      modifies this
      ensures State() == Ended(old(State()), team, token)
    {
      activeTokens := activeTokens - {team};
      activeContainers := activeContainers - {team};
      activePowers := activePowers - {team};
      cancelled := cancelled - {token};
    }

    method RegisterPower(team: string, token: string, container: string) returns (r: Result<(), RegisterError>)
      modifies this
      ensures (State(), r) == Registered(old(State()), team, token, container)
    {
      if team !in activeTokens || activeTokens[team] != token || token in cancelled {
        return Failure(TurnStopped);
      }
      if team in activePowers {
        return Failure(PowerActive);
      }
      activePowers := activePowers[team := (token, container)];
      r := Success(());
    }

    method ReleasePower(team: string, token: string, container: string)
      modifies this
      ensures State() == Released(old(State()), team, token, container)
    {
      if team in activePowers && activePowers[team] == (token, container) {
        activePowers := activePowers - {team};
      }
    }

    method CommitTerminal(team: string, token: string) returns (ok: bool)
      modifies this
      ensures (State(), ok) == Committed(old(State()), team, token)
    {
      if token in cancelled {
        return false;
      }
      if team in activeTokens && activeTokens[team] == token {
        activeTokens := activeTokens - {team};
        activeContainers := activeContainers - {team};
      }
      ok := true;
    }

    method MarkCancelled(team: string, container: string) returns (r: MarkResult)
      modifies this
      ensures (State(), r) == MarkedBy(old(State()), team, container)
    {
      var token := Lookup(activeTokens, team);
      if token.Some? && Lookup(activeContainers, team) != Some(container) {
        return WrongContainer;
      }
      if token.Some? {
        cancelled := cancelled + {token.value};
      }
      r := Marked(token);
    }

    method BlockWorkload(team: string, container: string)
      modifies this
      ensures State() == Blocked(old(State()), team, container)
    {
      blocked := blocked + {(team, container)};
    }

    method ClearTeam(team: string)
      modifies this
      ensures State() == Cleared(old(State()), team)
    {
      var token := Lookup(activeTokens, team);
      activeTokens := activeTokens - {team};
      activeContainers := activeContainers - {team};
      activePowers := activePowers - {team};
      var left := blocked;
      while left != {}
        invariant left <= old(blocked)
        invariant blocked == left + set b | b in old(blocked) - left && b.0 != team
        invariant activeTokens == old(activeTokens) - {team} && activeContainers == old(activeContainers) - {team}
        invariant activePowers == old(activePowers) - {team} && cancelled == old(cancelled)
        decreases left
      {
        var b :| b in left;
        if b.0 == team {
          blocked := blocked - {b};
        }
        left := left - {b};
      }
      if token.Some? {
        cancelled := cancelled - {token.value};
      }
    }
  }

  // ---------------------------------------------------------------- how the sections undo and exclude each other

  /** Ending the turn that a Team has just begun leaves no trace of it. */
  lemma BeginEndRestores(r: Runtime, team: string, token: string, container: string)
    requires team !in r.activeTokens && team !in r.activeContainers && team !in r.activePowers && token !in r.cancelled
    ensures Began(r, team, token, container).activeTokens == r.activeTokens[team := token]
    ensures Began(r, team, token, container).activeContainers == r.activeContainers[team := container]
    ensures Ended(Began(r, team, token, container), team, token) == r
  {
    var after := Ended(Began(r, team, token, container), team, token);
    assert after.activeTokens == r.activeTokens && after.activeContainers == r.activeContainers;
    assert after.activePowers == r.activePowers && after.cancelled == r.cancelled;
  }

  /** Ending a turn forgets the Team's entries and this token's mark, and nothing else. */
  lemma EndForgets(r: Runtime, team: string, token: string)
    ensures var after := Ended(r, team, token);
            && team !in after.activeTokens && team !in after.activeContainers && team !in after.activePowers
            && token !in after.cancelled && after.cancelled + {token} == r.cancelled + {token}
            && after.blocked == r.blocked && OthersKept(r, after, team)
  {
  }

  ghost predicate OthersKept(r: Runtime, after: Runtime, team: string) {
    forall other :: other != team ==>
      && Lookup(after.activeTokens, other) == Lookup(r.activeTokens, other)
      && Lookup(after.activeContainers, other) == Lookup(r.activeContainers, other)
      && Lookup(after.activePowers, other) == Lookup(r.activePowers, other)
  }

  /** A Power is registered exactly for the Team's active, unmarked token while it has no other. */
  lemma RegisterIsExact(r: Runtime, team: string, token: string, container: string)
    ensures var (after, result) := Registered(r, team, token, container);
            var current := team in r.activeTokens && r.activeTokens[team] == token && token !in r.cancelled;
            && (result.Success? <==> current && team !in r.activePowers)
            && (result == Failure(TurnStopped) <==> !current)
            && (result.Success? ==> after == r.(activePowers := r.activePowers[team := (token, container)]))
            && (result.Failure? ==> after == r)
  {
  }

  /** A release undoes its own registration and no other. */
  lemma ReleaseUndoesRegister(r: Runtime, team: string, token: string, container: string, t: string, c: string)
    requires Registered(r, team, token, container).1.Success?
    ensures var registered := Registered(r, team, token, container).0;
            Released(registered, team, t, c) == if (t, c) == (token, container) then r else registered
  {
    assert (r.activePowers[team := (token, container)]) - {team} == r.activePowers;
  }

  /** A turn commits exactly if no stop has marked it, and is then no longer its Team's active one. */
  lemma CommitIsExact(r: Runtime, team: string, token: string)
    ensures var (after, ok) := Committed(r, team, token);
            && (ok <==> token !in r.cancelled)
            && OthersKept(r, after, team)
            && after.activePowers == r.activePowers && after.blocked == r.blocked && after.cancelled == r.cancelled
            && (if ok && Lookup(r.activeTokens, team) == Some(token)
                then team !in after.activeTokens && team !in after.activeContainers
                else after == r)
  {
  }

  /** A stop marks exactly the active turn of the container it was asked to stop. */
  lemma MarkIsExact(r: Runtime, team: string, container: string)
    ensures var (after, result) := MarkedBy(r, team, container);
            && (result == Marked(None) <==> team !in r.activeTokens)
            && (result == WrongContainer <==> team in r.activeTokens && Lookup(r.activeContainers, team) != Some(container))
            && (result.Marked? && result.token.Some? ==>
                 && team in r.activeTokens && r.activeTokens[team] == result.token.value
                 && after == r.(cancelled := r.cancelled + {result.token.value}))
            && (result == WrongContainer || result == Marked(None) ==> after == r)
  {
  }

  /** The mark and the commit exclude each other, whichever comes first; and after the mark nothing registers. */
  lemma MarkExcludesCommit(r: Runtime, team: string, container: string, token: string)
    requires Lookup(r.activeTokens, team) == Some(token) && Lookup(r.activeContainers, team) == Some(container)
    requires token !in r.cancelled
    ensures var marked := MarkedBy(r, team, container).0;
            && !Committed(marked, team, token).1
            && Registered(marked, team, token, container).1 == Failure(TurnStopped)
    ensures MarkedBy(Committed(r, team, token).0, team, container) == (Committed(r, team, token).0, Marked(None))
  {
  }

  /** Clearing a Team forgets everything about it, its token's mark and its blocked workloads included, and no more. */
  lemma ClearForgets(r: Runtime, team: string)
    ensures var after := Cleared(r, team);
            && team !in after.activeTokens && team !in after.activeContainers && team !in after.activePowers
            && (forall b :: b in after.blocked <==> b in r.blocked && b.0 != team)
            && (forall token :: token in after.cancelled <==>
                 token in r.cancelled && Lookup(r.activeTokens, team) != Some(token))
            && OthersKept(r, after, team)
  {
  }
}
