/**
 Decisions shared by both controllers (team/chat_turn_engine.py): which handler a paused turn goes to, and when
 an account-gated continuation is admitted.
 */
module ChatTurnEngine {
  import opened Wrappers
  import opened JsonTree
  import opened Formats
  import Store = ChallengeStore

  // ---------------------------------------------------------------- one kind of pause

  function Gates(groups: seq<bool>): nat {
    if groups == [] then 0 else Gates(groups[..|groups| - 1]) + if groups[|groups| - 1] then 1 else 0
  }

  method GateCount(groups: seq<bool>) returns (n: nat)
    ensures n == Gates(groups)
  {
    n := 0;
    for i := 0 to |groups|
      invariant n == Gates(groups[..i])
    {
      assert groups[..i + 1][..i] == groups[..i];
      n := n + if groups[i] then 1 else 0;
    }
    assert groups[..|groups|] == groups;
  }

  ghost predicate OnlyGate(groups: seq<bool>, i: nat) {
    i < |groups| && groups[i] && forall j :: 0 <= j < |groups| && groups[j] ==> j == i
  }

  lemma {:induction false} NoGate(groups: seq<bool>)
    ensures Gates(groups) == 0 <==> forall j :: 0 <= j < |groups| ==> !groups[j]
  {
    if groups != [] {
      NoGate(groups[..|groups| - 1]);
    }
  }

  lemma {:induction false} OneGateIsOnly(groups: seq<bool>)
    ensures Gates(groups) == 1 <==> exists i :: OnlyGate(groups, i)
  {
    if groups != [] {
      var n := |groups| - 1;
      var init := groups[..n];
      OneGateIsOnly(init);
      NoGate(init);
      if groups[n] {
        if Gates(init) == 0 {
          assert OnlyGate(groups, n);
        }
        if i :| OnlyGate(groups, i) {
          assert i == n;
        }
      } else {
        if i :| OnlyGate(init, i) {
          assert OnlyGate(groups, i);
        }
        if i :| OnlyGate(groups, i) {
          assert OnlyGate(init, i);
        }
      }
    }
  }

  /** The handler of a paused turn: the only kind of requirement it has, or none when it has no or several. */
  method Dispatch(groups: seq<bool>) returns (handler: Option<nat>)
    ensures handler.Some? <==> exists i :: OnlyGate(groups, i)
    ensures handler.Some? ==> OnlyGate(groups, handler.value)
  {
    OneGateIsOnly(groups);
    var n := GateCount(groups);
    if n != 1 {
      return None;
    }
    ghost var only :| OnlyGate(groups, only);
    for i := 0 to |groups|
      invariant forall j :: 0 <= j < i ==> !groups[j]
    {
      if groups[i] {
        return Some(i);
      }
    }
    assert false;
  }

  // ---------------------------------------------------------------- admitting an account-gated continuation

  datatype Admission =
    | Admitted(payload: Json)
    | StillMissing(challenge: Store.Challenge)
    | Expired
    | ContextChanged
    | ContractBroken

  /** What the request meets: its two clock readings, its checks, and the store as others left it in between. */
  datatype Facts = Facts(
    readAt: real,
    claimAt: real,
    pendingValid: Json -> bool,
    sameIdentity: Json -> bool,
    missing: Json -> Option<bool>)

  /**
   `admit_account_resume`. `between` is the store when the claim takes its lock: a stop, an expiry or another
   resume may have happened since the challenge was read.
   */
  function Admit(
    contract: Store.Contract, s: Store.Store, team: string, id: string, facts: Facts, between: Store.Store -> Store.Store)
    : (Store.Store, Admission)
  {
    match Store.Step(contract, s, Store.Get(team, id, facts.readAt))
    case (s1, Given(challenge)) =>
      var pending := challenge.payload;
      if !facts.pendingValid(pending) then (s1, ContextChanged)
      else if !facts.sameIdentity(pending) then
        (Store.Step(contract, between(s1), Store.CancelTeam(team)).0, ContextChanged)
      else
        (match facts.missing(pending)
         case None => (s1, ContractBroken)
         case Some(true) => (s1, StillMissing(challenge))
         case Some(false) =>
           match Store.Step(contract, between(s1), Store.Claim(team, challenge.id, facts.claimAt, true))
           case (s2, Given(claimed)) => (s2, if claimed == challenge then Admitted(pending) else Expired)
           case (s2, _) => (s2, Expired))
    case (s1, _) => (s1, Expired)
  }

  /**
   An admission consumes the very challenge it was decided on, which was live both when it was read and when it
   was claimed; while accounts are missing the challenge stays; a changed identity removes it.
   */
  lemma AdmissionConsumesItsChallenge(
    contract: Store.Contract, s: Store.Store, team: string, id: string, facts: Facts,
    between: Store.Store -> Store.Store)
    requires Store.Inverse(contract, s) && forall x :: Store.Inverse(contract, x) ==> Store.Inverse(contract, between(x))
    ensures var (after, r) := Admit(contract, s, team, id, facts, between);
            var live := Store.Expire(s, facts.readAt);
            && Store.Inverse(contract, after)
            && (r.Admitted? ==>
                 && id in live.pending && live.pending[id].team == team && r.payload == live.pending[id].payload
                 && id in between(live).pending && between(live).pending[id] == live.pending[id]
                 && between(live).pending[id].expiresAt > facts.claimAt
                 && id !in after.pending && team !in after.byTeam)
            && (r.StillMissing? ==> after == live && id in after.pending && after.pending[id] == r.challenge)
            && (TeamId(team) && Store.ChallengeId(id) && id in live.pending && live.pending[id].team == team
                && facts.pendingValid(live.pending[id].payload) && !facts.sameIdentity(live.pending[id].payload)
                ==> r == ContextChanged && team !in after.byTeam)
  {
    hide TeamId, Store.ChallengeId, Store.Expire, Store.Inverse, Store.Without;
    var get := Store.Get(team, id, facts.readAt);
    Store.StepKeepsInverse(contract, s, get);
    var (s1, given) := Store.Step(contract, s, get);
    OpenedChallenge(contract, s, team, id, facts.readAt);
    var claim := Store.Claim(team, id, facts.claimAt, true);
    Store.StepKeepsInverse(contract, between(s1), claim);
    Store.StepKeepsInverse(contract, between(s1), Store.CancelTeam(team));
    if given.Given? {
      ClaimedChallenge(contract, between(s1), team, id, facts.claimAt);
    }
  }

  ghost predicate LiveFor(s: Store.Store, team: string, id: string, now: real) {
    TeamId(team) && Store.ChallengeId(id) && id in s.pending && s.pending[id].team == team && s.pending[id].expiresAt > now
  }

  /** Every outcome of an admission, by what the request meets. */
  lemma AdmissionIsExact(
    contract: Store.Contract, s: Store.Store, team: string, id: string, facts: Facts,
    between: Store.Store -> Store.Store)
    requires Store.Inverse(contract, s) && forall x :: Store.Inverse(contract, x) ==> Store.Inverse(contract, between(x))
    ensures var (after, r) := Admit(contract, s, team, id, facts, between);
            var read := LiveFor(s, team, id, facts.readAt);
            if !read then r == Expired
            else
              var challenge := s.pending[id];
              var live := Store.Expire(s, facts.readAt);
              var accepted := facts.pendingValid(challenge.payload) && facts.sameIdentity(challenge.payload);
              var missing := facts.missing(challenge.payload);
              var claimable := LiveFor(between(live), team, id, facts.claimAt) && between(live).pending[id] == challenge;
              && (r.Admitted? <==> accepted && missing == Some(false) && claimable)
              && (r.Admitted? ==> r.payload == challenge.payload)
              && (r.StillMissing? <==> accepted && missing == Some(true))
              && (r.StillMissing? ==> r.challenge == challenge)
              && (r.ContractBroken? <==> accepted && missing == None)
              && (r.ContextChanged? <==> !accepted)
              && (r.Expired? <==> accepted && missing == Some(false) && !claimable)
              && (r.StillMissing? || r.ContractBroken? || !facts.pendingValid(challenge.payload) ==> after == live)
  {
    hide TeamId, Store.ChallengeId, Store.Inverse, Store.Without, Store.Expire;
    OpenedChallenge(contract, s, team, id, facts.readAt);
    ExpireKeepsLive(s, id, facts.readAt);
    var get := Store.Get(team, id, facts.readAt);
    Store.StepKeepsInverse(contract, s, get);
    var s1 := Store.Step(contract, s, get).0;
    if LiveFor(s, team, id, facts.readAt) {
      ClaimedExactly(contract, between(s1), team, id, facts.claimAt);
    }
  }

  lemma ExpireKeepsLive(s: Store.Store, id: string, now: real)
    ensures id in Store.Expire(s, now).pending <==> id in s.pending && s.pending[id].expiresAt > now
    ensures id in Store.Expire(s, now).pending ==> Store.Expire(s, now).pending[id] == s.pending[id]
  {
  }

  lemma ClaimedExactly(contract: Store.Contract, s: Store.Store, team: string, id: string, now: real)
    requires Store.Inverse(contract, s) && TeamId(team) && Store.ChallengeId(id)
    ensures var r := Store.Step(contract, s, Store.Claim(team, id, now, true)).1;
            (r.Given? <==> LiveFor(s, team, id, now)) && (r.Given? ==> r.challenge == s.pending[id])
  {
    ExpireKeepsLive(s, id, now);
  }

  lemma OpenedChallenge(contract: Store.Contract, s: Store.Store, team: string, id: string, now: real)
    requires Store.Inverse(contract, s)
    ensures var (s1, r) := Store.Step(contract, s, Store.Get(team, id, now));
            var live := Store.Expire(s, now);
            && (r.Given? <==> TeamId(team) && Store.ChallengeId(id) && id in live.pending && live.pending[id].team == team)
            && (r.Given? ==> s1 == live && r.challenge == live.pending[id] && r.challenge.id == id)
  {
  }

  lemma ClaimedChallenge(contract: Store.Contract, s: Store.Store, team: string, id: string, now: real)
    requires Store.Inverse(contract, s) && TeamId(team) && Store.ChallengeId(id)
    ensures var (after, r) := Store.Step(contract, s, Store.Claim(team, id, now, true));
            r.Given? ==>
              && id in s.pending && s.pending[id].team == team && s.pending[id].expiresAt > now
              && r.challenge == s.pending[id] && id !in after.pending && team !in after.byTeam
  {
  }
}
