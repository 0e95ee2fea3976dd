/**
 One-use, Team-bound challenges with a time limit (team/challenge_store.py).

 Clock readings are arguments: a reading is taken before the lock is held, so readings of successive
 operations may decrease. No result below assumes that they do not.
 */
module ChallengeStore {
  import opened Wrappers
  import opened JsonTree
  import opened Formats
  import opened Tokens

  datatype Challenge = Challenge(id: string, team: string, expiresAt: real, metadata: Json, payload: Json)

  datatype ChallengeError = Invalid | Unavailable | AlreadyPending | CapacityReached | CommitFailed

  datatype Contract = Contract(capacity: nat, ttl: nat, metadataOk: Json -> bool)

  datatype Store = Store(pending: map<string, Challenge>, byTeam: map<string, string>)

  predicate ContractOk(c: Contract) {
    1 <= c.capacity <= 1024 && 30 <= c.ttl <= 900
  }

  predicate ChallengeId(s: string) {
    |s| == 32 && LowerHex(s)
  }

  // ---------------------------------------------------------------- operations on values

  function Due(s: Store, now: real): set<string> {
    set id | id in s.pending && s.pending[id].expiresAt <= now
  }

  /** Remove some challenges, and the Team entries that point at them. */
  function Without(s: Store, gone: set<string>): Store {
    Store(
      s.pending - gone,
      map t | t in s.byTeam && !(s.byTeam[t] in gone && s.byTeam[t] in s.pending && s.pending[s.byTeam[t]].team == t)
        :: s.byTeam[t])
  }

  function Expire(s: Store, now: real): Store {
    Without(s, Due(s, now))
  }

  function With(s: Store, c: Challenge): Store {
    Store(s.pending[c.id := c], s.byTeam[c.team := c.id])
  }

  datatype Op =
    | Create(team: string, metadata: Json, payload: Json, now: real, id: string)
    | Restore(team: string, id: string, remaining: int, metadata: Json, payload: Json, now: real)
    | Get(team: string, id: string, now: real)
    | Current(team: string, now: real)
    | Claim(team: string, id: string, now: real, commits: bool)
    | CancelTeam(team: string)
    | CancelAll

  datatype Reply = Given(challenge: Challenge) | Nothing | Count(n: nat) | Refused(error: ChallengeError)

  function Admit(contract: Contract, s: Store, c: Challenge): (Store, Reply) {
    if c.team in s.byTeam || c.id in s.pending then (s, Refused(AlreadyPending))
    else if |s.pending| >= contract.capacity then (s, Refused(CapacityReached))
    else (With(s, c), Given(c))
  }

  function Available(s: Store, team: string, id: string): Option<Challenge> {
    if id in s.pending && s.pending[id].team == team then Some(s.pending[id]) else None
  }

  function Step(contract: Contract, s: Store, op: Op): (Store, Reply) {
    match op
    case Create(team, metadata, payload, now, id) =>
      if !TeamId(team) || !contract.metadataOk(metadata) then (s, Refused(Invalid))
      else Admit(contract, Expire(s, now), Challenge(id, team, now + contract.ttl as real, metadata, payload))
    case Restore(team, id, remaining, metadata, payload, now) =>
      if !TeamId(team) then (s, Refused(Invalid))
      else if !ChallengeId(id) then (s, Refused(Unavailable))
      else if !(1 <= remaining <= contract.ttl) || !contract.metadataOk(metadata) then (s, Refused(Invalid))
      else Admit(contract, Expire(s, now), Challenge(id, team, now + remaining as real, metadata, payload))
    case Get(team, id, now) =>
      if !TeamId(team) then (s, Refused(Invalid))
      else if !ChallengeId(id) then (s, Refused(Unavailable))
      else
        var s' := Expire(s, now);
        (s', match Available(s', team, id) case None => Refused(Unavailable) case Some(c) => Given(c))
    case Current(team, now) =>
      if !TeamId(team) then (s, Refused(Invalid))
      else
        var s' := Expire(s, now);
        (s', if team in s'.byTeam && s'.byTeam[team] in s'.pending then Given(s'.pending[s'.byTeam[team]]) else Nothing)
    case Claim(team, id, now, commits) =>
      if !TeamId(team) then (s, Refused(Invalid))
      else if !ChallengeId(id) then (s, Refused(Unavailable))
      else
        var s' := Expire(s, now);
        if Available(s', team, id).None? then (s', Refused(Unavailable))
        else if !commits then (s', Refused(CommitFailed))
        else
          (Store(s'.pending - {id},
                 if team in s'.byTeam && s'.byTeam[team] == id then s'.byTeam - {team} else s'.byTeam),
           Given(s'.pending[id]))
    case CancelTeam(team) =>
      if !TeamId(team) then (s, Refused(Invalid))
      else if team !in s.byTeam then (s, Count(0))
      else
        var id := s.byTeam[team];
        (Store(s.pending - {id}, s.byTeam - {team}), Count(if id in s.pending then 1 else 0))
    case CancelAll => (Store(map[], map[]), Count(|s.pending|))
  }

  // ---------------------------------------------------------------- the store

  class ChallengeStore {
    const contract: Contract
    var pending: map<string, Challenge>
    var byTeam: map<string, string>

    constructor (contract: Contract)
      requires ContractOk(contract)
      ensures this.contract == contract && State() == Store(map[], map[])
    {
      this.contract := contract;
      pending, byTeam := map[], map[];
    }

    function State(): Store
      reads this
    {
      Store(pending, byTeam)
    }

    method ExpireDue(now: real)
      modifies this
      ensures State() == Expire(old(State()), now)
    {
      var due := Due(State(), now);
      ghost var before := State();
      var left := due;
      while left != {}
        invariant left <= due
        invariant pending == before.pending - (due - left)
        invariant byTeam == Without(before, due - left).byTeam
        decreases left
      {
        var id :| id in left;
        var c := pending[id];
        pending := pending - {id};
        if c.team in byTeam && byTeam[c.team] == id {
          byTeam := byTeam - {c.team};
        }
        left := left - {id};
      }
      assert due - left == due;
    }

    method CreateFor(team: string, metadata: Json, payload: Json, now: real, tokens: nat -> string, ghost bound: nat)
      returns (r: Reply)
      requires tokens(bound) !in pending
      modifies this
      ensures var free := Expire(old(State()), now).pending;
              (State(), r)
              == Step(contract, old(State()), Create(team, metadata, payload, now, FirstFree(tokens, free, 0, bound)))
    {
      if !TeamId(team) || !contract.metadataOk(metadata) {
        return Refused(Invalid);
      }
      ExpireDue(now);
      if team in byTeam {
        return Refused(AlreadyPending);
      }
      if |pending| >= contract.capacity {
        return Refused(CapacityReached);
      }
      var id := Draw(tokens, pending, bound);
      var c := Challenge(id, team, now + contract.ttl as real, metadata, payload);
      pending := pending[c.id := c];
      byTeam := byTeam[team := c.id];
      r := Given(c);
    }

    method RestoreFor(team: string, id: string, remaining: int, metadata: Json, payload: Json, now: real)
      returns (r: Reply)
      modifies this
      ensures (State(), r) == Step(contract, old(State()), Restore(team, id, remaining, metadata, payload, now))
    {
      if !TeamId(team) {
        return Refused(Invalid);
      }
      if !ChallengeId(id) {
        return Refused(Unavailable);
      }
      if !(1 <= remaining <= contract.ttl) || !contract.metadataOk(metadata) {
        return Refused(Invalid);
      }
      ExpireDue(now);
      if team in byTeam || id in pending {
        return Refused(AlreadyPending);
      }
      if |pending| >= contract.capacity {
        return Refused(CapacityReached);
      }
      var c := Challenge(id, team, now + remaining as real, metadata, payload);
      pending := pending[id := c];
      byTeam := byTeam[team := id];
      r := Given(c);
    }

    method GetFor(team: string, id: string, now: real) returns (r: Reply)
      modifies this
      ensures (State(), r) == Step(contract, old(State()), Get(team, id, now))
    {
      if !TeamId(team) {
        return Refused(Invalid);
      }
      if !ChallengeId(id) {
        return Refused(Unavailable);
      }
      ExpireDue(now);
      var found := Available(State(), team, id);
      r := if found.Some? then Given(found.value) else Refused(Unavailable);
    }

    method CurrentOf(team: string, now: real) returns (r: Reply)
      modifies this
      ensures (State(), r) == Step(contract, old(State()), Current(team, now))
    {
      if !TeamId(team) {
        return Refused(Invalid);
      }
      ExpireDue(now);
      r := if team in byTeam && byTeam[team] in pending then Given(pending[byTeam[team]]) else Nothing;
    }

    method ClaimAfter(team: string, id: string, now: real, commits: bool) returns (r: Reply)
      modifies this
      ensures (State(), r) == Step(contract, old(State()), Claim(team, id, now, commits))
    {
      if !TeamId(team) {
        return Refused(Invalid);
      }
      if !ChallengeId(id) {
        return Refused(Unavailable);
      }
      ExpireDue(now);
      var found := Available(State(), team, id);
      if found.None? {
        return Refused(Unavailable);
      }
      if !commits {
        return Refused(CommitFailed);
      }
      pending := pending - {id};
      if team in byTeam && byTeam[team] == id {
        byTeam := byTeam - {team};
      }
      r := Given(found.value);
    }

    method CancelFor(team: string) returns (r: Reply)
      modifies this
      ensures (State(), r) == Step(contract, old(State()), CancelTeam(team))
    {
      if !TeamId(team) {
        return Refused(Invalid);
      }
      if team !in byTeam {
        return Count(0);
      }
      var id := byTeam[team];
      byTeam := byTeam - {team};
      r := Count(if id in pending then 1 else 0);
      pending := pending - {id};
    }

    method Clear() returns (r: Reply)
      modifies this
      ensures (State(), r) == Step(contract, old(State()), CancelAll)
    {
      r := Count(|pending|);
      pending, byTeam := map[], map[];
    }
  }

  // ---------------------------------------------------------------- what every operation keeps

  /** The id map and the Team map are mutual inverses, within capacity. */
  ghost predicate Inverse(contract: Contract, s: Store) {
    && |s.pending| <= contract.capacity
    && (forall id :: id in s.pending ==>
         && s.pending[id].id == id
         && s.pending[id].team in s.byTeam && s.byTeam[s.pending[id].team] == id)
    && forall t :: t in s.byTeam ==> s.byTeam[t] in s.pending && s.pending[s.byTeam[t]].team == t
  }

  lemma WithoutKeepsInverse(contract: Contract, s: Store, gone: set<string>)
    requires Inverse(contract, s)
    ensures Inverse(contract, Without(s, gone))
  {
  }

  function Clock(op: Op): Option<real> {
    match op
    case Create(_, _, _, now, _) => Some(now)
    case Restore(_, _, _, _, _, now) => Some(now)
    case Get(_, _, now) => Some(now)
    case Current(_, now) => Some(now)
    case Claim(_, _, now, _) => Some(now)
    case _ => None
  }

  /** The arguments pass the checks that come before the lock. */
  predicate WellFormed(contract: Contract, op: Op) {
    match op
    case Create(team, metadata, _, _, _) => TeamId(team) && contract.metadataOk(metadata)
    case Restore(team, id, remaining, metadata, _, _) =>
      TeamId(team) && ChallengeId(id) && 1 <= remaining <= contract.ttl && contract.metadataOk(metadata)
    case Get(team, id, _) => TeamId(team) && ChallengeId(id)
    case Current(team, _) => TeamId(team)
    case Claim(team, id, _, _) => TeamId(team) && ChallengeId(id)
    case CancelTeam(team) => TeamId(team)
    case CancelAll => true
  }

  /** The identifiers an operation takes out of the store. */
  ghost function Gone(contract: Contract, s: Store, op: Op): set<string> {
    if !WellFormed(contract, op) then {}
    else
      match op
      case CancelTeam(team) => if team in s.byTeam then {s.byTeam[team]} else {}
      case CancelAll => s.pending.Keys
      case Claim(_, id, now, _) => Due(s, now) + (if Step(contract, s, op).1.Given? then {id} else {})
      case _ => Due(s, Clock(op).value)
  }

  ghost predicate Admits(contract: Contract, s: Store, op: Op) {
    (op.Create? || op.Restore?) && Step(contract, s, op).1.Given?
  }

  ghost predicate Shaped(contract: Contract, s: Store, op: Op) {
    var (s', reply) := Step(contract, s, op);
    var kept := Without(s, Gone(contract, s, op));
    if Admits(contract, s, op) then
      && s' == With(kept, reply.challenge)
      && reply.challenge.id !in kept.pending && reply.challenge.team !in kept.byTeam
      && |kept.pending| < contract.capacity
    else s' == kept
  }

  /** A claim hands over a live challenge of that Team; if its commit fails, only due challenges are gone. */
  lemma ClaimIsTransactional(contract: Contract, s: Store, team: string, id: string, now: real, commits: bool)
    requires Inverse(contract, s) && TeamId(team) && ChallengeId(id)
    ensures var (s', reply) := Step(contract, s, Claim(team, id, now, commits));
            var live := id in s.pending && s.pending[id].team == team && s.pending[id].expiresAt > now;
            && (reply.Given? <==> live && commits)
            && (reply.Given? ==> reply.challenge == s.pending[id] && s' == Without(Expire(s, now), {id}))
            && (!reply.Given? ==> s' == Expire(s, now) && reply == Refused(if live then CommitFailed else Unavailable))
  {
    WithoutKeepsInverse(contract, s, Due(s, now));
    var s1 := Expire(s, now);
    if id in s1.pending {
      assert Without(s1, {id}).byTeam == s1.byTeam - {s1.pending[id].team};
    }
  }

  lemma WithoutTwice(contract: Contract, s: Store, a: set<string>, b: set<string>)
    requires Inverse(contract, s)
    ensures Without(Without(s, a), b) == Without(s, a + b)
  {
  }

  lemma ClaimShape(contract: Contract, s: Store, op: Op)
    requires Inverse(contract, s) && op.Claim?
    ensures Shaped(contract, s, op)
  {
    hide TeamId, ChallengeId, With, Without, Inverse, Available;
    WithoutNone(s);
    if WellFormed(contract, op) {
      ClaimIsTransactional(contract, s, op.team, op.id, op.now, op.commits);
      WithoutTwice(contract, s, Due(s, op.now), {op.id});
      assert Due(s, op.now) + {} == Due(s, op.now);
    }
  }

  lemma CancelShape(contract: Contract, s: Store, op: Op)
    requires Inverse(contract, s) && (op.CancelTeam? || op.CancelAll?)
    ensures Shaped(contract, s, op)
  {
    hide TeamId, ChallengeId;
    assert Without(s, {}) == s;
    if op.CancelAll? {
      assert Without(s, s.pending.Keys) == Store(map[], map[]);
    } else if op.team in s.byTeam {
      assert Without(s, {s.byTeam[op.team]}).byTeam == s.byTeam - {op.team};
    }
  }

  lemma TimedShape(contract: Contract, s: Store, op: Op)
    requires Inverse(contract, s) && Clock(op).Some? && !op.Claim?
    ensures Shaped(contract, s, op)
  {
    hide TeamId, ChallengeId, With, Without;
    assert Without(s, {}) == s by { WithoutNone(s); }
  }

  lemma WithoutNone(s: Store)
    ensures Without(s, {}) == s
  {
  }

  /** Every operation removes some challenges with their Team entries, and then adds at most one. */
  lemma StepShape(contract: Contract, s: Store, op: Op)
    requires Inverse(contract, s)
    ensures Shaped(contract, s, op)
  {
    hide Shaped, Inverse;
    if op.Claim? {
      ClaimShape(contract, s, op);
    } else if op.CancelTeam? || op.CancelAll? {
      CancelShape(contract, s, op);
    } else {
      TimedShape(contract, s, op);
    }
  }

  lemma WithKeepsInverse(contract: Contract, s: Store, c: Challenge)
    requires Inverse(contract, s) && |s.pending| < contract.capacity
    requires c.id !in s.pending && c.team !in s.byTeam
    ensures Inverse(contract, With(s, c))
  {
  }

  /** The Team has a challenge that has not expired. */
  ghost predicate HasLive(s: Store, team: string, now: real) {
    exists id :: id in s.pending && s.pending[id].team == team && s.pending[id].expiresAt > now
  }

  lemma LiveIndex(contract: Contract, s: Store, team: string, now: real)
    requires Inverse(contract, s)
    ensures var live := Expire(s, now);
            && Inverse(contract, live)
            && (team in live.byTeam <==> HasLive(s, team, now))
            && (forall id :: id in live.pending <==> id in s.pending && s.pending[id].expiresAt > now)
            && (forall id :: id in live.pending ==> live.pending[id] == s.pending[id])
  {
    hide HasLive;
    WithoutKeepsInverse(contract, s, Due(s, now));
    var live := Expire(s, now);
    if team in live.byTeam {
      var id := live.byTeam[team];
      assert id in s.pending && s.pending[id].team == team && s.pending[id].expiresAt > now;
      LiveWitness(s, team, now, id);
    }
    if HasLive(s, team, now) {
      var id := LiveId(s, team, now);
      assert id in live.pending;
    }
  }

  lemma LiveWitness(s: Store, team: string, now: real, id: string)
    requires id in s.pending && s.pending[id].team == team && s.pending[id].expiresAt > now
    ensures HasLive(s, team, now)
  {
  }

  lemma LiveId(s: Store, team: string, now: real) returns (id: string)
    requires HasLive(s, team, now)
    ensures id in s.pending && s.pending[id].team == team && s.pending[id].expiresAt > now
  {
    id :| id in s.pending && s.pending[id].team == team && s.pending[id].expiresAt > now;
  }

  /** What is asked for when a challenge is created or restored, the lifetime being in order. */
  predicate WellAsked(contract: Contract, op: Op)
    requires op.Create? || op.Restore?
  {
    && TeamId(op.team) && contract.metadataOk(op.metadata)
    && (op.Restore? ==> ChallengeId(op.id) && 1 <= op.remaining <= contract.ttl)
  }

  /** One challenge is added exactly for a well-formed request of a Team without a live one, while there is room. */
  lemma AdditionIsExact(contract: Contract, s: Store, op: Op)
    requires Inverse(contract, s) && (op.Create? || op.Restore?)
    ensures var (after, r) := Step(contract, s, op);
            var live := Expire(s, op.now);
            var taken := HasLive(s, op.team, op.now) || op.id in live.pending;
            var full := |live.pending| >= contract.capacity;
            var lifetime := if op.Create? then contract.ttl else op.remaining;
            var added := Challenge(op.id, op.team, op.now + lifetime as real, op.metadata, op.payload);
            && (r.Given? <==> WellAsked(contract, op) && !taken && !full)
            && (r.Given? ==> r.challenge == added && after.pending == live.pending[op.id := added])
            && (!r.Given? ==> after == if WellAsked(contract, op) then live else s)
            && (r == Refused(AlreadyPending) <==> WellAsked(contract, op) && taken)
            && (r == Refused(CapacityReached) <==> WellAsked(contract, op) && !taken && full)
  {
    hide Inverse, Expire, HasLive, TeamId, ChallengeId;
    LiveIndex(contract, s, op.team, op.now);
  }

  /** The current challenge of a Team is its live one, if it has one; looking at it removes only what is due. */
  lemma CurrentIsExact(contract: Contract, s: Store, team: string, now: real)
    requires Inverse(contract, s)
    ensures var (after, r) := Step(contract, s, Current(team, now));
            && (r.Given? <==> TeamId(team) && HasLive(s, team, now))
            && (r.Given? ==>
                 && r.challenge.team == team && r.challenge.expiresAt > now
                 && r.challenge.id in s.pending && s.pending[r.challenge.id] == r.challenge)
            && (r == Nothing <==> TeamId(team) && !HasLive(s, team, now))
            && after == if TeamId(team) then Expire(s, now) else s
  {
    hide Expire, HasLive, TeamId;
    LiveIndex(contract, s, team, now);
  }

  /** A cancellation removes the Team's challenge, expired or not, and nothing else, and says whether it had one. */
  lemma CancellationIsExact(contract: Contract, s: Store, team: string)
    requires Inverse(contract, s)
    ensures var (after, r) := Step(contract, s, CancelTeam(team));
            var its := set id | id in s.pending && s.pending[id].team == team;
            if !TeamId(team) then (after, r) == (s, Refused(Invalid))
            else after.pending == s.pending - its && r == Count(if its == {} then 0 else 1) && team !in after.byTeam
  {
    hide TeamId;
    var its := set id | id in s.pending && s.pending[id].team == team;
    if team in s.byTeam {
      assert its == {s.byTeam[team]};
    } else {
      assert its == {};
    }
  }

  /** Every operation keeps the two maps mutual inverses within capacity, whatever its arguments. */
  lemma StepKeepsInverse(contract: Contract, s: Store, op: Op)
    requires Inverse(contract, s)
    ensures Inverse(contract, Step(contract, s, op).0)
  {
    hide Step, Gone, Without, With, Inverse;
    StepShape(contract, s, op);
    WithoutKeepsInverse(contract, s, Gone(contract, s, op));
    if Admits(contract, s, op) {
      WithKeepsInverse(contract, Without(s, Gone(contract, s, op)), Step(contract, s, op).1.challenge);
    }
  }

  ghost function Run(contract: Contract, s: Store, ops: seq<Op>): Store
    decreases |ops|
  {
    if ops == [] then s else Run(contract, Step(contract, s, ops[0]).0, ops[1..])
  }

  /** In every reachable state the maps are mutual inverses within capacity. */
  lemma {:induction false} RunKeepsInverse(contract: Contract, s: Store, ops: seq<Op>)
    requires Inverse(contract, s)
    ensures Inverse(contract, Run(contract, s, ops))
    decreases |ops|
  {
    if ops != [] {
      StepKeepsInverse(contract, s, ops[0]);
      RunKeepsInverse(contract, Step(contract, s, ops[0]).0, ops[1..]);
    }
  }

  // ---------------------------------------------------------------- conservation

  function One(b: bool): nat {
    if b then 1 else 0
  }

  /** Creations and restorations, claims, expiries and cancellations of one identifier. */
  datatype Tally = Tally(births: nat, claims: nat, expiries: nat, cancels: nat)

  ghost function TallyOf(contract: Contract, s: Store, op: Op, id: string): Tally {
    var reply := Step(contract, s, op).1;
    var given := reply.Given? && reply.challenge.id == id;
    Tally(
      One((op.Create? || op.Restore?) && given),
      One(op.Claim? && given),
      One(WellFormed(contract, op) && Clock(op).Some? && id in Due(s, Clock(op).value)),
      One(id in s.pending && WellFormed(contract, op)
          && (op.CancelAll? || (op.CancelTeam? && s.pending[id].team == op.team))))
  }

  lemma StepConserves(contract: Contract, s: Store, op: Op, id: string)
    requires Inverse(contract, s)
    ensures var t := TallyOf(contract, s, op, id);
            One(id in s.pending) + t.births
            == One(id in Step(contract, s, op).0.pending) + t.claims + t.expiries + t.cancels
  {
    hide TeamId, ChallengeId, Expire;
    StepShape(contract, s, op);
    GoneIsCounted(contract, s, op, id);
    hide Step, Gone, WellFormed;
  }

  lemma GoneIsCounted(contract: Contract, s: Store, op: Op, id: string)
    requires Inverse(contract, s)
    ensures var t := TallyOf(contract, s, op, id);
            && One(id in Gone(contract, s, op)) == t.claims + t.expiries + t.cancels
            && t.births == One(Admits(contract, s, op) && Step(contract, s, op).1.challenge.id == id)
            && Gone(contract, s, op) <= s.pending.Keys
  {
  }

  ghost function RunTally(contract: Contract, s: Store, ops: seq<Op>, id: string): Tally
    decreases |ops|
  {
    if ops == [] then Tally(0, 0, 0, 0)
    else
      var first := TallyOf(contract, s, ops[0], id);
      var rest := RunTally(contract, Step(contract, s, ops[0]).0, ops[1..], id);
      Tally(first.births + rest.births, first.claims + rest.claims, first.expiries + rest.expiries,
            first.cancels + rest.cancels)
  }

  /** For every identifier: creations and restorations = claims + expiries + cancellations + still pending. */
  lemma {:induction false} ChallengesAreConserved(contract: Contract, s: Store, ops: seq<Op>, id: string)
    requires Inverse(contract, s)
    ensures var t := RunTally(contract, s, ops, id);
            One(id in s.pending) + t.births
            == One(id in Run(contract, s, ops).pending) + t.claims + t.expiries + t.cancels
    decreases |ops|
  {
    if ops != [] {
      StepKeepsInverse(contract, s, ops[0]);
      StepConserves(contract, s, ops[0], id);
      ChallengesAreConserved(contract, Step(contract, s, ops[0]).0, ops[1..], id);
    }
  }

  /** Created once and never restored, a challenge is handed to a claimant at most once. */
  lemma ClaimedAtMostOnce(contract: Contract, ops: seq<Op>, id: string)
    requires RunTally(contract, Store(map[], map[]), ops, id).births <= 1
    ensures RunTally(contract, Store(map[], map[]), ops, id).claims <= 1
  {
    ChallengesAreConserved(contract, Store(map[], map[]), ops, id);
  }

  // ---------------------------------------------------------------- claims and time limits

  /** No pending challenge outlives the latest observed clock by more than the time limit. */
  ghost predicate Timely(contract: Contract, s: Store, latest: real) {
    forall id :: id in s.pending ==> s.pending[id].expiresAt <= latest + contract.ttl as real
  }

  function Later(latest: real, op: Op): real {
    if Clock(op).Some? && Clock(op).value > latest then Clock(op).value else latest
  }

  lemma StepKeepsTimely(contract: Contract, s: Store, op: Op, latest: real)
    requires Inverse(contract, s) && Timely(contract, s, latest)
    ensures Timely(contract, Step(contract, s, op).0, Later(latest, op))
  {
    hide Step, Gone, Inverse;
    StepShape(contract, s, op);
    AdmittedExpiry(contract, s, op);
  }

  lemma AdmittedExpiry(contract: Contract, s: Store, op: Op)
    ensures Admits(contract, s, op) ==>
              Step(contract, s, op).1.challenge.expiresAt <= Clock(op).value + contract.ttl as real
  {
  }

  ghost function LatestOf(latest: real, ops: seq<Op>): real
    decreases |ops|
  {
    if ops == [] then latest else LatestOf(Later(latest, ops[0]), ops[1..])
  }

  /** Neither creating nor restoring, in any order and with any clocks, exceeds the time limit. */
  lemma {:induction false} RunKeepsTimely(contract: Contract, s: Store, ops: seq<Op>, latest: real)
    requires Inverse(contract, s) && Timely(contract, s, latest)
    ensures Timely(contract, Run(contract, s, ops), LatestOf(latest, ops))
    decreases |ops|
  {
    if ops != [] {
      StepKeepsInverse(contract, s, ops[0]);
      StepKeepsTimely(contract, s, ops[0], latest);
      RunKeepsTimely(contract, Step(contract, s, ops[0]).0, ops[1..], Later(latest, ops[0]));
    }
  }
}
