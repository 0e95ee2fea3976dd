/**
 The memory-only PKCE challenges of OAuth authorizations (team/oauth_pkce_challenges.py), after RFC 7636
 sections 4.1, 4.2 and 4.6: a verifier is kept private, its challenge is published, and the verifier is
 released at most once, to the browser session that started the authorization.
 */
module PkceChallenges {
  import opened Wrappers
  import opened Tokens
  import Sets

  /** SHA-256 over session bindings and over verifiers, as the value each digest commits to. */
  datatype Digest = SessionDigest(binding: string) | VerifierDigest(verifier: string)

  datatype Binding = Binding(session: Digest, team: string, assistant: string, account: string)

  datatype Public = Public(state: string, provider: string, scopes: seq<string>, codeChallenge: Digest, expiresIn: nat)

  datatype Pending = Pending(public: Public, binding: Binding, verifier: string, expiresAt: real)

  datatype Exchange = Exchange(
    provider: string, scopes: seq<string>, verifier: string, team: string, assistant: string, account: string)

  datatype Limits = Limits(capacity: nat, perSession: nat, perTeam: nat, ttl: nat)

  datatype Store = Store(pending: map<string, Pending>, byBinding: map<Binding, string>)

  datatype PkceError =
    | BindingPending | CapacityReached | SessionCapacityReached | TeamCapacityReached | NotFound

  predicate LimitsOk(l: Limits) {
    1 <= l.capacity <= 1024 && 1 <= l.perSession <= l.capacity && 1 <= l.perTeam <= l.capacity && 30 <= l.ttl <= 900
  }

  // ---------------------------------------------------------------- operations on values

  function Due(s: Store, now: real): set<string> {
    set x | x in s.pending && s.pending[x].expiresAt <= now
  }

  /** Remove some states, and the binding entries that point at them. */
  function Without(s: Store, gone: set<string>): Store {
    Store(
      s.pending - gone,
      map b | b in s.byBinding
        && !(s.byBinding[b] in gone && s.byBinding[b] in s.pending && s.pending[s.byBinding[b]].binding == b)
        :: s.byBinding[b])
  }

  function Expire(s: Store, now: real): Store {
    Without(s, Due(s, now))
  }

  function OfSession(s: Store, session: Digest): set<string> {
    set x | x in s.pending && s.pending[x].binding.session == session
  }

  function OfTeam(s: Store, team: string): set<string> {
    set x | x in s.pending && s.pending[x].binding.team == team
  }

  function With(s: Store, p: Pending): Store {
    Store(s.pending[p.public.state := p], s.byBinding[p.binding := p.public.state])
  }

  /** The random state and verifier are arguments; the state is one that is not pending. */
  datatype Op =
    | Create(binding: Binding, provider: string, scopes: seq<string>, now: real, state: string, verifier: string)
    | Claim(state: string, binding: Binding, now: real)
    | ClaimCallback(state: string, session: Digest, now: real)
    | CancelSession(session: Digest)
    | CancelTeam(team: string)
    | CancelAll

  datatype Reply = Issued(public: Public) | Released(exchange: Exchange) | Count(n: nat) | Refused(error: PkceError)

  function Issue(l: Limits, op: Op): Pending
    requires op.Create?
  {
    Pending(
      Public(op.state, op.provider, op.scopes, VerifierDigest(op.verifier), l.ttl),
      op.binding, op.verifier, op.now + l.ttl as real)
  }

  function ExchangeOf(p: Pending): Exchange {
    Exchange(p.public.provider, p.public.scopes, p.verifier, p.binding.team, p.binding.assistant, p.binding.account)
  }

  /** Which quota, if any, refuses a creation: binding, total, session, then Team. */
  function Refusal(l: Limits, s: Store, binding: Binding): Option<PkceError> {
    if binding in s.byBinding then Some(BindingPending)
    else if |s.pending| >= l.capacity then Some(CapacityReached)
    else if |OfSession(s, binding.session)| >= l.perSession then Some(SessionCapacityReached)
    else if |OfTeam(s, binding.team)| >= l.perTeam then Some(TeamCapacityReached)
    else None
  }

  function Step(l: Limits, s: Store, op: Op): (Store, Reply) {
    match op
    case Create(binding, _, _, now, _, _) =>
      var s1 := Expire(s, now);
      (match Refusal(l, s1, binding)
       case Some(e) => (s1, Refused(e))
       case None => (With(s1, Issue(l, op)), Issued(Issue(l, op).public)))
    case Claim(state, binding, now) =>
      var s1 := Expire(s, now);
      if state in s1.pending && s1.pending[state].binding == binding
      then (Without(s1, {state}), Released(ExchangeOf(s1.pending[state])))
      else (s1, Refused(NotFound))
    case ClaimCallback(state, session, now) =>
      var s1 := Expire(s, now);
      if state in s1.pending && s1.pending[state].binding.session == session
      then (Without(s1, {state}), Released(ExchangeOf(s1.pending[state])))
      else (s1, Refused(NotFound))
    case CancelSession(session) => (Without(s, OfSession(s, session)), Count(|OfSession(s, session)|))
    case CancelTeam(team) => (Without(s, OfTeam(s, team)), Count(|OfTeam(s, team)|))
    case CancelAll => (Store(map[], map[]), Count(|s.pending|))
  }

  /** Random states never collide with a pending one. */
  ghost predicate Fresh(s: Store, op: Op) {
    op.Create? ==> op.state !in Expire(s, op.now).pending
  }

  // ---------------------------------------------------------------- the store

  class PkceChallengeStore {
    const limits: Limits
    var pending: map<string, Pending>
    var byBinding: map<Binding, string>

    constructor (limits: Limits)
      requires LimitsOk(limits)
      ensures this.limits == limits && State() == Store(map[], map[])
    {
      this.limits := limits;
      pending, byBinding := map[], map[];
    }

    function State(): Store
      reads this
    {
      Store(pending, byBinding)
    }

    method RemoveOne(state: string)
      modifies this
      ensures State() == Without(old(State()), {state})
    {
      if state in pending {
        var binding := pending[state].binding;
        pending := pending - {state};
        if binding in byBinding && byBinding[binding] == state {
          byBinding := byBinding - {binding};
        }
      }
    }

    method RemoveAll(states: set<string>)
      modifies this
      ensures State() == Without(old(State()), states)
    {
      var left := states;
      ghost var before := State();
      while left != {}
        invariant left <= states
        invariant State() == Without(before, states - left)
        decreases left
      {
        var state :| state in left;
        RemoveOne(state);
        WithoutTwice(before, states - left, {state});
        assert (states - left) + {state} == states - (left - {state});
        left := left - {state};
      }
      assert states - left == states;
    }

    method CreateFor(
      binding: Binding, provider: string, scopes: seq<string>, now: real,
      tokens: nat -> string, ghost bound: nat, verifier: string)
      returns (r: Reply)
      requires tokens(bound) !in pending
      modifies this
      ensures var free := Expire(old(State()), now).pending;
              tokens(bound) !in free &&
              (State(), r)
              == Step(limits, old(State()), Create(binding, provider, scopes, now, FirstFree(tokens, free, 0, bound), verifier))
    {
      hide Without, Due, OfSession, OfTeam;
      ExpireKeepsFree(State(), now, tokens(bound));
      RemoveAll(Due(State(), now));
      if binding in byBinding {
        return Refused(BindingPending);
      }
      if |pending| >= limits.capacity {
        return Refused(CapacityReached);
      }
      if |OfSession(State(), binding.session)| >= limits.perSession {
        return Refused(SessionCapacityReached);
      }
      if |OfTeam(State(), binding.team)| >= limits.perTeam {
        return Refused(TeamCapacityReached);
      }
      var state := Draw(tokens, pending, bound);
      var public := Public(state, provider, scopes, VerifierDigest(verifier), limits.ttl);
      pending := pending[state := Pending(public, binding, verifier, now + limits.ttl as real)];
      byBinding := byBinding[binding := state];
      r := Issued(public);
    }

    method ClaimExactly(state: string, binding: Binding, now: real) returns (r: Reply)
      modifies this
      ensures (State(), r) == Step(limits, old(State()), Claim(state, binding, now))
    {
      RemoveAll(Due(State(), now));
      if state !in pending || pending[state].binding != binding {
        return Refused(NotFound);
      }
      var p := pending[state];
      RemoveOne(state);
      r := Released(ExchangeOf(p));
    }

    method ClaimFromCallback(state: string, session: Digest, now: real) returns (r: Reply)
      modifies this
      ensures (State(), r) == Step(limits, old(State()), ClaimCallback(state, session, now))
    {
      RemoveAll(Due(State(), now));
      if state !in pending || pending[state].binding.session != session {
        return Refused(NotFound);
      }
      var p := pending[state];
      RemoveOne(state);
      r := Released(ExchangeOf(p));
    }

    method CancelOfSession(session: Digest) returns (r: Reply)
      modifies this
      ensures (State(), r) == Step(limits, old(State()), CancelSession(session))
    {
      var states := OfSession(State(), session);
      RemoveAll(states);
      r := Count(|states|);
    }

    method CancelOfTeam(team: string) returns (r: Reply)
      modifies this
      ensures (State(), r) == Step(limits, old(State()), CancelTeam(team))
    {
      var states := OfTeam(State(), team);
      RemoveAll(states);
      r := Count(|states|);
    }

    method Clear() returns (r: Reply)
      modifies this
      ensures (State(), r) == Step(limits, old(State()), CancelAll)
    {
      r := Count(|pending|);
      pending, byBinding := map[], map[];
    }
  }

  lemma ExpireKeepsFree(s: Store, now: real, state: string)
    ensures state !in s.pending ==> state !in Expire(s, now).pending
  {
  }

  /** Removing twice is removing both, even from maps that are not inverses. */
  lemma WithoutTwice(s: Store, a: set<string>, b: set<string>)
    ensures Without(Without(s, a), b) == Without(s, a + b)
  {
  }

  // ---------------------------------------------------------------- what every operation keeps

  /** The binding index is the exact inverse of the pending map, and every quota holds. */
  ghost predicate Ok(l: Limits, s: Store) {
    && (forall x :: x in s.pending ==>
         && s.pending[x].public.state == x
         && s.pending[x].binding in s.byBinding && s.byBinding[s.pending[x].binding] == x
         && s.pending[x].public.codeChallenge == VerifierDigest(s.pending[x].verifier))
    && (forall b :: b in s.byBinding ==> s.byBinding[b] in s.pending && s.pending[s.byBinding[b]].binding == b)
    && |s.pending| <= l.capacity
    && (forall session :: |OfSession(s, session)| <= l.perSession)
    && forall team :: |OfTeam(s, team)| <= l.perTeam
  }

  lemma WithoutKeepsOk(l: Limits, s: Store, gone: set<string>)
    requires Ok(l, s)
    ensures Ok(l, Without(s, gone))
  {
    var after := Without(s, gone);
    Sets.SubsetSize(after.pending.Keys, s.pending.Keys);
    assert |after.pending| == |after.pending.Keys| && |s.pending| == |s.pending.Keys|;
    forall session
      ensures |OfSession(after, session)| <= l.perSession
    {
      Sets.SubsetSize(OfSession(after, session), OfSession(s, session));
    }
    forall team
      ensures |OfTeam(after, team)| <= l.perTeam
    {
      Sets.SubsetSize(OfTeam(after, team), OfTeam(s, team));
    }
  }

  lemma SessionCount(s: Store, p: Pending, session: Digest)
    requires p.public.state !in s.pending
    ensures |OfSession(With(s, p), session)| == |OfSession(s, session)| + if p.binding.session == session then 1 else 0
  {
    var before, after, e := OfSession(s, session), OfSession(With(s, p), session), p.public.state;
    if p.binding.session == session {
      assert after == before + {e} && e !in before;
    } else {
      assert after == before;
    }
  }

  lemma TeamCount(s: Store, p: Pending, team: string)
    requires p.public.state !in s.pending
    ensures |OfTeam(With(s, p), team)| == |OfTeam(s, team)| + if p.binding.team == team then 1 else 0
  {
    var before, after, e := OfTeam(s, team), OfTeam(With(s, p), team), p.public.state;
    if p.binding.team == team {
      assert after == before + {e} && e !in before;
    } else {
      assert after == before;
    }
  }

  lemma WithKeepsOk(l: Limits, s: Store, p: Pending)
    requires Ok(l, s) && Refusal(l, s, p.binding).None? && p.public.state !in s.pending
    requires p.public.codeChallenge == VerifierDigest(p.verifier)
    ensures Ok(l, With(s, p))
  {
    hide OfSession, OfTeam;
    forall session
      ensures |OfSession(With(s, p), session)| <= l.perSession
    {
      SessionCount(s, p, session);
    }
    forall team
      ensures |OfTeam(With(s, p), team)| <= l.perTeam
    {
      TeamCount(s, p, team);
    }
  }

  lemma StepKeepsOk(l: Limits, s: Store, op: Op)
    requires Ok(l, s) && Fresh(s, op)
    ensures Ok(l, Step(l, s, op).0)
  {
    hide Ok, Without, With, OfSession, OfTeam, Refusal;
    match op {
      case Create(binding, _, _, now, _, _) =>
        WithoutKeepsOk(l, s, Due(s, now));
        if Refusal(l, Expire(s, now), binding).None? {
          WithKeepsOk(l, Expire(s, now), Issue(l, op));
        }
      case Claim(state, _, now) =>
        WithoutKeepsOk(l, s, Due(s, now));
        WithoutKeepsOk(l, Expire(s, now), {state});
      case ClaimCallback(state, _, now) =>
        WithoutKeepsOk(l, s, Due(s, now));
        WithoutKeepsOk(l, Expire(s, now), {state});
      case CancelSession(session) => WithoutKeepsOk(l, s, OfSession(s, session));
      case CancelTeam(team) => WithoutKeepsOk(l, s, OfTeam(s, team));
      case CancelAll => EmptyIsOk(l);
    }
  }

  lemma EmptyIsOk(l: Limits)
    ensures Ok(l, Store(map[], map[]))
  {
  }

  ghost predicate FreshRun(l: Limits, s: Store, ops: seq<Op>)
    decreases |ops|
  {
    ops != [] ==> Fresh(s, ops[0]) && FreshRun(l, Step(l, s, ops[0]).0, ops[1..])
  }

  ghost function Run(l: Limits, s: Store, ops: seq<Op>): Store
    decreases |ops|
  {
    if ops == [] then s else Run(l, Step(l, s, ops[0]).0, ops[1..])
  }

  /** In every reachable state the index is exact and the total, session and Team quotas hold. */
  lemma {:induction false} RunKeepsOk(l: Limits, s: Store, ops: seq<Op>)
    requires Ok(l, s) && FreshRun(l, s, ops)
    ensures Ok(l, Run(l, s, ops))
    decreases |ops|
  {
    if ops != [] {
      StepKeepsOk(l, s, ops[0]);
      RunKeepsOk(l, Step(l, s, ops[0]).0, ops[1..]);
    }
  }

  // ---------------------------------------------------------------- who receives a verifier

  /**
   A claim releases the verifier exactly when the state is live and every binding matches, and then it hashes
   to the challenge that was published for that state; a mismatch leaves the challenge pending.
   */
  lemma ClaimReleasesMatchingVerifier(l: Limits, s: Store, op: Op)
    requires Ok(l, s) && (op.Claim? || op.ClaimCallback?)
    ensures var (s', r) := Step(l, s, op);
            var live := op.state in s.pending && s.pending[op.state].expiresAt > op.now;
            var matches := live &&
              (if op.Claim? then s.pending[op.state].binding == op.binding
               else s.pending[op.state].binding.session == op.session);
            && (r.Released? <==> matches)
            && (matches ==>
                 && op.state !in s'.pending
                 && s.pending[op.state].binding !in s'.byBinding
                 && VerifierDigest(r.exchange.verifier) == s.pending[op.state].public.codeChallenge
                 && r.exchange.provider == s.pending[op.state].public.provider
                 && r.exchange.scopes == s.pending[op.state].public.scopes
                 && Binding(s.pending[op.state].binding.session, r.exchange.team, r.exchange.assistant, r.exchange.account)
                    == s.pending[op.state].binding)
            && (!matches ==> s' == Expire(s, op.now) && r == Refused(NotFound))
  {
  }

  /** The pending states that are still live, counted by what a quota counts. */
  function LiveStates(s: Store, now: real): set<string> {
    set x | x in s.pending && s.pending[x].expiresAt > now
  }

  function LiveOfSession(s: Store, session: Digest, now: real): set<string> {
    set x | x in LiveStates(s, now) && s.pending[x].binding.session == session
  }

  function LiveOfTeam(s: Store, team: string, now: real): set<string> {
    set x | x in LiveStates(s, now) && s.pending[x].binding.team == team
  }

  ghost predicate BindingIsLive(s: Store, binding: Binding, now: real) {
    exists x :: x in LiveStates(s, now) && s.pending[x].binding == binding
  }

  lemma ExpireKeepsLive(s: Store, now: real)
    ensures Expire(s, now).pending.Keys == LiveStates(s, now)
    ensures forall x :: x in Expire(s, now).pending ==> Expire(s, now).pending[x] == s.pending[x]
  {
  }

  lemma ExpireIsLive(l: Limits, s: Store, binding: Binding, now: real)
    requires Ok(l, s)
    ensures var live := Expire(s, now);
            && live.pending.Keys == LiveStates(s, now)
            && (forall x :: x in live.pending ==> live.pending[x] == s.pending[x])
            && OfSession(live, binding.session) == LiveOfSession(s, binding.session, now)
            && OfTeam(live, binding.team) == LiveOfTeam(s, binding.team, now)
            && (binding in live.byBinding <==> BindingIsLive(s, binding, now))
  {
    ExpireKeepsLive(s, now);
    WithoutKeepsOk(l, s, Due(s, now));
    ExpireKeepsBindings(s, now);
    hide Expire, LiveStates;
    var live := Expire(s, now);
    assert live.pending.Keys == LiveStates(s, now) && Ok(l, live);
    if BindingIsLive(s, binding, now) {
      var x :| x in LiveStates(s, now) && s.pending[x].binding == binding;
      assert live.pending[x].binding == binding;
    }
    if binding in live.byBinding {
      assert live.byBinding[binding] in LiveStates(s, now);
    }
  }

  lemma ExpireKeepsBindings(s: Store, now: real)
    ensures Expire(s, now) == Without(s, Due(s, now))
    ensures LiveStates(s, now) <= s.pending.Keys
  {
  }

  /** A challenge is issued exactly within all four quotas of live challenges; the first that fails is reported. */
  lemma IssueIsExact(l: Limits, s: Store, op: Op)
    requires Ok(l, s) && op.Create?
    ensures var (after, r) := Step(l, s, op);
            var pending := BindingIsLive(s, op.binding, op.now);
            var full := |LiveStates(s, op.now)| >= l.capacity;
            var sessionFull := |LiveOfSession(s, op.binding.session, op.now)| >= l.perSession;
            var teamFull := |LiveOfTeam(s, op.binding.team, op.now)| >= l.perTeam;
            && (r.Issued? <==> !pending && !full && !sessionFull && !teamFull)
            && (r.Issued? ==>
                 && r.public == Public(op.state, op.provider, op.scopes, VerifierDigest(op.verifier), l.ttl)
                 && after.pending == Expire(s, op.now).pending[
                      op.state := Pending(r.public, op.binding, op.verifier, op.now + l.ttl as real)])
            && (!r.Issued? ==> after == Expire(s, op.now))
            && (r == Refused(BindingPending) <==> pending)
            && (r == Refused(CapacityReached) <==> !pending && full)
            && (r == Refused(SessionCapacityReached) <==> !pending && !full && sessionFull)
            && (r == Refused(TeamCapacityReached) <==> !pending && !full && !sessionFull && teamFull)
  {
    hide Expire, OfSession, OfTeam, LiveStates, LiveOfSession, LiveOfTeam, BindingIsLive;
    ExpireIsLive(l, s, op.binding, op.now);
    var live := Expire(s, op.now);
    assert |live.pending| == |live.pending.Keys|;
  }

  /** A cancellation removes exactly the states of its session or Team, live or not, and counts them. */
  lemma CancellationIsExact(l: Limits, s: Store, op: Op)
    requires op.CancelSession? || op.CancelTeam?
    ensures var (after, r) := Step(l, s, op);
            var its := set x | x in s.pending &&
              (if op.CancelSession? then s.pending[x].binding.session == op.session else s.pending[x].binding.team == op.team);
            after.pending == s.pending - its && r == Count(|its|)
  {
    var its := set x | x in s.pending &&
      (if op.CancelSession? then s.pending[x].binding.session == op.session else s.pending[x].binding.team == op.team);
    assert its == if op.CancelSession? then OfSession(s, op.session) else OfTeam(s, op.team);
  }

  function One(b: bool): nat {
    if b then 1 else 0
  }

  ghost function Issues(l: Limits, s: Store, op: Op, state: string): nat {
    var r := Step(l, s, op).1;
    One(r.Issued? && r.public.state == state)
  }

  ghost function Releases(l: Limits, s: Store, op: Op, state: string): nat {
    One((op.Claim? || op.ClaimCallback?) && op.state == state && Step(l, s, op).1.Released?)
  }

  /** The operation makes this pending state disappear without releasing its verifier. */
  ghost function Discards(l: Limits, s: Store, op: Op, state: string): nat {
    var gone :=
      match op
      case CancelSession(session) => OfSession(s, session)
      case CancelTeam(team) => OfTeam(s, team)
      case CancelAll => s.pending.Keys
      case Create(_, _, _, now, _, _) => Due(s, now)
      case Claim(_, _, now) => Due(s, now)
      case ClaimCallback(_, _, now) => Due(s, now);
    One(state in gone)
  }

  lemma StepConserves(l: Limits, s: Store, op: Op, state: string)
    requires Fresh(s, op)
    ensures One(state in s.pending) + Issues(l, s, op, state)
         == One(state in Step(l, s, op).0.pending) + Releases(l, s, op, state) + Discards(l, s, op, state)
  {
  }

  datatype Tally = Tally(issued: nat, released: nat, discarded: nat)

  ghost function RunTally(l: Limits, s: Store, ops: seq<Op>, state: string): Tally
    decreases |ops|
  {
    if ops == [] then Tally(0, 0, 0)
    else
      var rest := RunTally(l, Step(l, s, ops[0]).0, ops[1..], state);
      Tally(rest.issued + Issues(l, s, ops[0], state), rest.released + Releases(l, s, ops[0], state),
            rest.discarded + Discards(l, s, ops[0], state))
  }

  /** Every issued state is released, expired, cancelled or still pending, and only one of these. */
  lemma {:induction false} StatesAreConserved(l: Limits, s: Store, ops: seq<Op>, state: string)
    requires FreshRun(l, s, ops)
    ensures var t := RunTally(l, s, ops, state);
            One(state in s.pending) + t.issued
            == One(state in Run(l, s, ops).pending) + t.released + t.discarded
    decreases |ops|
  {
    if ops != [] {
      StepConserves(l, s, ops[0], state);
      StatesAreConserved(l, Step(l, s, ops[0]).0, ops[1..], state);
    }
  }

  /** A state issued once releases its verifier at most once. */
  lemma VerifierReleasedAtMostOnce(l: Limits, ops: seq<Op>, state: string)
    requires FreshRun(l, Store(map[], map[]), ops)
    requires RunTally(l, Store(map[], map[]), ops, state).issued <= 1
    ensures RunTally(l, Store(map[], map[]), ops, state).released <= 1
  {
    StatesAreConserved(l, Store(map[], map[]), ops, state);
  }

  // ---------------------------------------------------------------- a challenge belongs to its verifier for good

  /** The challenge that a later release of this state must answer. */
  ghost predicate Promised(s: Store, state: string, challenge: Digest) {
    state in s.pending ==> s.pending[state].public.codeChallenge == challenge
  }

  ghost predicate NeverReissued(l: Limits, s: Store, ops: seq<Op>, state: string)
    decreases |ops|
  {
    ops != [] ==> Issues(l, s, ops[0], state) == 0 && NeverReissued(l, Step(l, s, ops[0]).0, ops[1..], state)
  }

  /** However much later it is claimed, the released verifier hashes to the challenge issued for its state. */
  lemma {:induction false} ReleaseAnswersChallenge(
    l: Limits, s: Store, ops: seq<Op>, claim: Op, state: string, challenge: Digest)
    requires Ok(l, s) && FreshRun(l, s, ops) && NeverReissued(l, s, ops, state) && Promised(s, state, challenge)
    requires (claim.Claim? || claim.ClaimCallback?) && claim.state == state
    ensures var r := Step(l, Run(l, s, ops), claim).1;
            r.Released? ==> VerifierDigest(r.exchange.verifier) == challenge
    decreases |ops|
  {
    if ops == [] {
      ClaimReleasesMatchingVerifier(l, s, claim);
    } else {
      StepKeepsOk(l, s, ops[0]);
      StepKeepsPromise(l, s, ops[0], state, challenge);
      ReleaseAnswersChallenge(l, Step(l, s, ops[0]).0, ops[1..], claim, state, challenge);
    }
  }

  lemma StepKeepsPromise(l: Limits, s: Store, op: Op, state: string, challenge: Digest)
    requires Promised(s, state, challenge) && Issues(l, s, op, state) == 0
    ensures Promised(Step(l, s, op).0, state, challenge)
  {
  }
}
