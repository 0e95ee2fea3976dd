/**
 Admission to the App egress proxy (app-egress/app.py): a global bounded semaphore and a count per source. The
 acceptor and the workers interleave at every lock operation.
 */
module ProxyAdmission {
  import Sets

  datatype Slots = Slots(permits: nat, counts: map<string, nat>)

  // ---------------------------------------------------------------- sections on values

  /** Under the guard: count the source, or give the permit back. */
  function CountSource(s: Slots, perSource: nat, source: string): (Slots, bool) {
    var current := if source in s.counts then s.counts[source] else 0;
    if current >= perSource then (s.(permits := s.permits + 1), false)
    else (s.(counts := s.counts[source := current + 1]), true)
  }

  /** Under the guard: forget one connection of the source. */
  function ForgetSource(s: Slots, source: string): Slots
    requires source in s.counts && s.counts[source] > 0
  {
    var remaining := s.counts[source] - 1;
    s.(counts := if remaining > 0 then s.counts[source := remaining] else s.counts - {source})
  }

  class Server {
    const perSource: nat
    var permits: nat
    var counts: map<string, nat>

    constructor (maxConcurrency: nat, perSource: nat)
      requires 1 <= perSource <= maxConcurrency
      ensures this.perSource == perSource && State() == Slots(maxConcurrency, map[])
    {
      this.perSource, permits, counts := perSource, maxConcurrency, map[];
    }

    function State(): Slots
      reads this
    {
      Slots(permits, counts)
    }

    method AcquireRequestSlot(source: string) returns (admitted: bool)
      modifies this
      ensures old(permits) == 0 ==> !admitted && State() == old(State())
      ensures old(permits) > 0 ==>
        (State(), admitted) == CountSource(old(State()).(permits := old(permits) - 1), perSource, source)
    {
      if permits == 0 {
        return false;
      }
      permits := permits - 1;
      var current := if source in counts then counts[source] else 0;
      if current >= perSource {
        permits := permits + 1;
        return false;
      }
      counts := counts[source := current + 1];
      admitted := true;
    }

    method ReleaseRequestSlot(source: string)
      requires source in counts && counts[source] > 0
      modifies this
      ensures State() == ForgetSource(old(State()), source).(permits := old(permits) + 1)
    {
      var remaining := counts[source] - 1;
      if remaining > 0 {
        counts := counts[source := remaining];
      } else {
        counts := counts - {source};
      }
      permits := permits + 1;
    }
  }

  /** A refused connection changes nothing; an admitted one that is released leaves no trace. */
  lemma AcquireReleaseRestores(s: Slots, perSource: nat, source: string)
    requires s.permits > 0 && forall k :: k in s.counts ==> s.counts[k] > 0
    ensures var (after, admitted) := CountSource(s.(permits := s.permits - 1), perSource, source);
            if admitted then
              && source in after.counts && after.counts[source] > 0
              && ForgetSource(after, source).(permits := after.permits + 1) == s
            else after == s
  {
  }

  // ---------------------------------------------------------------- interleavings

  /** `Permitted` holds a permit but is not counted yet; `Uncounted` is no longer counted but still holds one. */
  datatype Phase = Arrived | Permitted | Admitted | Serving | Uncounted | Closed | Rejected

  datatype Conn = Conn(source: string, phase: Phase)

  datatype System = System(slots: Slots, conns: map<nat, Conn>, releases: multiset<nat>)

  datatype Step =
    | Arrive(conn: nat, source: string)
    | TakePermit(conn: nat)
    | Count(conn: nat)
    | Spawn(conn: nat)
    | Forget(conn: nat)
    | GiveBack(conn: nat)

  /** `Forget` is the release of a worker that ended, or of an acceptor whose worker could not be started. */
  predicate Enabled(s: System, step: Step) {
    match step
    case Arrive(c, _) => c !in s.conns
    case TakePermit(c) => c in s.conns && s.conns[c].phase == Arrived
    case Count(c) => c in s.conns && s.conns[c].phase == Permitted
    case Spawn(c) => c in s.conns && s.conns[c].phase == Admitted
    case Forget(c) => c in s.conns && s.conns[c].phase in {Admitted, Serving}
    case GiveBack(c) => c in s.conns && s.conns[c].phase == Uncounted
  }

  function To(s: System, c: nat, phase: Phase): map<nat, Conn>
    requires c in s.conns
  {
    s.conns[c := s.conns[c].(phase := phase)]
  }

  ghost predicate Ready(s: System, step: Step) {
    && Enabled(s, step)
    && (step.Forget? ==>
         var source := s.conns[step.conn].source;
         source in s.slots.counts && s.slots.counts[source] > 0)
  }

  ghost function Next(s: System, perSource: nat, step: Step): System
    requires Ready(s, step)
  {
    match step
    case Arrive(c, source) => s.(conns := s.conns[c := Conn(source, Arrived)])
    case TakePermit(c) =>
      if s.slots.permits == 0 then s.(conns := To(s, c, Rejected))
      else s.(slots := s.slots.(permits := s.slots.permits - 1), conns := To(s, c, Permitted))
    case Count(c) =>
      var (slots, admitted) := CountSource(s.slots, perSource, s.conns[c].source);
      s.(slots := slots, conns := To(s, c, if admitted then Admitted else Rejected))
    case Spawn(c) => s.(conns := To(s, c, Serving))
    case Forget(c) => s.(slots := ForgetSource(s.slots, s.conns[c].source), conns := To(s, c, Uncounted))
    case GiveBack(c) =>
      s.(slots := s.slots.(permits := s.slots.permits + 1), conns := To(s, c, Closed), releases := s.releases + multiset{c})
  }

  predicate HoldsPermit(phase: Phase) {
    phase in {Permitted, Admitted, Serving, Uncounted}
  }

  predicate IsLive(phase: Phase) {
    phase in {Admitted, Serving}
  }

  function Holding(conns: map<nat, Conn>): set<nat> {
    set c | c in conns && HoldsPermit(conns[c].phase)
  }

  function LiveOf(conns: map<nat, Conn>, source: string): set<nat> {
    set c | c in conns && conns[c].source == source && IsLive(conns[c].phase)
  }

  /** Permits plus holders are the maximum, and each source is counted exactly as often as it is live. */
  ghost predicate Inv(s: System, max: nat, perSource: nat) {
    && s.slots.permits + |Holding(s.conns)| == max
    && (forall k :: k in s.slots.counts ==> 1 <= s.slots.counts[k] <= perSource && s.slots.counts[k] == |LiveOf(s.conns, k)|)
    && (forall k :: k !in s.slots.counts ==> LiveOf(s.conns, k) == {})
    && forall c :: s.releases[c] == if c in s.conns && s.conns[c].phase == Closed then 1 else 0
  }

  lemma HoldingMoves(conns: map<nat, Conn>, c: nat, conn: Conn)
    ensures var before, after := Holding(conns), Holding(conns[c := conn]);
            |after| == |before| - (if c in before then 1 else 0) + (if HoldsPermit(conn.phase) then 1 else 0)
  {
    hide HoldsPermit;
    Sets.SizeWith(Holding(conns), Holding(conns[c := conn]), c, HoldsPermit(conn.phase));
  }

  lemma LiveMoves(conns: map<nat, Conn>, c: nat, conn: Conn, source: string)
    requires c in conns ==> conns[c].source == conn.source
    ensures var before, after := LiveOf(conns, source), LiveOf(conns[c := conn], source);
            && (source != conn.source ==> after == before)
            && (source == conn.source ==>
                 |after| == |before| - (if c in before then 1 else 0) + (if IsLive(conn.phase) then 1 else 0))
  {
    hide IsLive;
    var before, after := LiveOf(conns, source), LiveOf(conns[c := conn], source);
    if source == conn.source {
      Sets.SizeWith(before, after, c, IsLive(conn.phase));
    } else {
      assert after == before;
    }
  }

  /** A release never finds its source missing. */
  lemma ReleaseIsAlwaysReady(s: System, max: nat, perSource: nat, step: Step)
    requires Inv(s, max, perSource) && Enabled(s, step)
    ensures Ready(s, step)
  {
    if step.Forget? {
      assert step.conn in LiveOf(s.conns, s.conns[step.conn].source);
    }
  }

  lemma StepKeepsInv(s: System, max: nat, perSource: nat, step: Step)
    requires Inv(s, max, perSource) && Ready(s, step)
    ensures Inv(Next(s, perSource, step), max, perSource)
  {
    hide Holding, LiveOf;
    var s' := Next(s, perSource, step);
    var c := step.conn;
    var conn := s'.conns[c];
    assert s'.conns == s.conns[c := conn];
    HoldingMoves(s.conns, c, conn);
    MembersAre(s.conns, c);
    forall k | k in s'.slots.counts
      ensures 1 <= s'.slots.counts[k] <= perSource && s'.slots.counts[k] == |LiveOf(s'.conns, k)|
    {
      LiveMoves(s.conns, c, conn, k);
      MemberOf(s.conns, c, k);
    }
    forall k | k !in s'.slots.counts
      ensures LiveOf(s'.conns, k) == {}
    {
      LiveMoves(s.conns, c, conn, k);
      MemberOf(s.conns, c, k);
    }
  }

  lemma MembersAre(conns: map<nat, Conn>, c: nat)
    ensures c in Holding(conns) <==> c in conns && HoldsPermit(conns[c].phase)
  {
  }

  lemma MemberOf(conns: map<nat, Conn>, c: nat, source: string)
    ensures c in LiveOf(conns, source) <==> c in conns && conns[c].source == source && IsLive(conns[c].phase)
  {
  }

  /**
   Who is admitted, by who else is there: a permit while fewer than the maximum hold one, and then a place while the
   source has fewer live connections than its share. Every other connection stays as it is.
   */
  lemma AdmissionIsExact(s: System, max: nat, perSource: nat, step: Step)
    requires Inv(s, max, perSource) && Ready(s, step) && !step.Arrive?
    ensures var conn := s.conns[step.conn];
            var phase := match step
              case TakePermit(_) => if |Holding(s.conns)| < max then Permitted else Rejected
              case Count(_) => if |LiveOf(s.conns, conn.source)| < perSource then Admitted else Rejected
              case Spawn(_) => Serving
              case Forget(_) => Uncounted
              case GiveBack(_) => Closed;
            && Next(s, perSource, step).conns == s.conns[step.conn := Conn(conn.source, phase)]
            && Next(s, perSource, step).releases == s.releases + if step.GiveBack? then multiset{step.conn} else multiset{}
  {
    hide Holding;
    if step.Count? && s.conns[step.conn].source !in s.slots.counts {
      assert LiveOf(s.conns, s.conns[step.conn].source) == {};
    }
  }

  ghost predicate ValidRun(s: System, perSource: nat, steps: seq<Step>)
    decreases |steps|
  {
    steps != [] ==> Ready(s, steps[0]) && ValidRun(Next(s, perSource, steps[0]), perSource, steps[1..])
  }

  ghost function Run(s: System, perSource: nat, steps: seq<Step>): System
    requires ValidRun(s, perSource, steps)
    decreases |steps|
  {
    if steps == [] then s else Run(Next(s, perSource, steps[0]), perSource, steps[1..])
  }

  /** In every reachable state permits and source counts are exact, and no connection has released twice. */
  lemma {:induction false} RunKeepsInv(s: System, max: nat, perSource: nat, steps: seq<Step>)
    requires Inv(s, max, perSource) && ValidRun(s, perSource, steps)
    ensures Inv(Run(s, perSource, steps), max, perSource)
    decreases |steps|
  {
    hide Inv, Next, Ready;
    if steps != [] {
      StepKeepsInv(s, max, perSource, steps[0]);
      RunKeepsInv(Next(s, perSource, steps[0]), max, perSource, steps[1..]);
    }
  }

  /** When every admitted connection has ended, all permits are back and no source is counted. */
  lemma AllPermitsReturn(max: nat, perSource: nat, steps: seq<Step>)
    requires ValidRun(System(Slots(max, map[]), map[], multiset{}), perSource, steps)
    requires var s := Run(System(Slots(max, map[]), map[], multiset{}), perSource, steps);
             forall c :: c in s.conns ==> s.conns[c].phase in {Arrived, Rejected, Closed}
    ensures Run(System(Slots(max, map[]), map[], multiset{}), perSource, steps).slots == Slots(max, map[])
  {
    var start := System(Slots(max, map[]), map[], multiset{});
    assert Holding(start.conns) == {};
    RunKeepsInv(start, max, perSource, steps);
    var s := Run(start, perSource, steps);
    assert Holding(s.conns) == {};
    forall k
      ensures k !in s.slots.counts
    {
      assert LiveOf(s.conns, k) == {};
    }
    assert s.slots.counts == map[];
  }
}
