/**
 Destroying a hosted Team (team/container_policy/hosted_lifecycle.py, team/pgdriver_client.py): a sequence of
 stages over Docker, the controller's stores, the Postgres driver and the cleanup record. Any stage may fail with
 or without its effect, and the controller may crash anywhere; the same call is simply made again.
 */
module Teardown {
  import opened Wrappers
  import opened Formats
  import opened CleanupState
  import Pg = PgTenancy
  import Files = PrivateFiles
  import Text

  datatype Kind = Apps | Storage | Inference | Secrets | Accounts | Grants | Networks | Volumes

  datatype Brain = Brain(id: string, owner: string, running: bool)

  /** What the Brain runtime and the Power journal remember of the Team. */
  datatype Memory = Thread | Journal

  /**
   Everything the destruction of one Team can see: what the Team still has, its Postgres principal with the
   controller's copy of its token, and the cleanup records. `touched` is history: something was removed.
   */
  datatype Host = Host(
    items: set<(Kind, string)>,
    conversation: set<Memory>,
    brain: Option<Brain>,
    pg: Pg.World,
    token: Option<string>,
    records: Records,
    touched: bool)

  /** A stage that fails may have removed some of its items already. */
  datatype Outcome = Cleared | Broken(left: set<string>)

  datatype Stage = StopBrain | ClearItems(kind: Kind) | RemoveBrain

  const STAGES: seq<Stage> :=
    [StopBrain, ClearItems(Apps), ClearItems(Storage), ClearItems(Inference), ClearItems(Secrets), ClearItems(Accounts),
     ClearItems(Grants), ClearItems(Networks), RemoveBrain, ClearItems(Volumes)]

  /** What one attempt meets; `dropLost` and `finalizeLost` are replies lost after the driver had acted. */
  datatype Plan = Plan(
    lockInTime: bool,
    thread: Files.Write,
    journal: Files.Write,
    inspected: bool,
    nonce: string,
    begin: Files.Write,
    stage: Stage -> Outcome,
    drop: Pg.Verdicts,
    dropLost: bool,
    mark: Files.Write,
    finalize: Pg.Verdicts,
    finalizeLost: bool,
    unlink: Files.Write,
    finish: Files.Write)

  datatype CleanupResult = CleanupResult(complete: bool, dbDropped: bool)

  // ---------------------------------------------------------------- stages

  function StageTx(h: Host, stage: Stage, outcome: Outcome): (Host, bool) {
    var after := h.(touched := true);
    match stage
    case StopBrain =>
      if h.brain.None? then (h, true)
      else if outcome.Cleared? then (after.(brain := Some(h.brain.value.(running := false))), true)
      else (after.(brain := Some(h.brain.value.(running := h.brain.value.running && outcome.left != {}))), false)
    case ClearItems(kind) =>
      var left := if outcome.Cleared? then {} else outcome.left;
      (after.(items := set i | i in h.items && (i.0 != kind || i.1 in left)), outcome.Cleared?)
    case RemoveBrain =>
      if h.brain.None? then (h, true)
      else if outcome.Cleared? then (after.(brain := None), true)
      else (after.(brain := if outcome.left == {} then None else h.brain), false)
  }

  /** The stages from the i-th on, up to the first that fails. */
  function StagesTx(h: Host, plan: Plan, i: nat): (Host, bool)
    requires i <= |STAGES|
    decreases |STAGES| - i
  {
    if i == |STAGES| then (h, true)
    else
      match StageTx(h, STAGES[i], plan.stage(STAGES[i]))
      case (h1, false) => (h1, false)
      case (h1, true) => StagesTx(h1, plan, i + 1)
  }

  // ---------------------------------------------------------------- the database phases

  function DropOrder(pg: Pg.World, token: string): seq<string> {
    if token in pg.registry then Text.Sorted(pg.registry[token].databases) else []
  }

  /** `_drop_teardown_database`: skipped once recorded; otherwise drop, then record the phase. */
  function DropPhase(h: Host, team: string, record: Record, plan: Plan): (Host, Option<Record>) {
    if record.dbDropped then (h, Some(record))
    else if h.token.None? then (h, None)
    else
      var (pg, problem) := Pg.DropTeamTx(plan.drop, h.pg, h.token.value, team, DropOrder(h.pg, h.token.value));
      var h1 := h.(pg := pg, touched := true);
      if problem.Some? || plan.dropLost then (h1, None)
      else
        var (records, marked) := MarkTx(h.records, team, record, plan.mark);
        (h1.(records := records), if marked.Success? then Some(marked.value) else None)
  }

  /** `_finalize_teardown`: finalize the principal, forget its token, and only then remove the record. */
  function FinalPhase(h: Host, team: string, record: Record, plan: Plan): (Host, bool) {
    var (pg, problem) := Pg.FinalizeTeamTx(plan.finalize, h.pg, team);
    var h1 := h.(pg := pg, touched := true);
    if problem.Some? || plan.finalizeLost then (h1, false)
    else
      var h2 := if plan.unlink.FailedBefore? then h1 else h1.(token := None);
      if !plan.unlink.Done? then (h2, false)
      else
        var (records, finished) := FinishTx(h2.records, team, record, plan.finish);
        (h2.(records := records), finished.Success?)
  }

  predicate BrainOwned(h: Host, owner: string, brainId: string) {
    h.brain.Some? ==> h.brain.value.id == brainId && h.brain.value.owner == owner
  }

  function TeardownTx(h: Host, team: string, owner: string, brainId: string, plan: Plan): (Host, CleanupResult) {
    if !plan.inspected || !BrainOwned(h, owner, brainId) then (h, CleanupResult(false, false))
    else
      var (records, begun) := BeginTx(h.records, team, owner, brainId, plan.nonce, plan.begin);
      var h1 := h.(records := records);
      if begun.Failure? then (h1, CleanupResult(false, false))
      else
        match StagesTx(h1, plan, 0)
        case (h2, false) => (h2, CleanupResult(false, begun.value.dbDropped))
        case (h2, true) =>
          match DropPhase(h2, team, begun.value, plan)
          case (h3, None) => (h3, CleanupResult(false, false))
          case (h3, Some(record)) =>
            match FinalPhase(h3, team, record, plan)
            case (h4, false) => (h4, CleanupResult(false, true))
            case (h4, true) => (h4, CleanupResult(true, true))
  }

  function Forgotten(conversation: set<Memory>, memory: Memory, write: Files.Write): set<Memory> {
    if write.FailedBefore? then conversation else conversation - {memory}
  }

  const REFUSED := CleanupResult(false, false)

  /**
   `_destroy`: commit the retry anchor, stop the Brain so that its turn drains, take the chat lock, forget the
   conversation, and tear the Team down. Without a container the request is authorized by the pending record.
   */
  function DestroyTx(h: Host, team: string, owner: string, brainId: string, plan: Plan): (Host, CleanupResult) {
    if !BrainOwned(h, owner, brainId) then (h, REFUSED)
    else
      var (records, begun) :=
        if h.brain.None? then (h.records, Success(()))
        else
          var (records, r) := BeginTx(h.records, team, owner, brainId, plan.nonce, plan.begin);
          (records, if r.Success? then Success(()) else Failure(r.error));
      var h1 := h.(records := records);
      if begun.Failure? then (h1, REFUSED)
      else
        var running := h.brain.Some? && h.brain.value.running;
        var (h2, stopped) := if running then StageTx(h1, StopBrain, plan.stage(StopBrain)) else (h1, true);
        if !stopped || !plan.lockInTime then (h2, REFUSED)
        else
          var h3 := h2.(conversation := Forgotten(h2.conversation, Thread, plan.thread));
          if !plan.thread.Done? then (h3, REFUSED)
          else
            var h4 := h3.(conversation := Forgotten(h3.conversation, Journal, plan.journal));
            if !plan.journal.Done? then (h4, REFUSED) else TeardownTx(h4, team, owner, brainId, plan)
  }

  /** Provisioning a Team under the token the controller holds, or under a newly minted one that it writes first. */
  function ProvisionHostTx(v: Pg.Verdicts, h: Host, team: string, minted: string, random: string)
    : (Host, Result<Pg.Created, Pg.Problem>)
  {
    var token := h.token.GetOr(minted);
    var (pg, r) := Pg.ProvisionTx(v, h.pg, team, token, random);
    (h.(pg := pg, token := Some(token)), r)
  }

  // ---------------------------------------------------------------- the controller

  class HostedTeam {
    const team: string
    const driver: Pg.PgDriver
    const cleanup: CleanupStore
    var items: set<(Kind, string)>
    var conversation: set<Memory>
    var brain: Option<Brain>
    var token: Option<string>
    ghost var touched: bool

    /** What the Team already has; nothing of it was removed yet. */
    constructor (
      team: string, driver: Pg.PgDriver, cleanup: CleanupStore, items: set<(Kind, string)>, conversation: set<Memory>,
      brain: Option<Brain>, token: Option<string>)
      ensures this.team == team && this.driver == driver && this.cleanup == cleanup
      ensures State() == Host(items, conversation, brain, driver.State(), token, cleanup.records, false)
    {
      this.team, this.driver, this.cleanup := team, driver, cleanup;
      this.items, this.conversation, this.brain, this.token := items, conversation, brain, token;
      touched := false;
    }

    ghost function State(): Host
      reads this, driver, cleanup
    {
      Host(items, conversation, brain, driver.State(), token, cleanup.records, touched)
    }

    /** The token is on disk before the driver is called, so that a retry presents the same one. */
    method Provision(minted: string, random: string) returns (r: Result<Pg.Created, Pg.Problem>)
      modifies this`token, driver
      ensures (State(), r) == ProvisionHostTx(driver.verdicts, old(State()), team, minted, random)
    {
      hide Pg.ProvisionTx;
      if token.None? {
        token := Some(minted);
      }
      r := driver.ProvisionTeam(team, token.value, random);
    }

    method RunStage(stage: Stage, outcome: Outcome) returns (ok: bool)
      modifies this`items, this`brain, this`touched
      ensures (State(), ok) == StageTx(old(State()), stage, outcome)
    {
      match stage {
        case StopBrain =>
          if brain.None? {
            return true;
          }
          var running := outcome.Broken? && brain.value.running && outcome.left != {};
          brain := Some(brain.value.(running := running));
        case ClearItems(kind) =>
          var left := if outcome.Cleared? then {} else outcome.left;
          items := set i | i in items && (i.0 != kind || i.1 in left);
        case RemoveBrain =>
          if brain.None? {
            return true;
          }
          if outcome.Cleared? || outcome.left == {} {
            brain := None;
          }
      }
      touched := true;
      ok := outcome.Cleared?;
    }

    method RunStages(plan: Plan) returns (ok: bool)
      modifies this`items, this`brain, this`touched
      ensures (State(), ok) == StagesTx(old(State()), plan, 0)
    {
      hide StageTx;
      for i := 0 to |STAGES|
        invariant StagesTx(old(State()), plan, 0) == StagesTx(State(), plan, i)
      {
        ok := RunStage(STAGES[i], plan.stage(STAGES[i]));
        if !ok {
          return;
        }
      }
      ok := true;
    }

    method Finalize(record: Record, plan: Plan) returns (ok: bool)
      requires plan.finalize == driver.verdicts
      modifies this`token, this`touched, driver, cleanup
      ensures (State(), ok) == FinalPhase(old(State()), team, record, plan)
    {
      hide Pg.FinalizeTeamTx;
      var problem := driver.FinalizeTeam(team);
      touched := true;
      if problem.Some? || plan.finalizeLost {
        return false;
      }
      if !plan.unlink.FailedBefore? {
        token := None;
      }
      if !plan.unlink.Done? {
        return false;
      }
      var finished := cleanup.Finish(team, record, plan.finish);
      ok := finished.Success?;
    }

    method DropDatabase(record: Record, plan: Plan) returns (next: Option<Record>)
      requires plan.drop == driver.verdicts
      modifies this`touched, driver, cleanup
      ensures (State(), next) == DropPhase(old(State()), team, record, plan)
    {
      hide Pg.DropTeamTx, DropOrder;
      if record.dbDropped {
        return Some(record);
      }
      if token.None? {
        return None;
      }
      var problem := driver.DropTeam(token.value, team, DropOrder(driver.State(), token.value));
      touched := true;
      if problem.Some? || plan.dropLost {
        return None;
      }
      var marked := cleanup.MarkDbDropped(team, record, plan.mark);
      next := if marked.Success? then Some(marked.value) else None;
    }

    /** Remove every artifact, keeping the retry anchor until the last one is gone. */
    method Teardown(owner: string, brainId: string, plan: Plan) returns (r: CleanupResult)
      requires plan.drop == driver.verdicts && plan.finalize == driver.verdicts
      modifies this, driver, cleanup
      ensures (State(), r) == TeardownTx(old(State()), team, owner, brainId, plan)
    {
      hide StagesTx, DropPhase, FinalPhase, BeginTx;
      if !plan.inspected || (brain.Some? && (brain.value.id != brainId || brain.value.owner != owner)) {
        return CleanupResult(false, false);
      }
      var begun := cleanup.Begin(team, owner, brainId, plan.nonce, plan.begin);
      if begun.Failure? {
        return CleanupResult(false, false);
      }
      var cleared := RunStages(plan);
      if !cleared {
        return CleanupResult(false, begun.value.dbDropped);
      }
      var record := DropDatabase(begun.value, plan);
      if record.None? {
        return CleanupResult(false, false);
      }
      var finalized := Finalize(record.value, plan);
      r := CleanupResult(finalized, true);
    }

    method Destroy(owner: string, brainId: string, plan: Plan) returns (r: CleanupResult)
      requires plan.drop == driver.verdicts && plan.finalize == driver.verdicts
      modifies this, driver, cleanup
      ensures (State(), r) == DestroyTx(old(State()), team, owner, brainId, plan)
    {
      hide TeardownTx, BeginTx, StageTx;
      if brain.Some? && (brain.value.id != brainId || brain.value.owner != owner) {
        return REFUSED;
      }
      if brain.Some? {
        var begun := cleanup.Begin(team, owner, brainId, plan.nonce, plan.begin);
        if begun.Failure? {
          return REFUSED;
        }
      }
      if brain.Some? && brain.value.running {
        var stopped := RunStage(StopBrain, plan.stage(StopBrain));
        if !stopped {
          return REFUSED;
        }
      }
      if !plan.lockInTime {
        return REFUSED;
      }
      conversation := Forgotten(conversation, Thread, plan.thread);
      if !plan.thread.Done? {
        return REFUSED;
      }
      conversation := Forgotten(conversation, Journal, plan.journal);
      if !plan.journal.Done? {
        return REFUSED;
      }
      r := Teardown(owner, brainId, plan);
    }
  }

  // ---------------------------------------------------------------- the principal under faults

  /** The one principal of the Team is the token the controller holds. */
  ghost predicate Principal(w: Pg.World, team: string, token: string) {
    && token in w.registry && w.registry[token].team == team
    && (w.registry[token].retired ==> w.registry[token].databases == {})
    && forall t :: t in w.registry && w.registry[t].team == team ==> t == token
  }

  ghost predicate NoPrincipal(w: Pg.World, team: string) {
    forall t :: t in w.registry ==> w.registry[t].team != team
  }

  ghost predicate Retired(w: Pg.World, team: string, token: string) {
    Principal(w, team, token) && w.registry[token].retired
  }

  predicate Absent(w: Pg.World, db: string) {
    Pg.ObjectsOf(db) !in w.dbs && Pg.ObjectsOf(db) !in w.roles
  }

  /** What dropping keeps and gains, whatever fails: the principal stays, and what it lost is really gone. */
  ghost predicate DropsForward(w: Pg.World, after: Pg.World, team: string, token: string) {
    && token in w.registry && Principal(after, team, token)
    && after.dbs <= w.dbs && after.roles <= w.roles
    && after.registry[token].databases <= w.registry[token].databases
    && forall db :: db in w.registry[token].databases && db !in after.registry[token].databases ==> Absent(after, db)
  }

  lemma DropOneForward(v: Pg.Verdicts, w: Pg.World, token: string, team: string, db: string)
    requires Principal(w, team, token) && db in w.registry[token].databases
    ensures var (after, problem) := Pg.DropOneTx(v, w, token, team, db);
            && DropsForward(w, after, team, token)
            && (problem.None? ==>
                 && after.registry[token].databases == w.registry[token].databases - {db}
                 && !after.registry[token].retired)
            && ((forall n :: v(n).Fine?) ==> problem.None?)
  {
    hide Pg.ObjectsOf;
    var (w1, dropped) := Pg.DropTx(v, w, Pg.ObjectsOf(db));
    if dropped.None? {
      Pg.CommitEffect(v, w1, Pg.RemoveTx(w1.registry, token, team, db));
    }
  }

  lemma {:induction false} DropAllForward(v: Pg.Verdicts, w: Pg.World, token: string, team: string, dbs: seq<string>)
    requires Principal(w, team, token)
    requires forall db :: db in dbs <==> db in w.registry[token].databases
    requires forall i, j :: 0 <= i < j < |dbs| ==> dbs[i] != dbs[j]
    ensures var (after, problem) := Pg.DropAllTx(v, w, token, team, dbs);
            && DropsForward(w, after, team, token)
            && (problem.None? ==> Retired(after, team, token))
            && ((forall n :: v(n).Fine?) ==> problem.None?)
    decreases |dbs|
  {
    hide Pg.DropOneTx, Absent;
    if dbs == [] {
      assert forall db :: db in w.registry[token].databases ==> db in dbs;
      assert w.registry[token].databases == {};
      Pg.CommitEffect(v, w, Pg.RetireTx(w.registry, token, team));
    } else {
      DropOneForward(v, w, token, team, dbs[0]);
      var (w1, problem) := Pg.DropOneTx(v, w, token, team, dbs[0]);
      if problem.None? {
        DropAllForward(v, w1, token, team, dbs[1..]);
        var w2 := Pg.DropAllTx(v, w1, token, team, dbs[1..]).0;
        ForwardTwice(w, w1, w2, team, token);
      }
    }
  }

  lemma ForwardTwice(w: Pg.World, w1: Pg.World, w2: Pg.World, team: string, token: string)
    requires token in w.registry && DropsForward(w, w1, team, token) && DropsForward(w1, w2, team, token)
    ensures DropsForward(w, w2, team, token)
  {
  }

  lemma DropTeamForward(v: Pg.Verdicts, w: Pg.World, token: string, team: string)
    requires Principal(w, team, token)
    ensures var (after, problem) := Pg.DropTeamTx(v, w, token, team, DropOrder(w, token));
            && DropsForward(w, after, team, token)
            && (problem.None? ==> Retired(after, team, token))
            && (TeamId(team) && (forall n :: v(n).Fine?) ==> problem.None?)
  {
    hide Pg.DropAllTx, Absent, Text.Sorted;
    var order := DropOrder(w, token);
    Text.AscendingHasNoRepeats(order);
    DropAllForward(v, w.(tick := w.tick + 1), token, team, order);
  }

  ghost predicate AllRetired(w: Pg.World, team: string) {
    forall t :: t in w.registry && w.registry[t].team == team ==>
      w.registry[t].retired && w.registry[t].databases == {}
  }

  lemma FinalizeForward(v: Pg.Verdicts, w: Pg.World, team: string)
    ensures var (after, problem) := Pg.FinalizeTeamTx(v, w, team);
            && after.dbs == w.dbs && after.roles == w.roles
            && (after.registry == w.registry || (NoPrincipal(after, team) && AllRetired(w, team)))
            && (problem.None? ==> NoPrincipal(after, team))
            && (TeamId(team) && (forall n :: v(n).Fine?) && AllRetired(w, team) ==> problem.None?)
  {
    Pg.CommitEffect(v, w, Pg.FinalizeTx(w.registry, team));
    if Pg.RecordsOf(w.registry, team) == {} {
      assert forall t :: t in w.registry && w.registry[t].team == team ==> t in Pg.RecordsOf(w.registry, team);
    }
  }

  // ---------------------------------------------------------------- what every attempt keeps

  /** Nothing of the Team is left: no artifact, no principal, no token. */
  ghost predicate Clean(h: Host, team: string) {
    h.items == {} && h.brain.None? && NoPrincipal(h.pg, team) && h.token.None?
  }

  predicate DroppedOnRecord(h: Host, team: string) {
    team in h.records && h.records[team].dbDropped
  }

  ghost predicate PrincipalHeld(h: Host, team: string) {
    h.token.Some? && Principal(h.pg, team, h.token.value)
  }

  ghost predicate RetiredHeld(h: Host, team: string) {
    h.token.Some? && Retired(h.pg, team, h.token.value)
  }

  lemma SameRegistry(w: Pg.World, after: Pg.World, team: string)
    requires after.registry == w.registry
    ensures NoPrincipal(after, team) <==> NoPrincipal(w, team)
    ensures forall token :: Principal(after, team, token) <==> Principal(w, team, token)
    ensures forall token :: Retired(after, team, token) <==> Retired(w, team, token)
  {
  }

  /**
   The states reached from a Team whose provisioning committed, `owned` being the databases it had: the record
   exists from before the first removal until nothing is left; the principal is gone only once the drop is on
   record; and a database is registered until it is really gone.
   */
  ghost predicate Consistent(h: Host, team: string, owner: string, brainId: string, owned: set<string>) {
    && TeamId(team) && BrainOwned(h, owner, brainId)
    && (team in h.records ==> h.records[team].owner == owner && h.records[team].brainId == brainId)
    && (NoPrincipal(h.pg, team) || PrincipalHeld(h, team))
    && (DroppedOnRecord(h, team) ==> NoPrincipal(h.pg, team) || RetiredHeld(h, team))
    && (NoPrincipal(h.pg, team) ==> DroppedOnRecord(h, team) || (team !in h.records && Clean(h, team)))
    && (h.touched ==> team in h.records || Clean(h, team))
    && forall db :: db in owned ==>
         Absent(h.pg, db) || (PrincipalHeld(h, team) && db in h.pg.registry[h.token.value].databases)
  }

  /** A destroy request is authorized by the Team's container or by its pending cleanup record. */
  predicate Authorized(h: Host, team: string) {
    h.brain.Some? || team in h.records
  }

  predicate RoomFor(h: Host, team: string) {
    team in h.records || |h.records| < MAX_RECORDS
  }

  lemma StageForward(h: Host, stage: Stage, outcome: Outcome)
    ensures var (after, ok) := StageTx(h, stage, outcome);
            && after == h.(items := after.items, brain := after.brain, touched := after.touched)
            && (h.brain.None? ==> after.brain.None?)
            && (after.brain.Some? ==>
                 after.brain.value.id == h.brain.value.id && after.brain.value.owner == h.brain.value.owner)
            && after.items <= h.items
            && (outcome.Cleared? ==> ok)
            && (ok && stage.ClearItems? ==> forall i :: i in after.items ==> i.0 != stage.kind)
            && (ok && stage.RemoveBrain? ==> after.brain.None?)
  {
  }

  /** After the stages from the i-th on: nothing of the kinds they clear, and no Brain if they remove it. */
  lemma {:induction false} StagesForward(h: Host, plan: Plan, i: nat)
    requires i <= |STAGES|
    ensures var (after, ok) := StagesTx(h, plan, i);
            && after == h.(items := after.items, brain := after.brain, touched := after.touched)
            && (h.brain.None? ==> after.brain.None?)
            && (after.brain.Some? ==>
                 after.brain.value.id == h.brain.value.id && after.brain.value.owner == h.brain.value.owner)
            && after.items <= h.items
            && (ok ==> forall k, item :: i <= k < |STAGES| && STAGES[k].ClearItems? && item in after.items ==>
                         item.0 != STAGES[k].kind)
            && (ok && i <= 8 ==> after.brain.None?)
            && ((forall stage :: plan.stage(stage).Cleared?) ==> ok)
    decreases |STAGES| - i
  {
    hide StageTx;
    if i < |STAGES| {
      StageForward(h, STAGES[i], plan.stage(STAGES[i]));
      var (h1, ok) := StageTx(h, STAGES[i], plan.stage(STAGES[i]));
      if ok {
        StagesForward(h1, plan, i + 1);
        var (after, done) := StagesTx(h1, plan, i + 1);
        if done {
          forall k, item | i <= k < |STAGES| && STAGES[k].ClearItems? && item in after.items
            ensures item.0 != STAGES[k].kind
          {
            assert item in h1.items;
          }
        }
      }
    }
  }

  lemma StagesClear(h: Host, plan: Plan)
    requires StagesTx(h, plan, 0).1
    ensures StagesTx(h, plan, 0).0.items == {} && StagesTx(h, plan, 0).0.brain.None?
  {
    hide StagesTx;
    StagesForward(h, plan, 0);
    var after := StagesTx(h, plan, 0).0;
    forall item | item in after.items
      ensures item.0 != item.0
    {
      var k := StageOf(item.0);
      assert STAGES[k] == ClearItems(item.0);
    }
  }

  function StageOf(kind: Kind): (k: nat)
    ensures k < |STAGES| && STAGES[k] == ClearItems(kind)
  {
    match kind
    case Apps => 1
    case Storage => 2
    case Inference => 3
    case Secrets => 4
    case Accounts => 5
    case Grants => 6
    case Networks => 7
    case Volumes => 9
  }

  /** The record that an attempt holds from its begin on. */
  ghost predicate Holding(h: Host, team: string, record: Record) {
    team in h.records && h.records[team] == record
  }

  lemma BeginKeeps(h: Host, team: string, owner: string, brainId: string, owned: set<string>, plan: Plan)
    requires Consistent(h, team, owner, brainId, owned) && Authorized(h, team)
    ensures var (records, begun) := BeginTx(h.records, team, owner, brainId, plan.nonce, plan.begin);
            && Consistent(h.(records := records), team, owner, brainId, owned)
            && (begun.Success? ==> Holding(h.(records := records), team, begun.value))
            && (ValidAnchor(team, owner, brainId, plan.nonce) && plan.begin.Done? && RoomFor(h, team) ==> begun.Success?)
  {
  }

  lemma StagesKeep(h: Host, team: string, owner: string, brainId: string, owned: set<string>, record: Record, plan: Plan)
    requires Consistent(h, team, owner, brainId, owned) && Holding(h, team, record)
    ensures Consistent(StagesTx(h, plan, 0).0, team, owner, brainId, owned)
    ensures Holding(StagesTx(h, plan, 0).0, team, record)
  {
    hide StagesTx, Absent, Principal, NoPrincipal;
    StagesForward(h, plan, 0);
  }

  lemma DropKeeps(h: Host, team: string, owner: string, brainId: string, owned: set<string>, record: Record, plan: Plan)
    requires Consistent(h, team, owner, brainId, owned) && Holding(h, team, record)
    ensures var (after, next) := DropPhase(h, team, record, plan);
            && Consistent(after, team, owner, brainId, owned)
            && after.items == h.items && after.brain == h.brain && after.token == h.token
            && (next.Some? ==> Holding(after, team, next.value) && next.value.dbDropped)
            && ((forall n :: plan.drop(n).Fine?) && !plan.dropLost && plan.mark.Done? ==> next.Some?)
  {
    hide Pg.DropTeamTx, DropOrder, Pg.ObjectsOf;
    if !record.dbDropped {
      DropTeamForward(plan.drop, h.pg, h.token.value, team);
      var (pg, problem) := Pg.DropTeamTx(plan.drop, h.pg, h.token.value, team, DropOrder(h.pg, h.token.value));
      var after := DropPhase(h, team, record, plan).0;
      assert after.pg == pg && (DroppedOnRecord(after, team) ==> problem.None?);
    }
  }

  lemma FinalKeeps(h: Host, team: string, owner: string, brainId: string, owned: set<string>, record: Record, plan: Plan)
    requires Consistent(h, team, owner, brainId, owned) && Holding(h, team, record) && record.dbDropped
    requires h.items == {} && h.brain.None?
    ensures var (after, done) := FinalPhase(h, team, record, plan);
            && Consistent(after, team, owner, brainId, owned)
            && (done ==> Clean(after, team) && team !in after.records)
            && ((forall n :: plan.finalize(n).Fine?) && !plan.finalizeLost && plan.unlink.Done? && plan.finish.Done? ==> done)
  {
    hide Pg.FinalizeTeamTx, Pg.ObjectsOf;
    FinalizeForward(plan.finalize, h.pg, team);
    var after := FinalPhase(h, team, record, plan).0;
    if after.pg.registry == h.pg.registry {
      SameRegistry(h.pg, after.pg, team);
    }
    var (pg, problem) := Pg.FinalizeTeamTx(plan.finalize, h.pg, team);
    assert after.pg == pg && (after.token != h.token ==> problem.None?);
    assert forall db :: db in owned ==> Absent(after.pg, db);
  }

  /** Nothing in this attempt fails. */
  ghost predicate FaultFree(plan: Plan) {
    && plan.lockInTime && plan.thread.Done? && plan.journal.Done?
    && plan.inspected && plan.begin.Done?
    && (forall stage :: plan.stage(stage).Cleared?)
    && (forall n :: plan.drop(n).Fine?) && !plan.dropLost && plan.mark.Done?
    && (forall n :: plan.finalize(n).Fine?) && !plan.finalizeLost && plan.unlink.Done? && plan.finish.Done?
  }

  /**
   One attempt, whatever fails in it: the retry anchor outlives every removal until nothing is left; a complete
   attempt has left nothing; and an attempt in which nothing fails is complete.
   */
  lemma AttemptRecovers(h: Host, team: string, owner: string, brainId: string, owned: set<string>, plan: Plan)
    requires Consistent(h, team, owner, brainId, owned) && Authorized(h, team)
    ensures var (after, r) := TeardownTx(h, team, owner, brainId, plan);
            && Consistent(after, team, owner, brainId, owned)
            && (r.complete ==> Clean(after, team) && team !in after.records)
            && (FaultFree(plan) && ValidAnchor(team, owner, brainId, plan.nonce) && RoomFor(h, team) ==> r.complete)
  {
    hide Consistent, StagesTx, DropPhase, FinalPhase, BeginTx, ValidAnchor, Clean;
    BeginKeeps(h, team, owner, brainId, owned, plan);
    ConsistentOwnsBrain(h, team, owner, brainId, owned);
    var (records, begun) := BeginTx(h.records, team, owner, brainId, plan.nonce, plan.begin);
    if begun.Success? {
      var h1 := h.(records := records);
      StagesKeep(h1, team, owner, brainId, owned, begun.value, plan);
      StagesForward(h1, plan, 0);
      var (h2, cleared) := StagesTx(h1, plan, 0);
      if cleared {
        StagesClear(h1, plan);
        DropKeeps(h2, team, owner, brainId, owned, begun.value, plan);
        var (h3, record) := DropPhase(h2, team, begun.value, plan);
        if record.Some? {
          FinalKeeps(h3, team, owner, brainId, owned, record.value, plan);
        }
      }
    }
  }

  lemma ConsistentOwnsBrain(h: Host, team: string, owner: string, brainId: string, owned: set<string>)
    requires Consistent(h, team, owner, brainId, owned)
    ensures BrainOwned(h, owner, brainId)
  {
  }

  /** Stopping the Brain under the anchor, and forgetting the conversation, keep the state consistent. */
  lemma PreparationKeeps(h: Host, team: string, owner: string, brainId: string, owned: set<string>, outcome: Outcome)
    requires Consistent(h, team, owner, brainId, owned) && team in h.records
    ensures Consistent(StageTx(h, StopBrain, outcome).0, team, owner, brainId, owned)
  {
  }

  lemma ForgettingKeeps(h: Host, team: string, owner: string, brainId: string, owned: set<string>, conversation: set<Memory>)
    requires Consistent(h, team, owner, brainId, owned)
    ensures Consistent(h.(conversation := conversation), team, owner, brainId, owned)
  {
  }

  /** Everything before the removal of artifacts: anchored, stopped, locked, forgotten. */
  lemma DestroyPrepares(h: Host, team: string, owner: string, brainId: string, owned: set<string>, plan: Plan)
    returns (h4: Host)
    requires Consistent(h, team, owner, brainId, owned) && Authorized(h, team)
    ensures Consistent(h4, team, owner, brainId, owned) && Authorized(h4, team)
    ensures var done := DestroyTx(h, team, owner, brainId, plan);
            || done == (h4, REFUSED)
            || (done == TeardownTx(h4, team, owner, brainId, plan) && h4.conversation <= h.conversation - {Thread, Journal})
    ensures FaultFree(plan) && ValidAnchor(team, owner, brainId, plan.nonce) && RoomFor(h, team) ==>
              && DestroyTx(h, team, owner, brainId, plan) == TeardownTx(h4, team, owner, brainId, plan)
              && RoomFor(h4, team)
  {
    hide Consistent, TeardownTx, ValidAnchor, BeginTx, StageTx;
    ConsistentOwnsBrain(h, team, owner, brainId, owned);
    BeginKeeps(h, team, owner, brainId, owned, plan);
    var (records, begun) := BeginTx(h.records, team, owner, brainId, plan.nonce, plan.begin);
    h4 := if h.brain.None? then h else h.(records := records);
    if h.brain.Some? && begun.Failure? {
      return;
    }
    if h.brain.Some? && h.brain.value.running {
      PreparationKeeps(h4, team, owner, brainId, owned, plan.stage(StopBrain));
      StageForward(h4, StopBrain, plan.stage(StopBrain));
      var (stopped, ok) := StageTx(h4, StopBrain, plan.stage(StopBrain));
      h4 := stopped;
      if !ok {
        return;
      }
    }
    if !plan.lockInTime {
      return;
    }
    ForgettingKeeps(h4, team, owner, brainId, owned, Forgotten(h4.conversation, Thread, plan.thread));
    h4 := h4.(conversation := Forgotten(h4.conversation, Thread, plan.thread));
    if plan.thread.Done? {
      ForgettingKeeps(h4, team, owner, brainId, owned, Forgotten(h4.conversation, Journal, plan.journal));
      h4 := h4.(conversation := Forgotten(h4.conversation, Journal, plan.journal));
    }
  }

  lemma NothingElseRemembered(conversation: set<Memory>)
    ensures conversation - {Thread, Journal} == {}
  {
    forall m | m in conversation
      ensures m in {Thread, Journal}
    {
      assert m.Thread? || m.Journal?;
    }
  }

  /** Destruction as a whole: anchored throughout, complete only when nothing is left, complete if nothing fails. */
  lemma DestroyRecovers(h: Host, team: string, owner: string, brainId: string, owned: set<string>, plan: Plan)
    requires Consistent(h, team, owner, brainId, owned) && Authorized(h, team)
    ensures var (after, r) := DestroyTx(h, team, owner, brainId, plan);
            && Consistent(after, team, owner, brainId, owned)
            && (r.complete ==> r.dbDropped && Clean(after, team) && after.conversation == {} && team !in after.records)
            && (FaultFree(plan) && ValidAnchor(team, owner, brainId, plan.nonce) && RoomFor(h, team) ==> r.complete)
  {
    hide Consistent, DestroyTx, TeardownTx, ValidAnchor, FaultFree, Clean;
    var h4 := DestroyPrepares(h, team, owner, brainId, owned, plan);
    AttemptRecovers(h4, team, owner, brainId, owned, plan);
    CompleteIsDropped(h4, team, owner, brainId, plan);
    TeardownKeepsConversation(h4, team, owner, brainId, plan);
    NothingElseRemembered(h.conversation);
  }

  lemma CompleteIsDropped(h: Host, team: string, owner: string, brainId: string, plan: Plan)
    ensures var r := TeardownTx(h, team, owner, brainId, plan).1;
            r.complete ==> r.dbDropped
  {
  }

  lemma TeardownKeepsConversation(h: Host, team: string, owner: string, brainId: string, plan: Plan)
    ensures TeardownTx(h, team, owner, brainId, plan).0.conversation == h.conversation
  {
    hide StagesTx, BeginTx, Pg.DropTeamTx, Pg.FinalizeTeamTx, DropOrder;
    var (records, begun) := BeginTx(h.records, team, owner, brainId, plan.nonce, plan.begin);
    StagesForward(h.(records := records), plan, 0);
  }

  // ---------------------------------------------------------------- the order of one request

  /** What each stage does: reports success exactly if it did its work, and says in its state what it did not do. */
  lemma StageIsExact(h: Host, stage: Stage, outcome: Outcome)
    ensures var (after, ok) := StageTx(h, stage, outcome);
            && (ok <==> outcome.Cleared? || (!stage.ClearItems? && h.brain.None?))
            && (stage.StopBrain? ==>
                 && after.items == h.items && (after.brain.Some? <==> h.brain.Some?)
                 && (h.brain.Some? ==>
                      && after.brain.value == h.brain.value.(running := after.brain.value.running)
                      && (after.brain.value.running <==> h.brain.value.running && outcome.Broken? && outcome.left != {})))
            && (stage.RemoveBrain? ==>
                 && after.items == h.items
                 && after.brain == if outcome.Broken? && outcome.left != {} then h.brain else None)
            && (stage.ClearItems? ==>
                 && after.brain == h.brain
                 && forall i :: i in after.items <==>
                      i in h.items && (i.0 == stage.kind ==> outcome.Broken? && i.1 in outcome.left))
            && (after != h ==> after.touched)
  {
  }

  /** What other Teams cannot see change: artifacts, Brain, databases and roles, principals, token. */
  ghost predicate SameBelongings(h: Host, after: Host) {
    && after.items == h.items && after.token == h.token && (after.brain.None? <==> h.brain.None?)
    && after.pg.dbs == h.pg.dbs && after.pg.roles == h.pg.roles && after.pg.registry == h.pg.registry
  }

  lemma StagesTouch(h: Host, plan: Plan)
    ensures var after := StagesTx(h, plan, 0).0;
            after.touched || (after.items == h.items && after.brain == h.brain)
    ensures h.touched ==> StagesTx(h, plan, 0).0.touched
  {
    StagesTouchFrom(h, plan, 0);
  }

  lemma {:induction false} StagesTouchFrom(h: Host, plan: Plan, i: nat)
    requires i <= |STAGES|
    ensures var after := StagesTx(h, plan, i).0;
            && (after.touched || (after.items == h.items && after.brain == h.brain))
            && (h.touched ==> after.touched)
    decreases |STAGES| - i
  {
    hide StageTx;
    if i < |STAGES| {
      StageIsExact(h, STAGES[i], plan.stage(STAGES[i]));
      var (h1, ok) := StageTx(h, STAGES[i], plan.stage(STAGES[i]));
      if ok {
        StagesTouchFrom(h1, plan, i + 1);
      }
    }
  }

  /** The container is not the one that was asked for, or belongs to somebody else. */
  predicate Foreign(h: Host, owner: string, brainId: string) {
    h.brain.Some? && (h.brain.value.id != brainId || h.brain.value.owner != owner)
  }

  /** The databases are dropped once: what is on record is not dropped again, and is recorded only after the fact. */
  lemma DropPhaseIsExact(h: Host, team: string, record: Record, plan: Plan)
    requires Holding(h, team, record)
    ensures var (after, next) := DropPhase(h, team, record, plan);
            var order := if h.token.Some? then DropOrder(h.pg, h.token.value) else [];
            && (record.dbDropped ==> after == h && next == Some(record))
            && (!record.dbDropped && h.token.None? ==> after == h && next.None?)
            && (!record.dbDropped && h.token.Some? ==>
                 var (pg, problem) := Pg.DropTeamTx(plan.drop, h.pg, h.token.value, team, order);
                 var dropped := problem.None? && !plan.dropLost;
                 && after.pg == pg && after.touched
                 && (next.Some? <==> dropped && plan.mark.Done?)
                 && (DroppedOnRecord(after, team) <==> dropped && !plan.mark.FailedBefore?)
                 && (next.Some? ==> next.value == record.(dbDropped := true)))
  {
    hide Pg.DropTeamTx, DropOrder;
    if !record.dbDropped && h.token.Some? {
      var (pg, problem) := Pg.DropTeamTx(plan.drop, h.pg, h.token.value, team, DropOrder(h.pg, h.token.value));
      MarkIsExact(h.records, team, record, plan.mark);
    }
  }

  /** The token goes only after the principal, and the record only after the token. */
  lemma FinalPhaseIsExact(h: Host, team: string, record: Record, plan: Plan)
    requires Holding(h, team, record)
    ensures var (after, done) := FinalPhase(h, team, record, plan);
            var (pg, problem) := Pg.FinalizeTeamTx(plan.finalize, h.pg, team);
            var finalized := problem.None? && !plan.finalizeLost;
            && after.pg == pg && after.touched
            && after.token == (if finalized && !plan.unlink.FailedBefore? then None else h.token)
            && (team !in after.records <==> finalized && plan.unlink.Done? && !plan.finish.FailedBefore?)
            && (done <==> finalized && plan.unlink.Done? && plan.finish.Done?)
  {
    hide Pg.FinalizeTeamTx;
    var (pg, problem) := Pg.FinalizeTeamTx(plan.finalize, h.pg, team);
    FinishIsExact(h.records, team, record, plan.finish);
  }

  /** A teardown removes nothing of a foreign or uninspected Team, remembers whatever it removes, and reports truly. */
  lemma TeardownReports(h: Host, team: string, owner: string, brainId: string, plan: Plan)
    ensures var (after, r) := TeardownTx(h, team, owner, brainId, plan);
            && (Foreign(h, owner, brainId) || !plan.inspected ==> (after, r) == (h, REFUSED))
            && (!SameBelongings(h, after) || after.brain != h.brain ==> after.touched)
            && (h.touched ==> after.touched)
            && (after.token != h.token ==> after.token.None? && !plan.unlink.FailedBefore?)
            && (after != h && DroppedOnRecord(h, team) ==> r.dbDropped)
            && (r.dbDropped ==> team !in after.records || after.records[team].dbDropped)
            && (r.complete ==>
                 && plan.inspected && !Foreign(h, owner, brainId) && r.dbDropped
                 && !plan.finalizeLost && plan.unlink.Done? && plan.finish.Done?
                 && after.items == {} && after.brain.None? && after.token.None? && team !in after.records)
  {
    hide StagesTx, Pg.DropTeamTx, Pg.FinalizeTeamTx, DropOrder, ValidAnchor;
    var (records, begun) := BeginTx(h.records, team, owner, brainId, plan.nonce, plan.begin);
    var h1 := h.(records := records);
    if begun.Success? {
      StagesTouch(h1, plan);
      StagesForward(h1, plan, 0);
      if StagesTx(h1, plan, 0).1 {
        StagesClear(h1, plan);
      }
    }
  }

  /**
   The order of a destroy request, whatever fails in it: nothing of a foreign Team is touched; the conversation is
   forgotten only under the chat lock and with the Brain stopped; nothing belonging to the Team goes before the whole
   conversation has; and only a request that got all the way through reports completion.
   */
  lemma DestroyKeepsOrder(h: Host, team: string, owner: string, brainId: string, plan: Plan)
    ensures var (after, r) := DestroyTx(h, team, owner, brainId, plan);
            && (Foreign(h, owner, brainId) ==> (after, r) == (h, REFUSED))
            && (after.conversation != h.conversation ==>
                 && plan.lockInTime
                 && (h.brain.Some? ==> BeginTx(h.records, team, owner, brainId, plan.nonce, plan.begin).1.Success?)
                 && (after.brain.Some? ==> !after.brain.value.running))
            && after.conversation <= h.conversation
            && (h.brain.None? && plan.lockInTime ==>
                 && (Thread in after.conversation <==> Thread in h.conversation && plan.thread.FailedBefore?)
                 && (Journal in after.conversation <==>
                      Journal in h.conversation && (!plan.thread.Done? || plan.journal.FailedBefore?)))
            && (!SameBelongings(h, after) ==>
                 plan.lockInTime && plan.thread.Done? && plan.journal.Done? && plan.inspected && after.conversation == {})
            && (!SameBelongings(h, after) || after.brain != h.brain ==> after.touched)
            && (r != REFUSED ==> plan.lockInTime && plan.thread.Done? && plan.journal.Done? && plan.inspected)
            && (r.dbDropped ==> team !in after.records || after.records[team].dbDropped)
            && (r.complete ==>
                 && after.items == {} && after.brain.None? && after.token.None?
                 && after.conversation == {} && team !in after.records)
  {
    hide BeginTx, StageTx, TeardownTx, StagesTx;
    if !BrainOwned(h, owner, brainId) {
      return;
    }
    NothingElseRemembered(h.conversation);
    var h1 := h;
    if h.brain.Some? {
      var (records, begun) := BeginTx(h.records, team, owner, brainId, plan.nonce, plan.begin);
      h1 := h.(records := records);
      if begun.Failure? {
        return;
      }
    }
    var h2 := h1;
    if h.brain.Some? && h.brain.value.running {
      StageForward(h1, StopBrain, plan.stage(StopBrain));
      StageIsExact(h1, StopBrain, plan.stage(StopBrain));
      var (stopping, stopped) := StageTx(h1, StopBrain, plan.stage(StopBrain));
      if !stopped {
        return;
      }
      h2 := stopping;
    }
    var h3 := h2.(conversation := Forgotten(h2.conversation, Thread, plan.thread));
    var h4 := h3.(conversation := Forgotten(h3.conversation, Journal, plan.journal));
    TeardownReports(h4, team, owner, brainId, plan);
    TeardownKeepsConversation(h4, team, owner, brainId, plan);
    TeardownStartsNothing(h4, team, owner, brainId, plan);
  }

  /** A Brain that is not running is not started. */
  lemma TeardownStartsNothing(h: Host, team: string, owner: string, brainId: string, plan: Plan)
    requires h.brain.Some? ==> !h.brain.value.running
    ensures var after := TeardownTx(h, team, owner, brainId, plan).0;
            after.brain.Some? ==> !after.brain.value.running
  {
    hide StagesTx, Pg.DropTeamTx, Pg.FinalizeTeamTx, DropOrder, BeginTx;
    var records := BeginTx(h.records, team, owner, brainId, plan.nonce, plan.begin).0;
    StagesStartNothing(h.(records := records), plan, 0);
  }

  lemma {:induction false} StagesStartNothing(h: Host, plan: Plan, i: nat)
    requires i <= |STAGES| && (h.brain.Some? ==> !h.brain.value.running)
    ensures var after := StagesTx(h, plan, i).0;
            after.brain.Some? ==> !after.brain.value.running
    decreases |STAGES| - i
  {
    hide StageTx;
    if i < |STAGES| {
      StageIsExact(h, STAGES[i], plan.stage(STAGES[i]));
      var (h1, ok) := StageTx(h, STAGES[i], plan.stage(STAGES[i]));
      if ok {
        StagesStartNothing(h1, plan, i + 1);
      }
    }
  }

  // ---------------------------------------------------------------- any number of attempts

  /** A Team whose provisioning has committed starts out consistent, owning the databases it has registered. */
  lemma ProvisionedIsConsistent(h: Host, team: string, owner: string, brainId: string, token: string)
    requires TeamId(team) && Pg.Tenancy(h.pg) && Pg.Active(h.pg.registry, token, team)
    requires h.token == Some(token) && BrainOwned(h, owner, brainId) && team !in h.records && !h.touched
    ensures Consistent(h, team, owner, brainId, h.pg.registry[token].databases)
  {
  }

  /** What other Teams may do between attempts: anything but touch this Team, its record or its database names. */
  ghost predicate OthersMoved(h: Host, after: Host, team: string, owned: set<string>) {
    && after == h.(pg := after.pg, records := after.records)
    && (team in after.records <==> team in h.records)
    && (team in h.records ==> after.records[team] == h.records[team])
    && (forall t :: t in h.pg.registry && h.pg.registry[t].team == team ==>
         t in after.pg.registry && after.pg.registry[t] == h.pg.registry[t])
    && (forall t :: t in after.pg.registry && after.pg.registry[t].team == team ==>
         t in h.pg.registry && after.pg.registry[t] == h.pg.registry[t])
    && forall db :: db in owned && Absent(h.pg, db) ==> Absent(after.pg, db)
  }

  lemma OthersKeep(h: Host, after: Host, team: string, owner: string, brainId: string, owned: set<string>)
    requires Consistent(h, team, owner, brainId, owned) && OthersMoved(h, after, team, owned)
    ensures Consistent(after, team, owner, brainId, owned)
  {
  }

  /** One destroy request, then other Teams' business. A crash is an attempt whose next stage fails. */
  datatype Round = Round(plan: Plan, others: Host)

  ghost predicate ValidRounds(h: Host, team: string, owner: string, brainId: string, owned: set<string>, rounds: seq<Round>)
    decreases |rounds|
  {
    rounds != [] ==>
      && Authorized(h, team)
      && OthersMoved(DestroyTx(h, team, owner, brainId, rounds[0].plan).0, rounds[0].others, team, owned)
      && ValidRounds(rounds[0].others, team, owner, brainId, owned, rounds[1..])
  }

  ghost function AfterRounds(h: Host, rounds: seq<Round>): Host {
    if rounds == [] then h else rounds[|rounds| - 1].others
  }

  lemma ConsistentIsAnchored(h: Host, team: string, owner: string, brainId: string, owned: set<string>)
    requires Consistent(h, team, owner, brainId, owned)
    ensures h.touched ==> team in h.records || Clean(h, team)
  {
  }

  /** After any number of attempts the record still stands, unless nothing of the Team is left. */
  lemma {:induction false} AnchorOutlivesRemovals(
    h: Host, team: string, owner: string, brainId: string, owned: set<string>, rounds: seq<Round>)
    requires Consistent(h, team, owner, brainId, owned)
    requires ValidRounds(h, team, owner, brainId, owned, rounds)
    ensures var last := AfterRounds(h, rounds);
            && Consistent(last, team, owner, brainId, owned)
            && (last.touched ==> team in last.records || Clean(last, team))
    decreases |rounds|
  {
    hide Consistent, DestroyTx, OthersMoved, Clean, Authorized;
    if rounds == [] {
      ConsistentIsAnchored(h, team, owner, brainId, owned);
    } else {
      var h1 := DestroyTx(h, team, owner, brainId, rounds[0].plan).0;
      DestroyRecovers(h, team, owner, brainId, owned, rounds[0].plan);
      OthersKeep(h1, rounds[0].others, team, owner, brainId, owned);
      AnchorOutlivesRemovals(rounds[0].others, team, owner, brainId, owned, rounds[1..]);
    }
  }

  /**
   However many attempts were made and however they failed, the next one in which nothing fails completes, as
   long as the Team is still authorized for destruction; then no artifact, conversation, principal, token, record
   or owned database is left.
   */
  lemma TeardownConverges(
    h: Host, team: string, owner: string, brainId: string, owned: set<string>, rounds: seq<Round>, plan: Plan)
    requires Consistent(h, team, owner, brainId, owned)
    requires ValidRounds(h, team, owner, brainId, owned, rounds)
    requires var last := AfterRounds(h, rounds);
             && Authorized(last, team) && FaultFree(plan) && ValidAnchor(team, owner, brainId, plan.nonce)
             && RoomFor(last, team)
    ensures var (after, r) := DestroyTx(AfterRounds(h, rounds), team, owner, brainId, plan);
            && r == CleanupResult(true, true)
            && Clean(after, team) && after.conversation == {} && team !in after.records
            && forall db :: db in owned ==> Absent(after.pg, db)
  {
    hide Consistent, DestroyTx, ValidAnchor, FaultFree, Clean, Absent, ValidRounds;
    AnchorOutlivesRemovals(h, team, owner, brainId, owned, rounds);
    var last := AfterRounds(h, rounds);
    DestroyRecovers(last, team, owner, brainId, owned, plan);
    CleanOwnsNothing(DestroyTx(last, team, owner, brainId, plan).0, team, owner, brainId, owned);
  }

  lemma CleanOwnsNothing(h: Host, team: string, owner: string, brainId: string, owned: set<string>)
    requires Consistent(h, team, owner, brainId, owned) && Clean(h, team)
    ensures forall db :: db in owned ==> Absent(h.pg, db)
  {
  }

  // ---------------------------------------------------------------- a Team whose provisioning never committed

  /** The driver does not know the Team's token, and no drop was ever recorded. */
  predicate Uncommitted(h: Host, team: string) {
    && !DroppedOnRecord(h, team)
    && (h.token.Some? ==> !(h.token.value in h.pg.registry && h.pg.registry[h.token.value].team == team))
  }

  lemma BeginKeepsUncommitted(h: Host, team: string, owner: string, brainId: string, plan: Plan)
    requires Uncommitted(h, team)
    ensures var (records, begun) := BeginTx(h.records, team, owner, brainId, plan.nonce, plan.begin);
            && Uncommitted(h.(records := records), team)
            && (begun.Success? ==> !begun.value.dbDropped)
  {
  }

  lemma TeardownKeepsUncommitted(h: Host, team: string, owner: string, brainId: string, plan: Plan)
    requires Uncommitted(h, team)
    ensures var (after, r) := TeardownTx(h, team, owner, brainId, plan);
            !r.complete && Uncommitted(after, team)
  {
    hide StagesTx, ValidAnchor, Pg.DropAllTx, DropOrder;
    var (records, begun) := BeginTx(h.records, team, owner, brainId, plan.nonce, plan.begin);
    StagesForward(h.(records := records), plan, 0);
  }

  /** Such a destruction never completes, whatever happens in it, and neither does any later one. */
  lemma UncommittedNeverCompletes(h: Host, team: string, owner: string, brainId: string, plan: Plan)
    requires Uncommitted(h, team)
    ensures var (after, r) := DestroyTx(h, team, owner, brainId, plan);
            !r.complete && Uncommitted(after, team)
  {
    hide BeginTx, StageTx, TeardownTx;
    if !BrainOwned(h, owner, brainId) {
      return;
    }
    var h1 := h;
    if h.brain.Some? {
      BeginKeepsUncommitted(h, team, owner, brainId, plan);
      h1 := h.(records := BeginTx(h.records, team, owner, brainId, plan.nonce, plan.begin).0);
    }
    StageForward(h1, StopBrain, plan.stage(StopBrain));
    var h2 := if h.brain.Some? && h.brain.value.running then StageTx(h1, StopBrain, plan.stage(StopBrain)).0 else h1;
    var h3 := h2.(conversation := Forgotten(h2.conversation, Thread, plan.thread));
    var h4 := h3.(conversation := Forgotten(h3.conversation, Journal, plan.journal));
    TeardownKeepsUncommitted(h4, team, owner, brainId, plan);
  }

  /** What holds of a Team whether or not its provisioning committed. */
  ghost predicate Sound(h: Host, team: string, owner: string, brainId: string) {
    && TeamId(team) && BrainOwned(h, owner, brainId)
    && (team in h.records ==> h.records[team].owner == owner && h.records[team].brainId == brainId)
    && (forall t, u :: t in h.pg.registry && u in h.pg.registry && h.pg.registry[t].team == h.pg.registry[u].team == team
         ==> t == u)
    && (forall t :: t in h.pg.registry && h.pg.registry[t].team == team && h.pg.registry[t].retired ==>
         h.pg.registry[t].databases == {})
    && (DroppedOnRecord(h, team) ==> NoPrincipal(h.pg, team) || RetiredHeld(h, team))
    && (h.touched ==> team in h.records || Clean(h, team))
  }

  lemma ConsistentIsSound(h: Host, team: string, owner: string, brainId: string, owned: set<string>)
    requires Consistent(h, team, owner, brainId, owned)
    ensures Sound(h, team, owner, brainId)
    ensures Authorized(h, team) ==> !Uncommitted(h, team)
  {
  }

  lemma CommittedIsConsistent(h: Host, team: string, owner: string, brainId: string)
    requires Sound(h, team, owner, brainId) && !Uncommitted(h, team)
    ensures Consistent(h, team, owner, brainId, {})
  {
  }

  /** An authorized destruction in which nothing fails completes exactly if the provisioning had committed. */
  lemma FaultFreeDestroyCompletesExactly(h: Host, team: string, owner: string, brainId: string, plan: Plan)
    requires Sound(h, team, owner, brainId) && Authorized(h, team)
    requires FaultFree(plan) && ValidAnchor(team, owner, brainId, plan.nonce) && RoomFor(h, team)
    ensures DestroyTx(h, team, owner, brainId, plan).1.complete <==> !Uncommitted(h, team)
  {
    hide Sound, Uncommitted, DestroyTx, FaultFree, ValidAnchor;
    if Uncommitted(h, team) {
      UncommittedNeverCompletes(h, team, owner, brainId, plan);
    } else {
      CommittedIsConsistent(h, team, owner, brainId);
      DestroyRecovers(h, team, owner, brainId, {}, plan);
    }
  }

  /** The driver registers a principal exactly when it accepts; a refusal leaves every principal as it was. */
  lemma ProvisioningCommits(
    v: Pg.Verdicts, h: Host, team: string, owner: string, brainId: string, minted: string, random: string)
    requires Sound(h, team, owner, brainId) && Uncommitted(h, team) && !h.touched && minted !in h.pg.registry
    ensures var (after, r) := ProvisionHostTx(v, h, team, minted, random);
            && Sound(after, team, owner, brainId)
            && (r.Success? <==> !Uncommitted(after, team))
  {
    hide Pg.ProvisionTx, Pg.TeamDatabase, Pg.NamespaceFor;
    var token := h.token.GetOr(minted);
    Pg.ProvisionIsExact(v, h.pg, team, token, random);
    var (pg, r) := Pg.ProvisionTx(v, h.pg, team, token, random);
    if r.Success? {
      assert pg.registry[token].team == team;
    }
  }

  /**
   A Team that was never provisioned can later be destroyed exactly if the driver accepted its provisioning: after
   a refusal no destruction ever completes, though nothing fails in it.
   */
  lemma DestructionNeedsProvisioning(
    v: Pg.Verdicts, h: Host, team: string, owner: string, brainId: string, minted: string, random: string, plan: Plan)
    requires Sound(h, team, owner, brainId) && Uncommitted(h, team) && !h.touched && minted !in h.pg.registry
    requires Authorized(h, team)
    requires FaultFree(plan) && ValidAnchor(team, owner, brainId, plan.nonce) && RoomFor(h, team)
    ensures var (after, r) := ProvisionHostTx(v, h, team, minted, random);
            DestroyTx(after, team, owner, brainId, plan).1.complete <==> r.Success?
  {
    hide Sound, Uncommitted, DestroyTx, FaultFree, ValidAnchor, Pg.ProvisionTx;
    ProvisioningCommits(v, h, team, owner, brainId, minted, random);
    FaultFreeDestroyCompletesExactly(
      ProvisionHostTx(v, h, team, minted, random).0, team, owner, brainId, plan);
  }

  /** Nor does it complete after any number of attempts, whatever other Teams do in between. */
  lemma {:induction false} UncommittedForGood(
    h: Host, team: string, owner: string, brainId: string, owned: set<string>, rounds: seq<Round>)
    requires Uncommitted(h, team) && ValidRounds(h, team, owner, brainId, owned, rounds)
    ensures Uncommitted(AfterRounds(h, rounds), team)
    decreases |rounds|
  {
    hide DestroyTx, Authorized;
    if rounds != [] {
      UncommittedNeverCompletes(h, team, owner, brainId, rounds[0].plan);
      UncommittedForGood(rounds[0].others, team, owner, brainId, owned, rounds[1..]);
    }
  }
}
