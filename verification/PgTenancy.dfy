/**
 The tenant-scoped Postgres driver (pg/app.py, pg/pg_client.py, pg/principal_store.py, pg/validate.py): two
 stores, Postgres and the principal registry, kept in step by compensation under one mutation lock.

 Every command and every registry read or write has a verdict. A failed command has no effect; a command that
 times out may have had its effect, and its exception is not one that the compensation catches.
 */
module PgTenancy {
  import opened Wrappers
  import opened Formats

  datatype Verdict = Fine | Failed | TimedOut(effect: bool)

  datatype Problem = Invalid | Denied | StoreFailed | PgFailed | Timeout | CompensationFailed

  datatype Principal = Principal(team: string, databases: set<string>, namespace: string, retired: bool)

  /** Principals by the digest of their token; hashing is injective, so by the token itself. */
  type Registry = map<string, Principal>

  datatype World = World(dbs: set<string>, roles: set<string>, registry: Registry, tick: nat)

  datatype Created = Created(database: bool, role: bool)

  type Verdicts = nat -> Verdict

  // ---------------------------------------------------------------- names

  predicate AppChar(c: char) {
    'a' <= c <= 'z' || '0' <= c <= '9' || c == '-'
  }

  predicate AppId(s: string) {
    1 <= |s| <= 40 && s[0] != '-' && forall k :: 0 <= k < |s| ==> AppChar(s[k])
  }

  predicate Token(s: string) {
    |s| == 64 && LowerHex(s)
  }

  const PREFIX := "proj_"

  function TeamDatabase(team: string): string {
    PREFIX + "team_" + team
  }

  function Underscored(app: string): string {
    seq(|app|, k requires 0 <= k < |app| => if app[k] == '-' then '_' else app[k])
  }

  function AppDatabase(namespace: string, app: string): string {
    PREFIX + "team_" + namespace + "_" + Underscored(app)
  }

  /** Within one Team, different Apps have different databases. */
  lemma AppDatabasesDiffer(namespace: string, a: string, b: string)
    requires AppId(a) && AppId(b) && AppDatabase(namespace, a) == AppDatabase(namespace, b)
    ensures a == b
  {
    var head := PREFIX + "team_" + namespace + "_";
    assert AppDatabase(namespace, a)[|head|..] == Underscored(a);
    assert AppDatabase(namespace, b)[|head|..] == Underscored(b);
    assert |Underscored(a)| == |a| && |Underscored(b)| == |b|;
    forall k | 0 <= k < |a|
      ensures a[k] == b[k]
    {
      assert Underscored(a)[k] == Underscored(b)[k];
      assert AppChar(a[k]) && AppChar(b[k]);
    }
  }

  /** A Team may be named so that its database is another Team's App database. */
  lemma NamesCanCollide()
    ensures TeamId("0123456789ab_crm") && AppId("crm")
    ensures TeamDatabase("0123456789ab_crm") == AppDatabase("0123456789ab", "crm")
  {
  }

  // ---------------------------------------------------------------- Postgres

  datatype Command = AlterRole | CreateRole | CreateDb | Configure | DropDb | DropRole

  predicate TakesEffect(v: Verdict) {
    v.Fine? || (v.TimedOut? && v.effect)
  }

  function Ran(w: World, v: Verdict, command: Command, db: string): World {
    var after := w.(tick := w.tick + 1);
    if !TakesEffect(v) then after
    else
      match command
      case CreateRole => after.(roles := w.roles + {db})
      case CreateDb => after.(dbs := w.dbs + {db})
      case DropDb => after.(dbs := w.dbs - {db})
      case DropRole => after.(roles := w.roles - {db})
      case _ => after
  }

  function ProblemOf(v: Verdict): Option<Problem> {
    match v
    case Fine => None
    case Failed => Some(PgFailed)
    case TimedOut(_) => Some(Timeout)
  }

  /** `_cleanup_created_resources`: a failed first drop does not prevent the second, a timeout does. */
  function CleanupTx(v: Verdicts, w: World, db: string, created: Created): (World, Option<Problem>) {
    var first := if created.database then v(w.tick) else Fine;
    var w1 := if created.database then Ran(w, first, DropDb, db) else w;
    if first.TimedOut? then (w1, Some(Timeout))
    else
      var second := if created.role then v(w1.tick) else Fine;
      var w2 := if created.role then Ran(w1, second, DropRole, db) else w1;
      (w2,
       if second.TimedOut? then Some(Timeout) else if first.Failed? || second.Failed? then Some(PgFailed) else None)
  }

  /** The state of one provisioning attempt; once it has stopped nothing more runs. */
  datatype Attempt = Attempt(world: World, created: Created, stop: Option<Problem>)

  function Stage(v: Verdicts, a: Attempt, command: Command, db: string): Attempt {
    if a.stop.Some? then a
    else
      var verdict := v(a.world.tick);
      Attempt(
        Ran(a.world, verdict, command, db),
        Created(a.created.database || (verdict.Fine? && command.CreateDb?),
                a.created.role || (verdict.Fine? && command.CreateRole?)),
        ProblemOf(verdict))
  }

  function Stages(v: Verdicts, a: Attempt, db: string, existed: bool): Attempt {
    var a1 := Stage(v, a, if existed then AlterRole else CreateRole, db);
    var a2 := if existed then a1 else Stage(v, a1, CreateDb, db);
    Stage(v, Stage(v, Stage(v, a2, Configure, db), Configure, db), Configure, db)
  }

  /** What a failed attempt does: compensate, unless the failure is one that escapes. */
  function Compensated(v: Verdicts, w: World, db: string, created: Created, problem: Problem)
    : (World, Result<Created, Problem>)
  {
    if problem == Timeout then (w, Failure(Timeout))
    else
      match CleanupTx(v, w, db, created)
      case (w', None) => (w', Failure(problem))
      case (w', Some(Timeout)) => (w', Failure(Timeout))
      case (w', Some(_)) => (w', Failure(CompensationFailed))
  }

  function CreateTx(v: Verdicts, w: World, db: string, allowExisting: bool): (World, Result<Created, Problem>) {
    var first, second := v(w.tick), v(w.tick + 1);
    if !first.Fine? then (w.(tick := w.tick + 1), Failure(ProblemOf(first).value))
    else if !second.Fine? then (w.(tick := w.tick + 2), Failure(ProblemOf(second).value))
    else
      var w2 := w.(tick := w.tick + 2);
      if (db in w.roles) != (db in w.dbs) then (w2, Failure(PgFailed))
      else if (db in w.dbs) != allowExisting then (w2, Failure(PgFailed))
      else
        var a := Stages(v, Attempt(w2, Created(false, false), None), db, db in w.dbs);
        if a.stop.None? then (a.world, Success(a.created)) else Compensated(v, a.world, db, a.created, a.stop.value)
  }

  function DropTx(v: Verdicts, w: World, db: string): (World, Option<Problem>) {
    var first := v(w.tick);
    var w1 := Ran(w, first, DropDb, db);
    if !first.Fine? then (w1, ProblemOf(first))
    else
      var second := v(w1.tick);
      (Ran(w1, second, DropRole, db), ProblemOf(second))
  }

  function ExistTx(v: Verdicts, w: World, db: string): (World, Result<bool, Problem>) {
    var first := v(w.tick);
    var w1 := w.(tick := w.tick + 1);
    if !first.Fine? then (w1, Failure(ProblemOf(first).value))
    else if db in w.dbs then (w1, Success(true))
    else
      var second := v(w1.tick);
      var w2 := w1.(tick := w1.tick + 1);
      (w2, if !second.Fine? then Failure(ProblemOf(second).value) else Success(db in w.roles))
  }

  // ---------------------------------------------------------------- the registry

  function RecordsOf(registry: Registry, team: string): set<string> {
    set t | t in registry && registry[t].team == team
  }

  predicate Active(registry: Registry, token: string, team: string) {
    token in registry && registry[token].team == team && !registry[token].retired
  }

  function Owns(registry: Registry, team: string, db: string): Result<bool, Problem> {
    if |RecordsOf(registry, team)| > 1 then Failure(StoreFailed)
    else Success(exists t :: t in registry && registry[t].team == team && db in registry[t].databases)
  }

  lemma OnlyRecord(registry: Registry, team: string, t: string, u: string)
    requires |RecordsOf(registry, team)| <= 1 && t in RecordsOf(registry, team) && u in RecordsOf(registry, team)
    ensures t == u
  {
    var rest := RecordsOf(registry, team) - {t};
    assert |rest| == 0;
    assert u !in rest;
  }

  /** A Team keeps its namespace when its principal rotates; a new Team takes a random unused one. */
  function NamespaceFor(registry: Registry, team: string, random: string): string
    requires |RecordsOf(registry, team)| <= 1
  {
    if RecordsOf(registry, team) == {} then random
    else
      assert forall t, u :: t in RecordsOf(registry, team) && u in RecordsOf(registry, team) ==> t == u by {
        forall t, u | t in RecordsOf(registry, team) && u in RecordsOf(registry, team)
          ensures t == u
        {
          OnlyRecord(registry, team, t, u);
        }
      }
      var t :| t in RecordsOf(registry, team);
      registry[t].namespace
  }

  function RegisterTx(registry: Registry, team: string, token: string, db: string, random: string)
    : Result<Registry, Problem>
  {
    if |RecordsOf(registry, team)| > 1 then Failure(StoreFailed)
    else
      Success((map t | t in registry && registry[t].team != team :: registry[t])
              [token := Principal(team, {db}, NamespaceFor(registry, team, random), false)])
  }

  function AddTx(registry: Registry, token: string, team: string, db: string): Result<Registry, Problem> {
    if !Active(registry, token, team) then Failure(Denied)
    else Success(registry[token := registry[token].(databases := registry[token].databases + {db})])
  }

  function RemoveTx(registry: Registry, token: string, team: string, db: string): Result<Registry, Problem> {
    if !Active(registry, token, team) || db !in registry[token].databases then Failure(Denied)
    else Success(registry[token := registry[token].(databases := registry[token].databases - {db})])
  }

  function RetireTx(registry: Registry, token: string, team: string): Result<Registry, Problem> {
    if token !in registry || registry[token].team != team || registry[token].databases != {} then Failure(Denied)
    else Success(registry[token := registry[token].(retired := true)])
  }

  function FinalizeTx(registry: Registry, team: string): Result<Registry, Problem> {
    if exists t :: t in registry && registry[t].team == team && (!registry[t].retired || registry[t].databases != {})
    then Failure(Denied)
    else Success(map t | t in registry && registry[t].team != team :: registry[t])
  }

  /** One read-modify-write of the registry file, which is replaced as a whole or not at all. */
  function CommitTx(v: Verdicts, w: World, next: Result<Registry, Problem>): (World, Option<Problem>) {
    if !v(w.tick).Fine? then (w.(tick := w.tick + 1), Some(StoreFailed))
    else if next.Failure? then (w.(tick := w.tick + 1), Some(next.error))
    else if !v(w.tick + 1).Fine? then (w.(tick := w.tick + 2), Some(StoreFailed))
    else (w.(registry := next.value, tick := w.tick + 2), None)
  }

  // ---------------------------------------------------------------- the operations of the driver

  function ProvisionTx(v: Verdicts, w: World, team: string, token: string, random: string)
    : (World, Result<Created, Problem>)
  {
    var db := TeamDatabase(team);
    if !TeamId(team) || !Token(token) then (w, Failure(Invalid))
    else if !v(w.tick).Fine? then (w.(tick := w.tick + 1), Failure(StoreFailed))
    else
      match Owns(w.registry, team, db)
      case Failure(e) => (w.(tick := w.tick + 1), Failure(e))
      case Success(owned) =>
        match CreateTx(v, w.(tick := w.tick + 1), db, owned)
        case (w1, Failure(e)) => (w1, Failure(e))
        case (w1, Success(created)) =>
          match CommitTx(v, w1, RegisterTx(w1.registry, team, token, db, random))
          case (w2, None) => (w2, Success(created))
          case (w2, Some(e)) => Compensated(v, w2, db, created, e)
  }

  /** The databases and the namespace of an active principal, each from its own read. */
  function ScopeTx(v: Verdicts, w: World, token: string, team: string): (World, Option<Problem>) {
    if !v(w.tick).Fine? then (w.(tick := w.tick + 1), Some(StoreFailed))
    else if !Active(w.registry, token, team) then (w.(tick := w.tick + 1), Some(Denied))
    else if !v(w.tick + 1).Fine? then (w.(tick := w.tick + 2), Some(StoreFailed))
    else (w.(tick := w.tick + 2), None)
  }

  function CreateAppTx(v: Verdicts, w: World, token: string, team: string, app: string): (World, Result<Created, Problem>) {
    if !TeamId(team) || !AppId(app) then (w, Failure(Invalid))
    else
      match ScopeTx(v, w, token, team)
      case (w1, Some(e)) => (w1, Failure(e))
      case (w1, None) =>
        var db := AppDatabase(w.registry[token].namespace, app);
        var scoped := db in w.registry[token].databases;
        var (w2, exist) := if scoped then (w1, Success(false)) else ExistTx(v, w1, db);
        if exist.Failure? then (w2, Failure(exist.error))
        else if exist.value then (w2, Failure(Denied))
        else
          match CreateTx(v, w2, db, scoped)
          case (w3, Failure(e)) => (w3, Failure(e))
          case (w3, Success(created)) =>
            match CommitTx(v, w3, AddTx(w3.registry, token, team, db))
            case (w4, None) => (w4, Success(created))
            case (w4, Some(e)) => Compensated(v, w4, db, created, e)
  }

  datatype Dropped = AlreadyAbsent | Gone

  predicate Prefixed(db: string) {
    |PREFIX| <= |db| && db[..|PREFIX|] == PREFIX
  }

  /** The Postgres objects of a registered name: its project prefixed again. */
  function ObjectsOf(db: string): string {
    if Prefixed(db) then db else PREFIX + db
  }

  function DropOneTx(v: Verdicts, w: World, token: string, team: string, db: string): (World, Option<Problem>) {
    match DropTx(v, w, ObjectsOf(db))
    case (w1, Some(e)) => (w1, Some(e))
    case (w1, None) => CommitTx(v, w1, RemoveTx(w1.registry, token, team, db))
  }

  function DropAppTx(v: Verdicts, w: World, token: string, team: string, app: string): (World, Result<Dropped, Problem>) {
    if !TeamId(team) || !AppId(app) then (w, Failure(Invalid))
    else
      match ScopeTx(v, w, token, team)
      case (w1, Some(e)) => (w1, Failure(e))
      case (w1, None) =>
        var db := AppDatabase(w.registry[token].namespace, app);
        if db !in w.registry[token].databases then
          match ExistTx(v, w1, db)
          case (w2, Failure(e)) => (w2, Failure(e))
          case (w2, Success(exist)) => (w2, if exist then Failure(Denied) else Success(AlreadyAbsent))
        else
          match DropOneTx(v, w1, token, team, db)
          case (w2, Some(e)) => (w2, Failure(e))
          case (w2, None) => (w2, Success(Gone))
  }

  /** Databases are dropped one at a time, each removed from the registry before the next is touched. */
  function DropAllTx(v: Verdicts, w: World, token: string, team: string, dbs: seq<string>): (World, Option<Problem>)
    decreases |dbs|
  {
    if dbs == [] then CommitTx(v, w, RetireTx(w.registry, token, team))
    else
      match DropOneTx(v, w, token, team, dbs[0])
      case (w1, Some(e)) => (w1, Some(e))
      case (w1, None) => DropAllTx(v, w1, token, team, dbs[1..])
  }

  /** `order` lists the registered databases in the order in which they are dropped. */
  function DropTeamTx(v: Verdicts, w: World, token: string, team: string, order: seq<string>): (World, Option<Problem>) {
    if !TeamId(team) then (w, Some(Invalid))
    else if !v(w.tick).Fine? then (w.(tick := w.tick + 1), Some(StoreFailed))
    else if token !in w.registry || w.registry[token].team != team then (w.(tick := w.tick + 1), Some(Denied))
    else DropAllTx(v, w.(tick := w.tick + 1), token, team, order)
  }

  function FinalizeTeamTx(v: Verdicts, w: World, team: string): (World, Option<Problem>) {
    if !TeamId(team) then (w, Some(Invalid))
    else if v(w.tick).Fine? && RecordsOf(w.registry, team) == {} then (w.(tick := w.tick + 1), None)
    else CommitTx(v, w, FinalizeTx(w.registry, team))
  }

  // ---------------------------------------------------------------- the driver

  class PgDriver {
    const verdicts: Verdicts
    var dbs: set<string>
    var roles: set<string>
    var registry: Registry
    var tick: nat

    constructor (verdicts: Verdicts)
      ensures this.verdicts == verdicts && State() == World({}, {}, map[], 0)
    {
      this.verdicts := verdicts;
      dbs, roles, registry, tick := {}, {}, map[], 0;
    }

    function State(): World
      reads this
    {
      World(dbs, roles, registry, tick)
    }

    method Run(command: Command, db: string) returns (r: Verdict)
      modifies this`dbs, this`roles, this`tick
      ensures r == verdicts(old(tick)) && State() == Ran(old(State()), r, command, db)
    {
      r := verdicts(tick);
      tick := tick + 1;
      if TakesEffect(r) {
        match command {
          case CreateRole => roles := roles + {db};
          case CreateDb => dbs := dbs + {db};
          case DropDb => dbs := dbs - {db};
          case DropRole => roles := roles - {db};
          case _ =>
        }
      }
    }

    method Query() returns (r: Verdict)
      modifies this`tick
      ensures r == verdicts(old(tick)) && State() == old(State()).(tick := old(tick) + 1)
    {
      r := verdicts(tick);
      tick := tick + 1;
    }

    method Cleanup(db: string, created: Created) returns (problem: Option<Problem>)
      modifies this`dbs, this`roles, this`tick
      ensures (State(), problem) == CleanupTx(verdicts, old(State()), db, created)
    {
      var failed := false;
      if created.database {
        var v := Run(DropDb, db);
        if v.TimedOut? {
          return Some(Timeout);
        }
        failed := v.Failed?;
      }
      if created.role {
        var v := Run(DropRole, db);
        if v.TimedOut? {
          return Some(Timeout);
        }
        failed := failed || v.Failed?;
      }
      problem := if failed then Some(PgFailed) else None;
    }

    method Compensate(db: string, created: Created, problem: Problem) returns (r: Result<Created, Problem>)
      modifies this`dbs, this`roles, this`tick
      ensures (State(), r) == Compensated(verdicts, old(State()), db, created, problem)
    {
      if problem == Timeout {
        return Failure(Timeout);
      }
      var cleanup := Cleanup(db, created);
      r := Failure(if cleanup.None? then problem else if cleanup == Some(Timeout) then Timeout else CompensationFailed);
    }

    method CreateStages(db: string, existed: bool) returns (created: Created, stop: Option<Problem>)
      modifies this`dbs, this`roles, this`tick
      ensures Attempt(State(), created, stop)
           == Stages(verdicts, Attempt(old(State()), Created(false, false), None), db, existed)
    {
      var v;
      created := Created(false, false);
      if existed {
        v := Run(AlterRole, db);
      } else {
        v := Run(CreateRole, db);
        created := created.(role := v.Fine?);
      }
      stop := ProblemOf(v);
      if stop.None? && !existed {
        v := Run(CreateDb, db);
        created := created.(database := v.Fine?);
        stop := ProblemOf(v);
      }
      if stop.None? {
        v := Run(Configure, db);
        stop := ProblemOf(v);
      }
      if stop.None? {
        v := Run(Configure, db);
        stop := ProblemOf(v);
      }
      if stop.None? {
        v := Run(Configure, db);
        stop := ProblemOf(v);
      }
    }

    method CreateDbAndRole(db: string, allowExisting: bool) returns (r: Result<Created, Problem>)
      modifies this`dbs, this`roles, this`tick
      ensures (State(), r) == CreateTx(verdicts, old(State()), db, allowExisting)
    {
      hide Stages;
      var v := Query();
      if !v.Fine? {
        return Failure(ProblemOf(v).value);
      }
      var roleExisted := db in roles;
      v := Query();
      if !v.Fine? {
        return Failure(ProblemOf(v).value);
      }
      var existed := db in dbs;
      if roleExisted != existed || existed != allowExisting {
        return Failure(PgFailed);
      }
      var created, stop := CreateStages(db, existed);
      if stop.None? {
        return Success(created);
      }
      r := Compensate(db, created, stop.value);
    }

    method DropDbAndRole(db: string) returns (problem: Option<Problem>)
      modifies this`dbs, this`roles, this`tick
      ensures (State(), problem) == DropTx(verdicts, old(State()), db)
    {
      var v := Run(DropDb, db);
      if !v.Fine? {
        return ProblemOf(v);
      }
      v := Run(DropRole, db);
      problem := ProblemOf(v);
    }

    method ResourcesExist(db: string) returns (r: Result<bool, Problem>)
      modifies this`tick
      ensures (State(), r) == ExistTx(verdicts, old(State()), db)
    {
      var v := Query();
      if !v.Fine? {
        return Failure(ProblemOf(v).value);
      }
      if db in dbs {
        return Success(true);
      }
      v := Query();
      r := if !v.Fine? then Failure(ProblemOf(v).value) else Success(db in roles);
    }

    /** Read the registry, compute its successor, replace the file. */
    method Commit(next: Result<Registry, Problem>) returns (problem: Option<Problem>)
      modifies this`registry, this`tick
      ensures (State(), problem) == CommitTx(verdicts, old(State()), next)
    {
      var v := Query();
      if !v.Fine? {
        return Some(StoreFailed);
      }
      if next.Failure? {
        return Some(next.error);
      }
      v := Query();
      if !v.Fine? {
        return Some(StoreFailed);
      }
      registry := next.value;
      problem := None;
    }

    method ProvisionTeam(team: string, token: string, random: string) returns (r: Result<Created, Problem>)
      modifies this`dbs, this`roles, this`registry, this`tick
      ensures (State(), r) == ProvisionTx(verdicts, old(State()), team, token, random)
    {
      hide CreateTx, CommitTx, RegisterTx, Compensated, Owns;
      if !TeamId(team) || !Token(token) {
        return Failure(Invalid);
      }
      var db := TeamDatabase(team);
      var v := Query();
      if !v.Fine? {
        return Failure(StoreFailed);
      }
      var owned := Owns(registry, team, db);
      if owned.Failure? {
        return Failure(owned.error);
      }
      var created := CreateDbAndRole(db, owned.value);
      if created.Failure? {
        return created;
      }
      var problem := Commit(RegisterTx(registry, team, token, db, random));
      if problem.None? {
        return created;
      }
      r := Compensate(db, created.value, problem.value);
    }

    method ReadScope(token: string, team: string) returns (problem: Option<Problem>)
      modifies this`tick
      ensures (State(), problem) == ScopeTx(verdicts, old(State()), token, team)
    {
      var v := Query();
      if !v.Fine? {
        return Some(StoreFailed);
      }
      if !Active(registry, token, team) {
        return Some(Denied);
      }
      v := Query();
      problem := if v.Fine? then None else Some(StoreFailed);
    }

    method CreateApp(token: string, team: string, app: string) returns (r: Result<Created, Problem>)
      modifies this`dbs, this`roles, this`registry, this`tick
      ensures (State(), r) == CreateAppTx(verdicts, old(State()), token, team, app)
    {
      hide CreateTx, CommitTx, AddTx, Compensated, ExistTx;
      if !TeamId(team) || !AppId(app) {
        return Failure(Invalid);
      }
      var denied := ReadScope(token, team);
      if denied.Some? {
        return Failure(denied.value);
      }
      var db := AppDatabase(registry[token].namespace, app);
      var scoped := db in registry[token].databases;
      if !scoped {
        var exist := ResourcesExist(db);
        if exist.Failure? {
          return Failure(exist.error);
        }
        if exist.value {
          return Failure(Denied);
        }
      }
      var created := CreateDbAndRole(db, scoped);
      if created.Failure? {
        return created;
      }
      var problem := Commit(AddTx(registry, token, team, db));
      if problem.None? {
        return created;
      }
      r := Compensate(db, created.value, problem.value);
    }

    method DropOne(token: string, team: string, db: string) returns (problem: Option<Problem>)
      modifies this`dbs, this`roles, this`registry, this`tick
      ensures (State(), problem) == DropOneTx(verdicts, old(State()), token, team, db)
    {
      var dropped := DropDbAndRole(ObjectsOf(db));
      if dropped.Some? {
        return dropped;
      }
      problem := Commit(RemoveTx(registry, token, team, db));
    }

    method DropApp(token: string, team: string, app: string) returns (r: Result<Dropped, Problem>)
      modifies this`dbs, this`roles, this`registry, this`tick
      ensures (State(), r) == DropAppTx(verdicts, old(State()), token, team, app)
    {
      hide DropOneTx, ExistTx;
      if !TeamId(team) || !AppId(app) {
        return Failure(Invalid);
      }
      var denied := ReadScope(token, team);
      if denied.Some? {
        return Failure(denied.value);
      }
      var db := AppDatabase(registry[token].namespace, app);
      if db !in registry[token].databases {
        var exist := ResourcesExist(db);
        if exist.Failure? {
          return Failure(exist.error);
        }
        return if exist.value then Failure(Denied) else Success(AlreadyAbsent);
      }
      var problem := DropOne(token, team, db);
      r := if problem.Some? then Failure(problem.value) else Success(Gone);
    }

    method DropTeam(token: string, team: string, order: seq<string>) returns (problem: Option<Problem>)
      modifies this`dbs, this`roles, this`registry, this`tick
      ensures (State(), problem) == DropTeamTx(verdicts, old(State()), token, team, order)
    {
      hide DropOneTx, CommitTx;
      if !TeamId(team) {
        return Some(Invalid);
      }
      var v := Query();
      if !v.Fine? {
        return Some(StoreFailed);
      }
      if token !in registry || registry[token].team != team {
        return Some(Denied);
      }
      ghost var goal := DropAllTx(verdicts, State(), token, team, order);
      for i := 0 to |order|
        invariant goal == DropAllTx(verdicts, State(), token, team, order[i..])
      {
        assert order[i..][0] == order[i] && order[i..][1..] == order[i + 1..];
        problem := DropOne(token, team, order[i]);
        if problem.Some? {
          return;
        }
      }
      problem := Commit(RetireTx(registry, token, team));
    }

    method FinalizeTeam(team: string) returns (problem: Option<Problem>)
      modifies this`registry, this`tick
      ensures (State(), problem) == FinalizeTeamTx(verdicts, old(State()), team)
    {
      if !TeamId(team) {
        return Some(Invalid);
      }
      if verdicts(tick).Fine? && RecordsOf(registry, team) == {} {
        var v := Query();
        return None;
      }
      problem := Commit(FinalizeTx(registry, team));
    }
  }

  // ---------------------------------------------------------------- compensation

  /** What one stage does to Postgres when its command did not time out. */
  lemma StageEffect(v: Verdicts, a: Attempt, command: Command, db: string)
    requires !command.DropDb? && !command.DropRole?
    ensures var b := Stage(v, a, command, db);
            && b.world.registry == a.world.registry
            && a.world.dbs <= b.world.dbs <= a.world.dbs + {db}
            && a.world.roles <= b.world.roles <= a.world.roles + {db}
            && (a.stop.Some? ==> b == a)
            && (a.stop.None? && b.stop.None? ==>
                 && b.created == Created(a.created.database || command.CreateDb?, a.created.role || command.CreateRole?)
                 && b.world.dbs == a.world.dbs + (if command.CreateDb? then {db} else {})
                 && b.world.roles == a.world.roles + (if command.CreateRole? then {db} else {}))
            && (a.stop.None? && b.stop == Some(PgFailed) ==>
                 b.created == a.created && b.world.dbs == a.world.dbs && b.world.roles == a.world.roles)
            && (b.stop.None? || a.stop.Some? || b.stop in {Some(PgFailed), Some(Timeout)})
            && (b.created.database ==> a.created.database || command.CreateDb?)
            && (b.created.role ==> a.created.role || command.CreateRole?)
  {
  }

  /** A provisioning attempt created exactly what it remembers, unless a command timed out. */
  lemma StagesEffect(v: Verdicts, w: World, db: string, existed: bool)
    requires (db in w.dbs <==> existed) && (db in w.roles <==> existed)
    ensures var b := Stages(v, Attempt(w, Created(false, false), None), db, existed);
            && b.world.registry == w.registry
            && w.dbs <= b.world.dbs && w.roles <= b.world.roles
            && (b.created.database ==> db !in w.dbs) && (b.created.role ==> db !in w.roles)
            && (b.stop.None? ==> b.world.dbs == w.dbs + {db} && b.world.roles == w.roles + {db}
                                 && b.created == Created(!existed, !existed))
            && (b.stop == Some(PgFailed) ==>
                 && b.world.dbs == w.dbs + (if b.created.database then {db} else {})
                 && b.world.roles == w.roles + (if b.created.role then {db} else {}))
            && (b.stop.None? || b.stop in {Some(PgFailed), Some(Timeout)})
  {
    hide Stage;
    var a0 := Attempt(w, Created(false, false), None);
    var first := if existed then AlterRole else CreateRole;
    StageEffect(v, a0, first, db);
    var a1 := Stage(v, a0, first, db);
    StageEffect(v, a1, CreateDb, db);
    var a2 := if existed then a1 else Stage(v, a1, CreateDb, db);
    StageEffect(v, a2, Configure, db);
    var a3 := Stage(v, a2, Configure, db);
    StageEffect(v, a3, Configure, db);
    StageEffect(v, Stage(v, a3, Configure, db), Configure, db);
  }

  lemma CompensationEffect(v: Verdicts, w: World, db: string, created: Created, problem: Problem)
    ensures var (after, r) := Compensated(v, w, db, created, problem);
            && r.Failure? && after.registry == w.registry
            && w.dbs - (if created.database then {db} else {}) <= after.dbs
            && w.roles - (if created.role then {db} else {}) <= after.roles
            && after.dbs <= w.dbs && after.roles <= w.roles
            && (r.error !in {Timeout, CompensationFailed} ==>
                 && r.error == problem
                 && after.dbs == w.dbs - (if created.database then {db} else {})
                 && after.roles == w.roles - (if created.role then {db} else {}))
  {
  }

  /** What creating a database and its role comes to. */
  lemma CreateEffect(v: Verdicts, w: World, db: string, allowExisting: bool)
    ensures var (after, r) := CreateTx(v, w, db, allowExisting);
            && after.registry == w.registry
            && w.dbs <= after.dbs && w.roles <= after.roles
            && (r.Success? ==>
                 && (db in w.dbs <==> allowExisting) && (db in w.roles <==> allowExisting)
                 && r.value == Created(!allowExisting, !allowExisting)
                 && after.dbs == w.dbs + {db} && after.roles == w.roles + {db})
            && (r.Failure? && r.error !in {Timeout, CompensationFailed} ==> after.dbs == w.dbs && after.roles == w.roles)
  {
    hide Stages, Compensated;
    if v(w.tick).Fine? && v(w.tick + 1).Fine? && (db in w.roles <==> db in w.dbs) && (db in w.dbs <==> allowExisting) {
      var w2 := w.(tick := w.tick + 2);
      StagesEffect(v, w2, db, db in w.dbs);
      var a := Stages(v, Attempt(w2, Created(false, false), None), db, db in w.dbs);
      if a.stop.Some? {
        CompensationEffect(v, a.world, db, a.created, a.stop.value);
      }
    }
  }

  lemma CommitEffect(v: Verdicts, w: World, next: Result<Registry, Problem>)
    ensures var (after, problem) := CommitTx(v, w, next);
            && after.dbs == w.dbs && after.roles == w.roles
            && (problem.Some? ==> after.registry == w.registry)
            && (problem.None? ==> next.Success? && after.registry == next.value)
  {
  }

  /** The registry changes exactly if it could be read, the change is allowed, and it could be written. */
  lemma CommitIsExact(v: Verdicts, w: World, next: Result<Registry, Problem>)
    ensures var (after, problem) := CommitTx(v, w, next);
            var readable, writable := v(w.tick).Fine?, v(w.tick + 1).Fine?;
            && (problem.None? <==> readable && next.Success? && writable)
            && (problem.Some? ==> problem.value == if readable && next.Failure? then next.error else StoreFailed)
            && after == World(w.dbs, w.roles, if problem.None? then next.value else w.registry,
                              w.tick + if readable && next.Success? then 2 else 1)
  {
  }

  /** What both kinds of provisioning promise about the two stores, `db` being the name they provision. */
  ghost predicate Exact(w: World, after: World, r: Result<Created, Problem>, db: string) {
    && w.dbs <= after.dbs && w.roles <= after.roles
    && (r.Failure? ==> after.registry == w.registry)
    && (r.Failure? && r.error !in {Timeout, CompensationFailed} ==> after.dbs == w.dbs && after.roles == w.roles)
    && (r.Success? ==> after.dbs == w.dbs + {db} && after.roles == w.roles + {db})
  }

  /** A refused provisioning leaves both stores as they were; no outcome drops anything that existed before. */
  lemma ProvisionIsExact(v: Verdicts, w: World, team: string, token: string, random: string)
    ensures var (after, r) := ProvisionTx(v, w, team, token, random);
            && Exact(w, after, r, TeamDatabase(team))
            && (r.Success? ==>
                 && Success(after.registry) == RegisterTx(w.registry, team, token, TeamDatabase(team), random)
                 && (TeamDatabase(team) in w.dbs <==> Owns(w.registry, team, TeamDatabase(team)) == Success(true)))
  {
    hide CreateTx, CommitTx, RegisterTx, Compensated, Owns, TeamId, Token, TeamDatabase;
    var db := TeamDatabase(team);
    var owned := Owns(w.registry, team, db);
    if owned.Success? {
      var w0 := w.(tick := w.tick + 1);
      CreateEffect(v, w0, db, owned.value);
      var (w1, created) := CreateTx(v, w0, db, owned.value);
      if created.Success? {
        var next := RegisterTx(w1.registry, team, token, db, random);
        CommitEffect(v, w1, next);
        var (w2, problem) := CommitTx(v, w1, next);
        if problem.Some? {
          CompensationEffect(v, w2, db, created.value, problem.value);
        }
      }
    }
  }

  lemma ScopeEffect(v: Verdicts, w: World, token: string, team: string)
    ensures var (after, problem) := ScopeTx(v, w, token, team);
            var readable, active := v(w.tick).Fine?, Active(w.registry, token, team);
            && after == w.(tick := w.tick + if readable && active then 2 else 1)
            && (problem.None? <==> readable && active && v(w.tick + 1).Fine?)
            && (problem.Some? ==> problem.value == if readable && !active then Denied else StoreFailed)
  {
  }

  lemma ExistEffect(v: Verdicts, w: World, db: string)
    ensures var (after, r) := ExistTx(v, w, db);
            && after == w.(tick := after.tick)
            && (r.Success? ==> (r.value <==> db in w.dbs || db in w.roles))
  {
  }

  lemma CreateAppIsExact(v: Verdicts, w: World, token: string, team: string, app: string)
    ensures var (after, r) := CreateAppTx(v, w, token, team, app);
            && (!Active(w.registry, token, team) ==> r.Failure? && after == w.(tick := after.tick))
            && (Active(w.registry, token, team) ==>
                 var db := AppDatabase(w.registry[token].namespace, app);
                 && Exact(w, after, r, db)
                 && (r.Success? ==>
                      && Success(after.registry) == AddTx(w.registry, token, team, db)
                      && (db in w.dbs <==> db in w.registry[token].databases)))
  {
    hide CreateTx, CommitTx, Compensated, ExistTx, ScopeTx, TeamId, AppId, AppDatabase, AddTx;
    ScopeEffect(v, w, token, team);
    var (w1, denied) := ScopeTx(v, w, token, team);
    if TeamId(team) && AppId(app) && denied.None? {
      var db := AppDatabase(w.registry[token].namespace, app);
      var scoped := db in w.registry[token].databases;
      ExistEffect(v, w1, db);
      var (w2, exist) := if scoped then (w1, Success(false)) else ExistTx(v, w1, db);
      if exist == Success(false) {
        CreateEffect(v, w2, db, scoped);
        var (w3, created) := CreateTx(v, w2, db, scoped);
        if created.Success? {
          var next := AddTx(w3.registry, token, team, db);
          CommitEffect(v, w3, next);
          var (w4, problem) := CommitTx(v, w3, next);
          if problem.Some? {
            CompensationEffect(v, w4, db, created.value, problem.value);
          }
        }
      }
    }
  }

  // ---------------------------------------------------------------- exactly when a refusal leaves no trace

  /** How many of the `n` commands from `tick` on succeed before the first that does not. */
  ghost function GoodCommands(v: Verdicts, tick: nat, n: nat): (k: nat)
    ensures k <= n
    ensures forall j :: tick <= j < tick + k ==> v(j).Fine?
    ensures k < n ==> !v(tick + k).Fine?
    decreases n
  {
    if n == 0 || !v(tick).Fine? then 0 else 1 + GoodCommands(v, tick + 1, n - 1)
  }

  /** Every drop that is owed takes effect; the first of two must also not time out, or the second never runs. */
  ghost predicate Undone(v: Verdicts, tick: nat, created: Created) {
    if created.database && created.role then v(tick).Fine? && TakesEffect(v(tick + 1))
    else (created.database || created.role) ==> TakesEffect(v(tick))
  }

  /** The cleanup removes what was created exactly when every owed drop takes effect in time. */
  lemma CleanupUndoes(v: Verdicts, w: World, db: string, created: Created)
    requires (created.database ==> db in w.dbs) && (created.role ==> db in w.roles)
    ensures var after := CleanupTx(v, w, db, created).0;
            && after.registry == w.registry
            && ((after.dbs == w.dbs - (if created.database then {db} else {})
                 && after.roles == w.roles - (if created.role then {db} else {}))
                <==> Undone(v, w.tick, created))
  {
  }

  /**
   A new database, attempted from the two queries at `tick` on: CREATE ROLE, createdb and three more commands.
   Nothing stays behind if a query fails; if CREATE ROLE is the first command that fails, and has no effect; or if
   the first failure is one that is compensated, and the compensation takes effect.
   */
  ghost predicate CreationRestored(v: Verdicts, tick: nat) {
    v(tick).Fine? && v(tick + 1).Fine? ==>
      var k := GoodCommands(v, tick + 2, 5);
      && k < 5
      && (if k == 0 then !TakesEffect(v(tick + 2))
          else v(tick + 2 + k).Failed? && Undone(v, tick + 3 + k, Created(k >= 2, true)))
  }

  /** The name is new and past the checks of `create_db_and_role`. */
  predicate NewName(w: World, db: string) {
    db !in w.dbs && db !in w.roles
  }

  lemma OneMoreCommand(v: Verdicts, tick: nat, n: nat)
    ensures GoodCommands(v, tick, 0) == 0
    ensures n > 0 ==> GoodCommands(v, tick, n) == if v(tick).Fine? then 1 + GoodCommands(v, tick + 1, n - 1) else 0
  {
  }

  lemma Configured(v: Verdicts, a: Attempt, db: string)
    ensures Stage(v, a, Configure, db)
         == if a.stop.Some? then a
            else Attempt(a.world.(tick := a.world.tick + 1), a.created, ProblemOf(v(a.world.tick)))
  {
  }

  ghost function Configurations(v: Verdicts, a: Attempt, db: string, n: nat): Attempt
    decreases n
  {
    if n == 0 then a else Configurations(v, Stage(v, a, Configure, db), db, n - 1)
  }

  lemma {:induction false} StoppedConfiguresNothing(v: Verdicts, a: Attempt, db: string, n: nat)
    requires a.stop.Some?
    ensures Configurations(v, a, db, n) == a
  {
    if n > 0 {
      StoppedConfiguresNothing(v, a, db, n - 1);
    }
  }

  lemma {:induction false} ConfiguringFollowsVerdicts(v: Verdicts, a: Attempt, db: string, n: nat)
    requires a.stop.None?
    ensures var t, k := a.world.tick, GoodCommands(v, a.world.tick, n);
            Configurations(v, a, db, n)
            == Attempt(a.world.(tick := t + if k == n then n else k + 1), a.created,
                       if k == n then None else ProblemOf(v(t + k)))
    decreases n
  {
    hide Stage, GoodCommands;
    OneMoreCommand(v, a.world.tick, n);
    if n > 0 {
      Configured(v, a, db);
      var next := Stage(v, a, Configure, db);
      if v(a.world.tick).Fine? {
        ConfiguringFollowsVerdicts(v, next, db, n - 1);
      } else {
        StoppedConfiguresNothing(v, next, db, n - 1);
      }
    }
  }

  /** What the five commands for a new database leave, by the first `k` of them that succeed. */
  ghost predicate StagesLeave(v: Verdicts, w: World, db: string, a: Attempt, k: nat) {
    && a.world.registry == w.registry
    && (a.stop.None? <==> k == 5)
    && (k == 5 ==> a.world.tick == w.tick + 5)
    && (k < 5 ==>
         && a.world.tick == w.tick + k + 1
         && a.created == Created(k >= 2, k >= 1)
         && a.stop == ProblemOf(v(w.tick + k))
         && a.world.dbs == w.dbs + (if k >= 2 || (k == 1 && TakesEffect(v(w.tick + 1))) then {db} else {})
         && a.world.roles == w.roles + (if k >= 1 || TakesEffect(v(w.tick)) then {db} else {}))
  }

  lemma EarlyStop(v: Verdicts, w: World, db: string)
    requires NewName(w, db) && !(v(w.tick).Fine? && v(w.tick + 1).Fine?)
    ensures StagesLeave(v, w, db, Stages(v, Attempt(w, Created(false, false), None), db, false),
                        if v(w.tick).Fine? then 1 else 0)
  {
  }

  lemma LateStop(v: Verdicts, w: World, db: string)
    requires NewName(w, db) && v(w.tick).Fine? && v(w.tick + 1).Fine?
    ensures StagesLeave(v, w, db, Stages(v, Attempt(w, Created(false, false), None), db, false),
                        2 + GoodCommands(v, w.tick + 2, 3))
  {
    hide GoodCommands;
    var a0 := Attempt(w, Created(false, false), None);
    var a2 := Stage(v, Stage(v, a0, CreateRole, db), CreateDb, db);
    assert a2 == Attempt(World(w.dbs + {db}, w.roles + {db}, w.registry, w.tick + 2), Created(true, true), None);
    hide Stage;
    ConfiguringFollowsVerdicts(v, a2, db, 3);
    assert Configurations(v, a2, db, 3)
        == Stage(v, Stage(v, Stage(v, a2, Configure, db), Configure, db), Configure, db);
  }

  lemma StagesFollowVerdicts(v: Verdicts, w: World, db: string)
    requires NewName(w, db)
    ensures StagesLeave(v, w, db, Stages(v, Attempt(w, Created(false, false), None), db, false),
                        GoodCommands(v, w.tick, 5))
  {
    hide GoodCommands, StagesLeave, Stages;
    OneMoreCommand(v, w.tick, 5);
    OneMoreCommand(v, w.tick + 1, 4);
    if v(w.tick).Fine? && v(w.tick + 1).Fine? {
      LateStop(v, w, db);
    } else {
      EarlyStop(v, w, db);
    }
  }

  ghost predicate StoresUnchanged(w: World, after: World) {
    after.dbs == w.dbs && after.roles == w.roles && after.registry == w.registry
  }

  lemma CompensationRestores(v: Verdicts, w: World, db: string, a: Attempt, k: nat)
    requires NewName(w, db) && k < 5 && StagesLeave(v, w, db, a, k) && !v(w.tick + k).Fine?
    ensures StoresUnchanged(w, Compensated(v, a.world, db, a.created, a.stop.value).0)
       <==> (if k == 0 then !TakesEffect(v(w.tick))
             else v(w.tick + k).Failed? && Undone(v, w.tick + k + 1, Created(k >= 2, true)))
  {
    var after := Compensated(v, a.world, db, a.created, a.stop.value).0;
    if v(w.tick + k).Failed? {
      CleanupUndoes(v, a.world, db, a.created);
      hide CleanupTx, Undone;
      assert w.dbs + {db} - {db} == w.dbs && w.roles + {db} - {db} == w.roles;
      assert w.dbs + {} - {} == w.dbs && w.roles + {} - {} == w.roles;
      if k == 0 {
        NothingOwed(v, a.world.tick);
      }
    } else {
      assert after == a.world;
      assert db in a.world.roles <==> k >= 1 || TakesEffect(v(w.tick));
    }
  }

  lemma NothingOwed(v: Verdicts, tick: nat)
    ensures Undone(v, tick, Created(false, false))
  {
  }

  /** A refused creation leaves the stores unchanged exactly when the verdicts say so, and always for an old name. */
  lemma CreateRestoresExactly(v: Verdicts, w: World, db: string, allowExisting: bool)
    requires CreateTx(v, w, db, allowExisting).1.Failure?
    ensures StoresUnchanged(w, CreateTx(v, w, db, allowExisting).0)
       <==> (NewName(w, db) && !allowExisting ==> CreationRestored(v, w.tick))
  {
    hide Stages, Compensated, GoodCommands, Undone;
    if !v(w.tick).Fine? || !v(w.tick + 1).Fine? || (db in w.roles) != (db in w.dbs) || (db in w.dbs) != allowExisting {
      return;
    }
    var w2 := w.(tick := w.tick + 2);
    var a := Stages(v, Attempt(w2, Created(false, false), None), db, db in w.dbs);
    if db in w.dbs {
      OldNameKeeps(v, w2, db);
      CompensationEffect(v, a.world, db, a.created, a.stop.value);
    } else {
      StagesFollowVerdicts(v, w2, db);
      CompensationRestores(v, w2, db, a, GoodCommands(v, w2.tick, 5));
    }
  }

  /** For a database that exists no command changes anything, and nothing is owed. */
  lemma OldNameKeeps(v: Verdicts, w: World, db: string)
    requires db in w.dbs && db in w.roles
    ensures var a := Stages(v, Attempt(w, Created(false, false), None), db, true);
            a.created == Created(false, false) && StoresUnchanged(w, a.world)
  {
  }

  // ---------------------------------------------------------------- through the registry commit

  /**
   The same when the registry commit that follows is what refuses: it meets two verdicts from `tick` on, and then
   everything created is owed.
   */
  ghost predicate CommitRestored(v: Verdicts, tick: nat) {
    Undone(v, tick + (if v(tick).Fine? then 2 else 1), Created(true, true))
  }

  /** A new database and its registration, from the two queries at `tick` on. */
  ghost predicate Restored(v: Verdicts, tick: nat) {
    if v(tick).Fine? && v(tick + 1).Fine? && GoodCommands(v, tick + 2, 5) == 5 then CommitRestored(v, tick + 7)
    else CreationRestored(v, tick)
  }

  /** Creation, registration and compensation, as both kinds of provisioning chain them. */
  function CreateAndCommit(v: Verdicts, w: World, db: string, allowExisting: bool, next: Result<Registry, Problem>)
    : (World, Result<Created, Problem>)
  {
    match CreateTx(v, w, db, allowExisting)
    case (w1, Failure(e)) => (w1, Failure(e))
    case (w1, Success(created)) =>
      match CommitTx(v, w1, next)
      case (w2, None) => (w2, Success(created))
      case (w2, Some(e)) => Compensated(v, w2, db, created, e)
  }

  lemma CreateSucceeds(v: Verdicts, w: World, db: string, allowExisting: bool)
    requires CreateTx(v, w, db, allowExisting).1.Success? && NewName(w, db)
    ensures !allowExisting && CreateTx(v, w, db, allowExisting).0.tick == w.tick + 7
    ensures v(w.tick).Fine? && v(w.tick + 1).Fine? && GoodCommands(v, w.tick + 2, 5) == 5
  {
    hide Stages, GoodCommands;
    StagesFollowVerdicts(v, w.(tick := w.tick + 2), db);
    CompensatedNeverSucceeds(v, db);
  }

  lemma CompensatedNeverSucceeds(v: Verdicts, db: string)
    ensures forall w: World, created: Created, problem: Problem ::
              Compensated(v, w, db, created, problem).1.Failure?
  {
    hide CleanupTx;
  }

  lemma CreateFailsEarly(v: Verdicts, w: World, db: string)
    requires CreateTx(v, w, db, false).1.Failure? && NewName(w, db)
    ensures !(v(w.tick).Fine? && v(w.tick + 1).Fine? && GoodCommands(v, w.tick + 2, 5) == 5)
  {
    hide Stages, GoodCommands, Compensated;
    StagesFollowVerdicts(v, w.(tick := w.tick + 2), db);
  }

  lemma RefusedCommitRestores(v: Verdicts, w: World, db: string, allowExisting: bool, next: Result<Registry, Problem>)
    requires CreateTx(v, w, db, allowExisting).1.Success? && next.Success?
    requires CommitTx(v, CreateTx(v, w, db, allowExisting).0, next).1.Some?
    ensures var w1 := CreateTx(v, w, db, allowExisting).0;
            StoresUnchanged(w, CreateAndCommit(v, w, db, allowExisting, next).0)
            <==> (NewName(w, db) ==> CommitRestored(v, w1.tick))
  {
    hide CreateTx, CleanupTx, Undone;
    CreateEffect(v, w, db, allowExisting);
    var (w1, created) := CreateTx(v, w, db, allowExisting);
    var w2 := CommitTx(v, w1, next).0;
    CleanupUndoes(v, w2, db, created.value);
    CompensationEffect(v, w2, db, created.value, StoreFailed);
    assert NewName(w, db) ==> w.dbs + {db} - {db} == w.dbs && w.roles + {db} - {db} == w.roles;
  }

  /** Refused anywhere between the first query and the registry commit: exactly when no trace is left. */
  lemma RefusalRestoresExactly(v: Verdicts, w: World, db: string, allowExisting: bool, next: Result<Registry, Problem>)
    requires next.Success? && CreateAndCommit(v, w, db, allowExisting, next).1.Failure?
    ensures StoresUnchanged(w, CreateAndCommit(v, w, db, allowExisting, next).0)
       <==> (NewName(w, db) && !allowExisting ==> Restored(v, w.tick))
  {
    hide CreateTx, Compensated, CommitRestored, CreationRestored, GoodCommands;
    var (w1, created) := CreateTx(v, w, db, allowExisting);
    if created.Failure? {
      CreateRestoresExactly(v, w, db, allowExisting);
      if NewName(w, db) && !allowExisting {
        CreateFailsEarly(v, w, db);
      }
    } else {
      RefusedCommitRestores(v, w, db, allowExisting, next);
      if NewName(w, db) {
        CreateSucceeds(v, w, db, allowExisting);
      }
    }
  }

  /** The request creates the Team's database: nothing refused it before the first query. */
  ghost predicate CreatesTeamDatabase(v: Verdicts, w: World, team: string, token: string) {
    && TeamId(team) && Token(token) && v(w.tick).Fine?
    && Owns(w.registry, team, TeamDatabase(team)) == Success(false)
    && NewName(w, TeamDatabase(team))
  }

  /**
   A refused provisioning leaves both stores as they were exactly when it was refused before it created anything
   new, or the verdicts it met restore them.
   */
  lemma RefusedProvisionRestoresExactly(v: Verdicts, w: World, team: string, token: string, random: string)
    requires ProvisionTx(v, w, team, token, random).1.Failure?
    ensures StoresUnchanged(w, ProvisionTx(v, w, team, token, random).0)
       <==> (CreatesTeamDatabase(v, w, team, token) ==> Restored(v, w.tick + 1))
  {
    hide TeamId, Token, TeamDatabase, CreateTx, CommitTx, Compensated, Restored, RegisterTx;
    var db := TeamDatabase(team);
    var owned := Owns(w.registry, team, db);
    if TeamId(team) && Token(token) && v(w.tick).Fine? && owned.Success? {
      var w0 := w.(tick := w.tick + 1);
      var next := RegisterTx(w.registry, team, token, db, random);
      RegisterSucceeds(w.registry, team, token, db, random);
      CreateEffect(v, w0, db, owned.value);
      assert ProvisionTx(v, w, team, token, random) == CreateAndCommit(v, w0, db, owned.value, next);
      RefusalRestoresExactly(v, w0, db, owned.value, next);
    }
  }

  lemma RegisterSucceeds(registry: Registry, team: string, token: string, db: string, random: string)
    requires Owns(registry, team, db).Success?
    ensures RegisterTx(registry, team, token, db, random).Success?
  {
  }

  /** The request creates a new App database, after its two registry reads and its two existence queries. */
  ghost predicate CreatesAppDatabase(v: Verdicts, w: World, token: string, team: string, app: string) {
    && TeamId(team) && AppId(app) && Active(w.registry, token, team)
    && v(w.tick).Fine? && v(w.tick + 1).Fine? && v(w.tick + 2).Fine? && v(w.tick + 3).Fine?
    && var db := AppDatabase(w.registry[token].namespace, app);
       db !in w.registry[token].databases && NewName(w, db)
  }

  lemma RefusedCreateAppRestoresExactly(v: Verdicts, w: World, token: string, team: string, app: string)
    requires CreateAppTx(v, w, token, team, app).1.Failure?
    ensures StoresUnchanged(w, CreateAppTx(v, w, token, team, app).0)
       <==> (CreatesAppDatabase(v, w, token, team, app) ==> Restored(v, w.tick + 4))
  {
    hide TeamId, AppId, AppDatabase, CreateTx, CommitTx, Compensated, Restored;
    if TeamId(team) && AppId(app) && Active(w.registry, token, team) && v(w.tick).Fine? && v(w.tick + 1).Fine? {
      var db := AppDatabase(w.registry[token].namespace, app);
      var scoped := db in w.registry[token].databases;
      var w1 := w.(tick := w.tick + 2);
      var (w2, exist) := if scoped then (w1, Success(false)) else ExistTx(v, w1, db);
      if exist == Success(false) {
        var next := AddTx(w.registry, token, team, db);
        CreateEffect(v, w2, db, scoped);
        assert CreateAppTx(v, w, token, team, app) == CreateAndCommit(v, w2, db, scoped, next);
        RefusalRestoresExactly(v, w2, db, scoped, next);
      }
    }
  }

  /** A timeout escapes the compensation: a role is left behind, and it makes every retry fail. */
  lemma TimeoutLeavesRoleBehind(team: string, token: string, random: string)
    requires TeamId(team) && Token(token)
    ensures var v: Verdicts := n => if n == 4 then TimedOut(false) else Fine;
            var fine: Verdicts := n => Fine;
            var db := TeamDatabase(team);
            var (after, r) := ProvisionTx(v, World({}, {}, map[], 0), team, token, random);
            && r == Failure(Timeout) && after.dbs == {} && after.roles == {db} && after.registry == map[]
            && forall tick :: ProvisionTx(fine, after.(tick := tick), team, token, random).1 == Failure(PgFailed)
  {
  }

  /**
   What a compensation reports: the problem it compensates for if every owed drop succeeds, a timeout if one timed out,
   and otherwise that the compensation failed. A problem that is itself a timeout is not compensated at all.
   */
  lemma CompensationReports(v: Verdicts, w: World, db: string, created: Created, problem: Problem)
    ensures var (after, r) := Compensated(v, w, db, created, problem);
            var first := if created.database then v(w.tick) else Fine;
            var second := if !created.role then Fine else if created.database then v(w.tick + 1) else v(w.tick);
            if problem == Timeout then (after, r) == (w, Failure(Timeout))
            else
              && r.Failure?
              && (first.Fine? && second.Fine? ==> r.error == problem)
              && (first.TimedOut? || second.TimedOut? ==> r.error == Timeout)
              && (!first.TimedOut? && !second.TimedOut? && (first.Failed? || second.Failed?) ==> r.error == CompensationFailed)
              && after.tick == w.tick + (if created.database then 1 else 0)
                               + (if created.role && !first.TimedOut? then 1 else 0)
  {
  }

  // ---------------------------------------------------------------- when nothing fails

  ghost predicate AllFine(v: Verdicts) {
    forall n :: v(n).Fine?
  }

  /** A name can be provisioned if it is new, or, when it is already owned, if both its objects exist. */
  predicate Provisionable(w: World, db: string, owned: bool) {
    if owned then db in w.dbs && db in w.roles else NewName(w, db)
  }

  lemma FaultFreeStages(v: Verdicts, w: World, db: string, existed: bool)
    requires AllFine(v)
    ensures Stages(v, Attempt(w, Created(false, false), None), db, existed).stop.None?
  {
    var a0 := Attempt(w, Created(false, false), None);
    var a1 := Stage(v, a0, if existed then AlterRole else CreateRole, db);
    assert v(w.tick).Fine? && v(a1.world.tick).Fine?;
    var a2 := if existed then a1 else Stage(v, a1, CreateDb, db);
    assert a2.stop.None?;
    Configured(v, a2, db);
    var a3 := Stage(v, a2, Configure, db);
    Configured(v, a3, db);
    var a4 := Stage(v, a3, Configure, db);
    Configured(v, a4, db);
  }

  lemma FaultFreeCreate(v: Verdicts, w: World, db: string, owned: bool)
    requires AllFine(v)
    ensures CreateTx(v, w, db, owned).1.Success? <==> Provisionable(w, db, owned)
  {
    hide Stages, Compensated;
    assert v(w.tick).Fine? && v(w.tick + 1).Fine?;
    FaultFreeStages(v, w.(tick := w.tick + 2), db, db in w.dbs);
    if !Provisionable(w, db, owned) {
      assert (db in w.roles) != (db in w.dbs) || (db in w.dbs) != owned;
    }
  }

  lemma FaultFreeCommit(v: Verdicts, w: World, next: Result<Registry, Problem>)
    requires AllFine(v)
    ensures CommitTx(v, w, next).1 == (if next.Success? then None else Some(next.error))
  {
    assert v(w.tick).Fine? && v(w.tick + 1).Fine?;
  }

  /** Without faults a Team is provisioned exactly if its name is free, or is its own already and complete. */
  lemma FaultFreeProvisioning(v: Verdicts, w: World, team: string, token: string, random: string)
    requires AllFine(v)
    ensures var db := TeamDatabase(team);
            var owned := exists t :: t in w.registry && w.registry[t].team == team && db in w.registry[t].databases;
            ProvisionTx(v, w, team, token, random).1.Success?
            <==> TeamId(team) && Token(token) && |RecordsOf(w.registry, team)| <= 1 && Provisionable(w, db, owned)
  {
    hide CreateTx, CommitTx, RegisterTx, Compensated, TeamId, Token, TeamDatabase, Provisionable;
    var db := TeamDatabase(team);
    var owned := Owns(w.registry, team, db);
    assert v(w.tick).Fine?;
    if owned.Success? {
      var w0 := w.(tick := w.tick + 1);
      FaultFreeCreate(v, w0, db, owned.value);
      CreateEffect(v, w0, db, owned.value);
      SameObjects(w, w0, db, owned.value);
      var w1 := CreateTx(v, w0, db, owned.value).0;
      RegisterSucceeds(w.registry, team, token, db, random);
      FaultFreeCommit(v, w1, RegisterTx(w.registry, team, token, db, random));
    }
  }

  lemma SameObjects(w: World, after: World, db: string, owned: bool)
    requires after.dbs == w.dbs && after.roles == w.roles
    ensures Provisionable(after, db, owned) == Provisionable(w, db, owned)
  {
  }

  /** The same for an App of an active principal; a name that exists without being registered is refused. */
  lemma FaultFreeAppCreation(v: Verdicts, w: World, token: string, team: string, app: string)
    requires AllFine(v)
    ensures CreateAppTx(v, w, token, team, app).1.Success?
       <==> && TeamId(team) && AppId(app) && Active(w.registry, token, team)
            && var db := AppDatabase(w.registry[token].namespace, app);
               Provisionable(w, db, db in w.registry[token].databases)
  {
    hide CreateTx, CommitTx, Compensated, TeamId, AppId, AppDatabase;
    assert v(w.tick).Fine? && v(w.tick + 1).Fine? && v(w.tick + 2).Fine? && v(w.tick + 3).Fine?;
    if TeamId(team) && AppId(app) && Active(w.registry, token, team) {
      var db := AppDatabase(w.registry[token].namespace, app);
      var scoped := db in w.registry[token].databases;
      var w1 := w.(tick := w.tick + 2);
      var w2 := if scoped then w1 else ExistTx(v, w1, db).0;
      FaultFreeCreate(v, w2, db, scoped);
      CreateEffect(v, w2, db, scoped);
      FaultFreeCommit(v, CreateTx(v, w2, db, scoped).0, AddTx(w.registry, token, team, db));
    }
  }

  /** What a request to drop an App reports, and what it did if it reports success, whatever failed on the way. */
  lemma AppDropIsExact(v: Verdicts, w: World, token: string, team: string, app: string)
    ensures var (after, r) := DropAppTx(v, w, token, team, app);
            var allowed := TeamId(team) && AppId(app) && Active(w.registry, token, team);
            if !allowed then r.Failure? && StoresUnchanged(w, after)
            else
              var db := AppDatabase(w.registry[token].namespace, app);
              var registered := db in w.registry[token].databases;
              && (r == Success(AlreadyAbsent) ==> !registered && NewName(w, db) && StoresUnchanged(w, after))
              && (r == Success(Gone) ==>
                   && registered && after.dbs == w.dbs - {ObjectsOf(db)} && after.roles == w.roles - {ObjectsOf(db)}
                   && after.registry == w.registry[
                        token := w.registry[token].(databases := w.registry[token].databases - {db})])
              && (!registered ==> StoresUnchanged(w, after))
              && (r.Failure? ==> after.registry == w.registry)
              && (AllFine(v) ==>
                   r == if registered then Success(Gone)
                        else if NewName(w, db) then Success(AlreadyAbsent) else Failure(Denied))
  {
    hide TeamId, AppId, AppDatabase, ObjectsOf;
    if AllFine(v) {
      assert v(w.tick).Fine? && v(w.tick + 1).Fine? && v(w.tick + 2).Fine? && v(w.tick + 3).Fine?;
      assert v(w.tick + 4).Fine? && v(w.tick + 5).Fine?;
    }
  }

  /** A Team is dropped only for its own token, once the registry could be read; otherwise nothing is touched. */
  lemma TeamDropIsGuarded(v: Verdicts, w: World, token: string, team: string, order: seq<string>)
    ensures var (after, problem) := DropTeamTx(v, w, token, team, order);
            var own := token in w.registry && w.registry[token].team == team;
            var w1 := w.(tick := w.tick + 1);
            && (!TeamId(team) ==> (after, problem) == (w, Some(Invalid)))
            && (TeamId(team) && !v(w.tick).Fine? ==> (after, problem) == (w1, Some(StoreFailed)))
            && (TeamId(team) && v(w.tick).Fine? && !own ==> (after, problem) == (w1, Some(Denied)))
            && (TeamId(team) && v(w.tick).Fine? && own ==> (after, problem) == DropAllTx(v, w1, token, team, order))
  {
    hide TeamId, DropAllTx;
  }

  /** A finalization succeeds exactly if nothing of the Team is registered, or only what was retired and is removed. */
  lemma FinalizationIsExact(v: Verdicts, w: World, team: string)
    ensures var (after, problem) := FinalizeTeamTx(v, w, team);
            var readable := v(w.tick).Fine?;
            var absent := forall t :: t in w.registry ==> w.registry[t].team != team;
            var retired := forall t :: t in w.registry && w.registry[t].team == team ==>
              w.registry[t].retired && w.registry[t].databases == {};
            && (problem.None? <==> TeamId(team) && readable && (absent || (retired && v(w.tick + 1).Fine?)))
            && (problem == Some(Invalid) <==> !TeamId(team))
            && (problem == Some(Denied) <==> TeamId(team) && readable && !retired)
            && after.dbs == w.dbs && after.roles == w.roles
            && (problem.Some? || absent ==> after.registry == w.registry)
            && (problem.None? ==> after.registry.Keys == set t | t in w.registry && w.registry[t].team != team)
            && (forall t :: t in after.registry ==> t in w.registry && after.registry[t] == w.registry[t])
  {
    hide TeamId;
    CommitIsExact(v, w, FinalizeTx(w.registry, team));
    var records := RecordsOf(w.registry, team);
    assert records == {} <==> forall t :: t in w.registry ==> w.registry[t].team != team by {
      assert forall t :: t in w.registry && w.registry[t].team == team ==> t in records;
    }
  }

  // ---------------------------------------------------------------- tenancy

  /**
   Registered databases exist with their roles, belong to one Team each and carry the driver's prefix; a Team has
   one record; namespaces differ; a retired principal has no database left.
   */
  ghost predicate Tenancy(w: World) {
    && (forall t :: t in w.registry ==> w.registry[t].databases <= w.dbs && w.registry[t].databases <= w.roles)
    && (forall t, db :: t in w.registry && db in w.registry[t].databases ==> Prefixed(db))
    && (forall t :: t in w.registry && w.registry[t].retired ==> w.registry[t].databases == {})
    && forall t, u :: t in w.registry && u in w.registry && t != u ==>
         && w.registry[t].databases !! w.registry[u].databases
         && w.registry[t].team != w.registry[u].team
         && w.registry[t].namespace != w.registry[u].namespace
  }

  lemma OneRecord(w: World, team: string)
    requires Tenancy(w)
    ensures |RecordsOf(w.registry, team)| <= 1
  {
    var records := RecordsOf(w.registry, team);
    if records != {} {
      var t :| t in records;
      assert records == {t};
    }
  }

  /** A token belongs to at most one Team, and a new namespace is unused. */
  ghost predicate Distinct(w: World, team: string, token: string, random: string) {
    && (token in w.registry ==> w.registry[token].team == team)
    && forall t :: t in w.registry ==> w.registry[t].namespace != random
  }

  lemma NamesArePrefixed(name: string)
    ensures Prefixed(PREFIX + name)
  {
  }

  /** Every Team other than `team` keeps its record, and all its databases still exist. */
  ghost predicate OthersUntouched(w: World, after: World, team: string) {
    forall t :: t in w.registry && w.registry[t].team != team ==>
      t in after.registry && after.registry[t] == w.registry[t] && w.registry[t].databases <= after.dbs
  }

  /** The namespace of a Team that stays registered never changes, even when its token does. */
  ghost predicate NamespacesStay(w: World, after: World) {
    forall t, u :: t in w.registry && u in after.registry && w.registry[t].team == after.registry[u].team ==>
      w.registry[t].namespace == after.registry[u].namespace
  }

  ghost predicate Kept(w: World, after: World, team: string) {
    Tenancy(after) && OthersUntouched(w, after, team) && NamespacesStay(w, after)
  }

  /** The registry is unchanged and nothing that existed is gone. */
  lemma GrowthKeeps(w: World, after: World, team: string)
    requires Tenancy(w) && after.registry == w.registry && w.dbs <= after.dbs && w.roles <= after.roles
    ensures Kept(w, after, team)
  {
  }

  lemma ProvisionKeepsTenancy(v: Verdicts, w: World, team: string, token: string, random: string)
    requires Tenancy(w) && Distinct(w, team, token, random)
    ensures Kept(w, ProvisionTx(v, w, team, token, random).0, team)
  {
    ProvisionIsExact(v, w, team, token, random);
    var (after, r) := ProvisionTx(v, w, team, token, random);
    if r.Failure? {
      GrowthKeeps(w, after, team);
    } else {
      OneRecord(w, team);
      NamesArePrefixed("team_" + team);
      assert TeamDatabase(team) == PREFIX + ("team_" + team);
      RegisteredKeeps(w, after, team, token, TeamDatabase(team), random);
    }
  }

  /** The registered Team takes over its own namespace and a database that no other Team has. */
  lemma RegisteredIsOwn(w: World, team: string, db: string, random: string)
    requires Tenancy(w) && |RecordsOf(w.registry, team)| <= 1
    requires forall t :: t in w.registry ==> w.registry[t].namespace != random
    requires db in w.dbs <==> Owns(w.registry, team, db) == Success(true)
    ensures var own := NamespaceFor(w.registry, team, random);
            && (forall t :: t in w.registry && w.registry[t].team == team ==> w.registry[t].namespace == own)
            && forall t :: t in w.registry && w.registry[t].team != team ==>
                 db !in w.registry[t].databases && w.registry[t].namespace != own
  {
    hide Prefixed;
    var own := NamespaceFor(w.registry, team, random);
    forall t | t in w.registry && w.registry[t].team == team
      ensures w.registry[t].namespace == own
    {
      assert t in RecordsOf(w.registry, team);
      forall u | u in RecordsOf(w.registry, team)
        ensures u == t
      {
        OnlyRecord(w.registry, team, t, u);
      }
    }
  }

  /** The Team's records are replaced by one under `token`; the records of other Teams are kept. */
  ghost predicate Replaced(w: World, after: World, token: string, record: Principal) {
    && token in after.registry && after.registry[token] == record
    && (forall t :: t in after.registry && t != token ==>
         t in w.registry && after.registry[t] == w.registry[t] && w.registry[t].team != record.team)
    && forall t :: t in w.registry && w.registry[t].team != record.team ==>
         t in after.registry && after.registry[t] == w.registry[t] && t != token
  }

  lemma ReplacedKeeps(w: World, after: World, token: string, db: string, record: Principal)
    requires Tenancy(w) && Replaced(w, after, token, record) && record.databases == {db} && Prefixed(db) && !record.retired
    requires after.dbs == w.dbs + {db} && after.roles == w.roles + {db}
    requires forall t :: t in w.registry && w.registry[t].team != record.team ==>
               db !in w.registry[t].databases && w.registry[t].namespace != record.namespace
    ensures Tenancy(after) && OthersUntouched(w, after, record.team)
  {
    hide Prefixed;
  }

  lemma ReplacedKeepsNamespaces(w: World, after: World, token: string, record: Principal)
    requires Tenancy(w) && Replaced(w, after, token, record)
    requires forall t :: t in w.registry && w.registry[t].team == record.team ==> w.registry[t].namespace == record.namespace
    ensures NamespacesStay(w, after)
  {
  }

  lemma RegisteredReplaces(w: World, after: World, team: string, token: string, db: string, random: string)
    requires Distinct(w, team, token, random) && |RecordsOf(w.registry, team)| <= 1
    requires Success(after.registry) == RegisterTx(w.registry, team, token, db, random)
    ensures token in after.registry && Replaced(w, after, token, after.registry[token])
    ensures after.registry[token] == Principal(team, {db}, NamespaceFor(w.registry, team, random), false)
  {
    hide NamespaceFor, RecordsOf;
  }

  lemma RegisteredKeeps(w: World, after: World, team: string, token: string, db: string, random: string)
    requires Tenancy(w) && Distinct(w, team, token, random) && Prefixed(db)
    requires |RecordsOf(w.registry, team)| <= 1
    requires Success(after.registry) == RegisterTx(w.registry, team, token, db, random)
    requires after.dbs == w.dbs + {db} && after.roles == w.roles + {db}
    requires db in w.dbs <==> Owns(w.registry, team, db) == Success(true)
    ensures Kept(w, after, team)
  {
    hide Prefixed, Owns, NamespaceFor, RecordsOf, Tenancy, OthersUntouched, NamespacesStay, Replaced, RegisterTx;
    RegisteredIsOwn(w, team, db, random);
    RegisteredReplaces(w, after, team, token, db, random);
    ReplacedKeeps(w, after, token, db, after.registry[token]);
    ReplacedKeepsNamespaces(w, after, token, after.registry[token]);
  }

  /** Only the record of one principal changes, and its databases stay its own. */
  ghost predicate OwnRecord(w: World, after: World, token: string, record: Principal) {
    && token in w.registry
    && record.team == w.registry[token].team && record.namespace == w.registry[token].namespace
    && after.registry == w.registry[token := record] && (record.retired ==> record.databases == {})
    && record.databases <= after.dbs && record.databases <= after.roles
    && (forall db :: db in record.databases ==> Prefixed(db))
    && forall t :: t in w.registry && t != token ==>
         && w.registry[t].databases <= after.dbs && w.registry[t].databases <= after.roles
         && w.registry[t].databases !! record.databases
  }

  lemma OwnRecordKeepsTenancy(w: World, after: World, token: string, record: Principal)
    requires Tenancy(w) && OwnRecord(w, after, token, record)
    ensures Tenancy(after)
  {
    hide Prefixed;
  }

  lemma OwnRecordKeepsOthers(w: World, after: World, token: string, record: Principal)
    requires Tenancy(w) && OwnRecord(w, after, token, record)
    ensures OthersUntouched(w, after, record.team) && NamespacesStay(w, after)
  {
    hide Prefixed;
  }

  lemma OwnRecordKeeps(w: World, after: World, token: string, record: Principal)
    requires Tenancy(w) && OwnRecord(w, after, token, record)
    ensures Kept(w, after, record.team)
  {
    hide Tenancy, OwnRecord, OthersUntouched, NamespacesStay;
    OwnRecordKeepsTenancy(w, after, token, record);
    OwnRecordKeepsOthers(w, after, token, record);
  }

  lemma CreateAppKeepsTenancy(v: Verdicts, w: World, token: string, team: string, app: string)
    requires Tenancy(w)
    ensures Kept(w, CreateAppTx(v, w, token, team, app).0, team)
  {
    hide Prefixed, CreateAppTx, AppDatabase, Kept;
    CreateAppIsExact(v, w, token, team, app);
    var (after, r) := CreateAppTx(v, w, token, team, app);
    if r.Failure? {
      GrowthKeeps(w, after, team);
    } else {
      var db := AppDatabase(w.registry[token].namespace, app);
      AppDatabaseIsPrefixed(w.registry[token].namespace, app);
      OwnRecordKeeps(w, after, token, w.registry[token].(databases := w.registry[token].databases + {db}));
    }
  }

  lemma AppDatabaseIsPrefixed(namespace: string, app: string)
    ensures Prefixed(AppDatabase(namespace, app))
  {
  }

  /** Dropping one registered database, with every command and registry access succeeding. */
  lemma DropOneKeepsTenancy(v: Verdicts, w: World, token: string, team: string, db: string)
    requires Tenancy(w) && forall n :: v(n).Fine?
    requires Active(w.registry, token, team) && db in w.registry[token].databases
    ensures var (after, problem) := DropOneTx(v, w, token, team, db);
            && problem.None?
            && Kept(w, after, team)
            && after.dbs == w.dbs - {db} && after.roles == w.roles - {db}
            && after.registry == w.registry[token := w.registry[token].(databases := w.registry[token].databases - {db})]
  {
    hide Prefixed, Kept;
    assert ObjectsOf(db) == db;
    DropEffect(v, w, db);
    var after := DropOneTx(v, w, token, team, db).0;
    OwnRecordKeeps(w, after, token, w.registry[token].(databases := w.registry[token].databases - {db}));
  }

  lemma DropEffect(v: Verdicts, w: World, db: string)
    requires forall n :: v(n).Fine?
    ensures var (after, problem) := DropTx(v, w, db);
            problem.None? && after == w.(dbs := w.dbs - {db}, roles := w.roles - {db}, tick := w.tick + 2)
  {
  }

  lemma DropAppKeepsTenancy(v: Verdicts, w: World, token: string, team: string, app: string)
    requires Tenancy(w) && forall n :: v(n).Fine?
    ensures Kept(w, DropAppTx(v, w, token, team, app).0, team)
  {
    hide DropOneTx, ExistTx, ScopeTx, AppDatabase, Kept;
    ScopeEffect(v, w, token, team);
    var w1 := ScopeTx(v, w, token, team).0;
    GrowthKeeps(w, w, team);
    GrowthKeeps(w, w1, team);
    if Active(w.registry, token, team) {
      var db := AppDatabase(w.registry[token].namespace, app);
      if db in w.registry[token].databases {
        DropOneKeepsTenancy(v, w1, token, team, db);
        TickIsIrrelevant(w, w1, DropOneTx(v, w1, token, team, db).0, team);
      } else {
        ExistEffect(v, w1, db);
        GrowthKeeps(w, ExistTx(v, w1, db).0, team);
      }
    }
  }

  lemma TickIsIrrelevant(w: World, w1: World, after: World, team: string)
    requires w1 == w.(tick := w1.tick) && Tenancy(w1) && Kept(w1, after, team)
    ensures Kept(w, after, team)
  {
  }

  lemma KeptTwice(w: World, w1: World, w2: World, team: string, token: string)
    requires Kept(w, w1, team) && Kept(w1, w2, team)
    requires w.registry.Keys == w1.registry.Keys
    requires forall t :: t in w.registry ==> w1.registry[t].team == w.registry[t].team
    requires forall t :: t in w.registry ==> w1.registry[t].namespace == w.registry[t].namespace
    ensures Kept(w, w2, team)
  {
  }

  /** Dropping a whole Team: its databases and nothing else are gone, and its principal is retired. */
  lemma {:induction false} DropAllKeepsTenancy(v: Verdicts, w: World, token: string, team: string, dbs: seq<string>)
    requires Tenancy(w) && forall n :: v(n).Fine?
    requires token in w.registry && w.registry[token].team == team
    requires dbs != [] ==> !w.registry[token].retired
    requires forall db :: db in dbs <==> db in w.registry[token].databases
    requires forall i, j :: 0 <= i < j < |dbs| ==> dbs[i] != dbs[j]
    ensures var (after, problem) := DropAllTx(v, w, token, team, dbs);
            && problem.None?
            && Kept(w, after, team)
            && after.dbs == w.dbs - w.registry[token].databases
            && after.roles == w.roles - w.registry[token].databases
            && after.registry == w.registry[token := w.registry[token].(databases := {}, retired := true)]
    decreases |dbs|
  {
    hide DropOneTx, Kept;
    if dbs == [] {
      assert forall db :: db in w.registry[token].databases ==> db in dbs;
      assert w.registry[token].databases == {};
      OwnRecordKeeps(w, DropAllTx(v, w, token, team, dbs).0, token, w.registry[token].(databases := {}, retired := true));
    } else {
      var w1 := DropOneTx(v, w, token, team, dbs[0]).0;
      DropOneKeepsTenancy(v, w, token, team, dbs[0]);
      assert Tenancy(w1) by { KeptTenancy(w, w1, team); }
      DropAllKeepsTenancy(v, w1, token, team, dbs[1..]);
      KeptTwice(w, w1, DropAllTx(v, w1, token, team, dbs[1..]).0, team, token);
    }
  }

  lemma NotRetired(w: World, token: string)
    requires Tenancy(w) && token in w.registry && w.registry[token].databases != {}
    ensures !w.registry[token].retired
  {
  }

  lemma KeptTenancy(w: World, after: World, team: string)
    requires Kept(w, after, team)
    ensures Tenancy(after)
  {
  }

  lemma FinalizeKeepsTenancy(v: Verdicts, w: World, team: string)
    requires Tenancy(w)
    ensures Kept(w, FinalizeTeamTx(v, w, team).0, team)
  {
    CommitEffect(v, w, FinalizeTx(w.registry, team));
    var after := FinalizeTeamTx(v, w, team).0;
    assert after.dbs == w.dbs && after.roles == w.roles;
    assert forall t :: t in after.registry ==> t in w.registry && after.registry[t] == w.registry[t];
  }

  datatype Op =
    | Provision(team: string, token: string, random: string)
    | CreateApp(token: string, team: string, app: string)
    | DropApp(token: string, team: string, app: string)
    | DropTeam(token: string, team: string, order: seq<string>)
    | Finalize(team: string)

  function Apply(v: Verdicts, w: World, op: Op): World {
    match op
    case Provision(team, token, random) => ProvisionTx(v, w, team, token, random).0
    case CreateApp(token, team, app) => CreateAppTx(v, w, token, team, app).0
    case DropApp(token, team, app) => DropAppTx(v, w, token, team, app).0
    case DropTeam(token, team, order) => DropTeamTx(v, w, token, team, order).0
    case Finalize(team) => FinalizeTeamTx(v, w, team).0
  }

  /**
   Tokens of different Teams differ, random namespaces are unused, a Team drop goes through exactly the registered
   databases, and drops meet no fault. Provisioning, App creation and finalizing may fail anywhere.
   */
  ghost predicate Proper(v: Verdicts, w: World, op: Op) {
    match op
    case Provision(team, token, random) => Distinct(w, team, token, random)
    case CreateApp(_, _, _) => true
    case DropApp(_, _, _) => forall n :: v(n).Fine?
    case DropTeam(token, _, order) =>
      && (forall n :: v(n).Fine?)
      && (token in w.registry ==>
           forall db :: db in order <==> db in w.registry[token].databases)
      && forall i, j :: 0 <= i < j < |order| ==> order[i] != order[j]
    case Finalize(_) => true
  }

  /** Every operation keeps the tenancy invariant and leaves every other Team alone. */
  lemma StepKeepsTenancy(v: Verdicts, w: World, op: Op)
    requires Tenancy(w) && Proper(v, w, op)
    ensures Kept(w, Apply(v, w, op), op.team)
  {
    hide Tenancy, Kept, ProvisionTx, CreateAppTx, DropAppTx, DropAllTx, FinalizeTeamTx;
    match op {
      case Provision(team, token, random) => ProvisionKeepsTenancy(v, w, team, token, random);
      case CreateApp(token, team, app) => CreateAppKeepsTenancy(v, w, token, team, app);
      case DropApp(token, team, app) => DropAppKeepsTenancy(v, w, token, team, app);
      case DropTeam(token, team, order) =>
        var w1 := w.(tick := w.tick + 1);
        GrowthKeeps(w, w, team);
        GrowthKeeps(w, w1, team);
        if token in w.registry && w.registry[token].team == team {
          if order != [] {
            assert order[0] in order;
            NotRetired(w, token);
          }
          assert Tenancy(w1) by { KeptTenancy(w, w1, team); }
          DropAllKeepsTenancy(v, w1, token, team, order);
          TickIsIrrelevant(w, w1, DropAllTx(v, w1, token, team, order).0, team);
        }
      case Finalize(team) => FinalizeKeepsTenancy(v, w, team);
    }
  }

  ghost predicate ProperRun(v: Verdicts, w: World, ops: seq<Op>)
    decreases |ops|
  {
    ops != [] ==> Proper(v, w, ops[0]) && ProperRun(v, Apply(v, w, ops[0]), ops[1..])
  }

  ghost function Run(v: Verdicts, w: World, ops: seq<Op>): World
    decreases |ops|
  {
    if ops == [] then w else Run(v, Apply(v, w, ops[0]), ops[1..])
  }

  /** Over every run: registered databases exist and are never shared, even when generated names collide. */
  lemma {:induction false} RunKeepsTenancy(v: Verdicts, w: World, ops: seq<Op>)
    requires Tenancy(w) && ProperRun(v, w, ops)
    ensures Tenancy(Run(v, w, ops))
    decreases |ops|
  {
    hide Tenancy, Proper, Apply, Kept;
    if ops != [] {
      StepKeepsTenancy(v, w, ops[0]);
      KeptTenancy(w, Apply(v, w, ops[0]), ops[0].team);
      RunKeepsTenancy(v, Apply(v, w, ops[0]), ops[1..]);
    }
  }

  /** A successful registration takes another Team's record away exactly if its token is already that Team's. */
  lemma SharedTokenStealsRecord(v: Verdicts, w: World, team: string, token: string, random: string)
    requires ProvisionTx(v, w, team, token, random).1.Success?
    ensures var after := ProvisionTx(v, w, team, token, random).0;
            && token in after.registry && after.registry[token].team == team
            && ((forall t :: t in w.registry && w.registry[t].team != team ==>
                   t in after.registry && after.registry[t] == w.registry[t])
                <==> (token in w.registry ==> w.registry[token].team == team))
  {
    hide CreateTx, CommitTx, NamespaceFor, TeamDatabase, Owns;
    ProvisionIsExact(v, w, team, token, random);
  }
}
