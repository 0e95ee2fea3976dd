/**
 Delegated OAuth accounts (team/oauth_account_store.py): a reference-counted table of per-account locks gives
 single flight, and a generation check makes the write after a refresh or a revocation a compare-and-swap. A write
 may fail, before or after it took effect.

 Records are plain here; `EncryptedState` is about how they are sealed.
 */
module OAuthAccounts {
  import opened Wrappers
  import opened PrivateFiles
  import Sets

  datatype Key = Key(team: string, assistant: string, account: string)

  datatype Grant = Grant(access: string, refresh: Option<string>, lease: Option<string>, identity: Option<string>)

  datatype Record = Record(
    provider: string, scopes: seq<string>, expiresAt: int, reauthorize: bool, generation: nat, grant: Grant)

  /** A validated answer of the provider. */
  datatype TokenSet = TokenSet(expiresAt: int, grant: Grant)

  type Records = map<Key, Record>

  datatype AccountError =
    | Missing | Reauthorization | Changed | Capacity | TooManyRecords | Unpersisted | CallbackFailed

  const MAX_ACCOUNTS_PER_ASSISTANT := 16
  const MAX_TOTAL_RECORDS := 4096
  const REFRESH_WINDOW_SECONDS := 60

  // ---------------------------------------------------------------- transactions on records

  function Siblings(records: Records, key: Key): set<Key> {
    set k | k in records && k.team == key.team && k.assistant == key.assistant
  }

  /** Check and replace the file; a failed write is reported even when it took effect. */
  function Saved<T>(before: Records, after: Records, write: Write, value: T): (Records, Result<T, AccountError>) {
    if |after| > MAX_TOTAL_RECORDS then (before, Failure(TooManyRecords))
    else (Replaced(before, after, write), if write.Done? then Success(value) else Failure(Unpersisted))
  }

  function PutTx(records: Records, key: Key, provider: string, scopes: seq<string>, tokens: TokenSet, write: Write)
    : (Records, Result<nat, AccountError>)
  {
    if key !in records && |Siblings(records, key)| >= MAX_ACCOUNTS_PER_ASSISTANT then (records, Failure(Capacity))
    else
      var generation := if key in records then records[key].generation + 1 else 1;
      var record := Record(provider, scopes, tokens.expiresAt, false, generation, tokens.grant);
      Saved(records, records[key := record], write, generation)
  }

  function Declared(records: Records, key: Key, provider: string, scopes: seq<string>): Result<Record, AccountError> {
    if key !in records then Failure(Missing)
    else if records[key].provider != provider || records[key].scopes != scopes then Failure(Reauthorization)
    else if records[key].reauthorize then Failure(Reauthorization)
    else Success(records[key])
  }

  /** Write refreshed tokens back over the generation they were refreshed from, and no other. */
  function SwapTx(
    records: Records, key: Key, provider: string, scopes: seq<string>, generation: nat, tokens: TokenSet, write: Write)
    : (Records, Result<nat, AccountError>)
  {
    match Declared(records, key, provider, scopes)
    case Failure(e) => (records, Failure(e))
    case Success(current) =>
      if current.generation != generation then (records, Failure(Reauthorization))
      else PutTx(records, key, provider, scopes, tokens, write)
  }

  /** Delete the generation whose tokens were revoked, and no other. */
  function DropTx(records: Records, key: Key, generation: nat, write: Write): (Records, Result<(), AccountError>) {
    if key !in records || records[key].generation != generation then (records, Failure(Changed))
    else Saved(records, records - {key}, write, ())
  }

  function Retained(records: Records, team: string, assistant: string, declared: set<string>): Records {
    map k | k in records && !(k.team == team && k.assistant == assistant && k.account !in declared) :: records[k]
  }

  /** Discard the accounts that a new Assistant release no longer declares; without any, nothing is written. */
  function RetainTx(records: Records, team: string, assistant: string, declared: set<string>, write: Write)
    : (Records, Result<bool, AccountError>)
  {
    var kept := Retained(records, team, assistant, declared);
    if kept == records then (records, Success(false)) else Saved(records, kept, write, true)
  }

  // ---------------------------------------------------------------- the flight table

  /** Locks by number; `users` counts the threads between entering and leaving each of them. */
  datatype Flights = Flights(byKey: map<Key, nat>, users: map<nat, nat>, next: nat)

  function Joined(f: Flights, key: Key): (Flights, nat) {
    if key in f.byKey then
      var id := f.byKey[key];
      (f.(users := f.users[id := (if id in f.users then f.users[id] else 0) + 1]), id)
    else (Flights(f.byKey[key := f.next], f.users[f.next := 1], f.next + 1), f.next)
  }

  function Left(f: Flights, key: Key, id: nat): Flights
    requires id in f.users && f.users[id] > 0
  {
    var n := f.users[id] - 1;
    Flights(
      if n == 0 && key in f.byKey && f.byKey[key] == id then f.byKey - {key} else f.byKey,
      f.users[id := n],
      f.next)
  }

  class OAuthAccountStore {
    var records: Records
    var byKey: map<Key, nat>
    var users: map<nat, nat>
    var next: nat

    constructor ()
      ensures records == map[] && Table() == Flights(map[], map[], 0)
    {
      records, byKey, users, next := map[], map[], map[], 0;
    }

    function Table(): Flights
      reads this
    {
      Flights(byKey, users, next)
    }

    method JoinFlight(key: Key) returns (id: nat)
      modifies this`byKey, this`users, this`next
      ensures (Table(), id) == Joined(old(Table()), key)
    {
      ghost var before := users;
      if key !in byKey {
        byKey := byKey[key := next];
        users := users[next := 0];
        next := next + 1;
      }
      id := byKey[key];
      users := users[id := (if id in users then users[id] else 0) + 1];
      assert key !in old(byKey) ==> users == before[id := 1];
    }

    method LeaveFlight(key: Key, id: nat)
      requires id in users && users[id] > 0
      modifies this`byKey, this`users
      ensures Table() == Left(old(Table()), key, id)
    {
      users := users[id := users[id] - 1];
      if users[id] == 0 && key in byKey && byKey[key] == id {
        byKey := byKey - {key};
      }
    }

    method Save<T>(state: Records, write: Write, value: T) returns (r: Result<T, AccountError>)
      modifies this`records
      ensures (records, r) == Saved(old(records), state, write, value)
    {
      if |state| > MAX_TOTAL_RECORDS {
        return Failure(TooManyRecords);
      }
      if !write.FailedBefore? {
        records := state;
      }
      r := if write.Done? then Success(value) else Failure(Unpersisted);
    }

    method Put(key: Key, provider: string, scopes: seq<string>, tokens: TokenSet, write: Write)
      returns (r: Result<nat, AccountError>)
      modifies this`records
      ensures (records, r) == PutTx(old(records), key, provider, scopes, tokens, write)
    {
      if key !in records && |Siblings(records, key)| >= MAX_ACCOUNTS_PER_ASSISTANT {
        return Failure(Capacity);
      }
      var generation := if key in records then records[key].generation + 1 else 1;
      var state := records[key := Record(provider, scopes, tokens.expiresAt, false, generation, tokens.grant)];
      r := Save(state, write, generation);
    }

    method Swap(key: Key, provider: string, scopes: seq<string>, generation: nat, tokens: TokenSet, write: Write)
      returns (r: Result<nat, AccountError>)
      modifies this`records
      ensures (records, r) == SwapTx(old(records), key, provider, scopes, generation, tokens, write)
    {
      var current := Declared(records, key, provider, scopes);
      if current.Failure? {
        return Failure(current.error);
      }
      if current.value.generation != generation {
        return Failure(Reauthorization);
      }
      r := Put(key, provider, scopes, tokens, write);
    }

    method Drop(key: Key, generation: nat, write: Write) returns (r: Result<(), AccountError>)
      modifies this`records
      ensures (records, r) == DropTx(old(records), key, generation, write)
    {
      if key !in records || records[key].generation != generation {
        return Failure(Changed);
      }
      r := Save(records - {key}, write, ());
    }

    method RetainDeclared(team: string, assistant: string, declared: set<string>, write: Write)
      returns (r: Result<bool, AccountError>)
      modifies this`records
      ensures (records, r) == RetainTx(old(records), team, assistant, declared, write)
    {
      var obsolete := set k | k in records && k.team == team && k.assistant == assistant && k.account !in declared;
      ghost var kept := Retained(records, team, assistant, declared);
      if obsolete == {} {
        assert forall k :: k in records ==> k !in obsolete;
        assert kept == records;
        return Success(false);
      }
      var gone :| gone in obsolete;
      assert gone in records && gone !in kept;
      var state, left := records, obsolete;
      while left != {}
        invariant left <= obsolete
        invariant state == records - (obsolete - left)
        decreases left
      {
        var k :| k in left;
        state := state - {k};
        left := left - {k};
      }
      assert state == kept;
      r := Save(state, write, true);
    }
  }

  // ---------------------------------------------------------------- interleavings

  datatype Outcome = Access(token: string) | Removed(existed: bool) | Refused(error: AccountError)

  /** `Owner` holds the flight lock; `Calling` is inside the provider's callback; `Leaving` has let go. */
  datatype Phase =
    | Queued
    | Owner
    | Calling(read: Record)
    | Returned(read: Record, tokens: TokenSet)
    | Finished(outcome: Outcome)
    | Leaving(outcome: Outcome)

  datatype Purpose = Refresh(provider: string, scopes: seq<string>) | Revoke

  datatype Thread = Thread(key: Key, purpose: Purpose, flight: nat, phase: Phase)

  datatype System = System(records: Records, flights: Flights, holders: map<nat, nat>, threads: map<nat, Thread>)

  datatype Step =
    | Enter(thread: nat, key: Key, purpose: Purpose)
    | Acquire(thread: nat)
    | Read(thread: nat, now: int)
    | Answer(thread: nat, answer: Option<TokenSet>)
    | Write(thread: nat, write: Write)
    | Unlock(thread: nat)
    | Leave(thread: nat)
    | PutOther(key: Key, provider: string, scopes: seq<string>, tokens: TokenSet, write: Write)
    | RemoveSome(keys: set<Key>, write: Write)

  ghost predicate Enabled(s: System, step: Step) {
    match step
    case Enter(t, _, _) => t !in s.threads
    case Acquire(t) => t in s.threads && s.threads[t].phase.Queued? && s.threads[t].flight !in s.holders
    case Read(t, _) => t in s.threads && s.threads[t].phase.Owner?
    case Answer(t, _) => t in s.threads && s.threads[t].phase.Calling?
    case Write(t, _) => t in s.threads && s.threads[t].phase.Returned?
    case Unlock(t) => t in s.threads && s.threads[t].phase.Finished?
    case Leave(t) =>
      t in s.threads && s.threads[t].phase.Leaving?
      && s.threads[t].flight in s.flights.users && s.flights.users[s.threads[t].flight] > 0
    case _ => true
  }

  /** What a thread does with what it reads: the checks of `resolve` before its callback, or of a revocation. */
  function AfterRead(records: Records, key: Key, purpose: Purpose, now: int): Phase {
    match purpose
    case Revoke => if key !in records then Finished(Removed(false)) else Calling(records[key])
    case Refresh(provider, scopes) =>
      match Declared(records, key, provider, scopes)
      case Failure(e) => Finished(Refused(e))
      case Success(record) =>
        if record.expiresAt > now + REFRESH_WINDOW_SECONDS then Finished(Access(record.grant.access))
        else if record.grant.refresh.None? then Finished(Refused(Reauthorization))
        else Calling(record)
  }

  function AfterWrite(records: Records, thread: Thread, write: Write): (Records, Outcome)
    requires thread.phase.Returned?
  {
    var read, tokens := thread.phase.read, thread.phase.tokens;
    match thread.purpose
    case Revoke =>
      var (after, r) := DropTx(records, thread.key, read.generation, write);
      (after, if r.Success? then Removed(true) else Refused(r.error))
    case Refresh(provider, scopes) =>
      var kept := tokens.(grant := tokens.grant.(identity := read.grant.identity));
      var (after, r) := SwapTx(records, thread.key, provider, scopes, read.generation, kept, write);
      (after, if r.Success? then Access(tokens.grant.access) else Refused(r.error))
  }

  function At(s: System, t: nat, phase: Phase): map<nat, Thread>
    requires t in s.threads
  {
    s.threads[t := s.threads[t].(phase := phase)]
  }

  ghost function Next(s: System, step: Step): System
    requires Enabled(s, step)
  {
    match step
    case Enter(t, key, purpose) =>
      var (flights, id) := Joined(s.flights, key);
      s.(flights := flights, threads := s.threads[t := Thread(key, purpose, id, Queued)])
    case Acquire(t) => s.(holders := s.holders[s.threads[t].flight := t], threads := At(s, t, Owner))
    case Read(t, now) => s.(threads := At(s, t, AfterRead(s.records, s.threads[t].key, s.threads[t].purpose, now)))
    case Answer(t, tokens) =>
      s.(threads := At(s, t,
           match tokens
           case None => Finished(Refused(CallbackFailed))
           case Some(value) => Returned(s.threads[t].phase.read, value)))
    case Write(t, write) =>
      var (records, outcome) := AfterWrite(s.records, s.threads[t], write);
      s.(records := records, threads := At(s, t, Finished(outcome)))
    case Unlock(t) =>
      s.(holders := s.holders - {s.threads[t].flight}, threads := At(s, t, Leaving(s.threads[t].phase.outcome)))
    case Leave(t) =>
      s.(flights := Left(s.flights, s.threads[t].key, s.threads[t].flight), threads := s.threads - {t})
    case PutOther(key, provider, scopes, tokens, write) =>
      s.(records := PutTx(s.records, key, provider, scopes, tokens, write).0)
    case RemoveSome(keys, write) => s.(records := Saved(s.records, s.records - keys, write, ()).0)
  }

  // ---------------------------------------------------------------- single flight

  function UsersOf(threads: map<nat, Thread>, id: nat): set<nat> {
    set t | t in threads && threads[t].flight == id
  }

  predicate InsideLock(phase: Phase) {
    !phase.Queued? && !phase.Leaving?
  }

  /** Each lock counts exactly its threads, and every thread of an account uses the lock in the table. */
  ghost predicate TableOk(f: Flights, threads: map<nat, Thread>) {
    && (forall t :: t in threads ==> threads[t].key in f.byKey && f.byKey[threads[t].key] == threads[t].flight)
    && (forall id :: id in f.users ==> id < f.next && f.users[id] == |UsersOf(threads, id)|)
    && (forall k :: k in f.byKey ==> f.byKey[k] in f.users && f.users[f.byKey[k]] > 0)
    && forall j, k :: j in f.byKey && k in f.byKey && f.byKey[j] == f.byKey[k] ==> j == k
  }

  ghost predicate HoldersOk(holders: map<nat, nat>, threads: map<nat, Thread>) {
    && (forall id :: id in holders ==>
         && holders[id] in threads
         && threads[holders[id]].flight == id
         && InsideLock(threads[holders[id]].phase))
    && forall t :: t in threads && InsideLock(threads[t].phase) ==>
         threads[t].flight in holders && holders[threads[t].flight] == t
  }

  ghost predicate Inv(s: System) {
    TableOk(s.flights, s.threads) && HoldersOk(s.holders, s.threads)
  }

  lemma UsersGrow(threads: map<nat, Thread>, t: nat, thread: Thread, id: nat)
    requires t !in threads
    ensures |UsersOf(threads[t := thread], id)| == |UsersOf(threads, id)| + if thread.flight == id then 1 else 0
  {
    var before, after := UsersOf(threads, id), UsersOf(threads[t := thread], id);
    if id == thread.flight {
      assert after == before + {t} && t !in before;
    } else {
      assert after == before;
    }
  }

  lemma UnknownLockHasNoUsers(f: Flights, threads: map<nat, Thread>, id: nat)
    requires TableOk(f, threads) && id !in f.users
    ensures UsersOf(threads, id) == {}
  {
  }

  lemma JoinCounts(f: Flights, threads: map<nat, Thread>, t: nat, thread: Thread, id: nat)
    requires TableOk(f, threads) && t !in threads && id in Joined(f, thread.key).0.users
    requires thread.flight == Joined(f, thread.key).1
    ensures id < Joined(f, thread.key).0.next
    ensures Joined(f, thread.key).0.users[id] == |UsersOf(threads[t := thread], id)|
  {
    hide UsersOf;
    UsersGrow(threads, t, thread, id);
    if id !in f.users {
      UnknownLockHasNoUsers(f, threads, id);
    }
  }

  lemma JoinKeepsTable(f: Flights, threads: map<nat, Thread>, t: nat, thread: Thread)
    requires TableOk(f, threads) && t !in threads && thread.flight == Joined(f, thread.key).1
    ensures TableOk(Joined(f, thread.key).0, threads[t := thread])
  {
    hide UsersOf;
    forall id | id in Joined(f, thread.key).0.users {
      JoinCounts(f, threads, t, thread, id);
    }
  }

  lemma LeaveCounts(f: Flights, threads: map<nat, Thread>, t: nat, id: nat)
    requires TableOk(f, threads) && t in threads && id in f.users
    ensures |UsersOf(threads - {t}, id)| == f.users[id] - if threads[t].flight == id then 1 else 0
    ensures |UsersOf(threads - {t}, id)| == 0 ==> forall u :: u in threads && u != t ==> threads[u].flight != id
  {
    var before, after := UsersOf(threads, id), UsersOf(threads - {t}, id);
    assert forall u :: u in threads && u != t && threads[u].flight == id ==> u in after;
    if threads[t].flight == id {
      assert after == before - {t} && t in before;
    } else {
      assert after == before;
    }
  }

  lemma LeaveKeepsTable(f: Flights, threads: map<nat, Thread>, t: nat)
    requires TableOk(f, threads) && t in threads && threads[t].flight in f.users && f.users[threads[t].flight] > 0
    ensures TableOk(Left(f, threads[t].key, threads[t].flight), threads - {t})
  {
    hide UsersOf;
    forall id | id in f.users
      ensures |UsersOf(threads - {t}, id)| == f.users[id] - if threads[t].flight == id then 1 else 0
    {
      LeaveCounts(f, threads, t, id);
    }
    LeaveCounts(f, threads, t, threads[t].flight);
  }

  lemma PhaseKeepsTable(f: Flights, threads: map<nat, Thread>, t: nat, phase: Phase)
    requires TableOk(f, threads) && t in threads
    ensures TableOk(f, threads[t := threads[t].(phase := phase)])
  {
    var after := threads[t := threads[t].(phase := phase)];
    forall id
      ensures UsersOf(after, id) == UsersOf(threads, id)
    {
    }
  }

  lemma StepKeepsTable(s: System, step: Step)
    requires TableOk(s.flights, s.threads) && Enabled(s, step)
    ensures TableOk(Next(s, step).flights, Next(s, step).threads)
  {
    hide TableOk, Joined, Left, AfterRead, AfterWrite, PutTx;
    match step {
      case Enter(t, key, purpose) =>
        JoinKeepsTable(s.flights, s.threads, t, Thread(key, purpose, Joined(s.flights, key).1, Queued));
      case Leave(t) => LeaveKeepsTable(s.flights, s.threads, t);
      case PutOther(_, _, _, _, _) =>
      case RemoveSome(_, _) =>
      case _ => PhaseKeepsTable(s.flights, s.threads, step.thread, Next(s, step).threads[step.thread].phase);
    }
  }

  /** A thread that stays inside or outside the lock changes nothing for the lock. */
  lemma PhaseKeepsHolders(holders: map<nat, nat>, threads: map<nat, Thread>, t: nat, phase: Phase)
    requires HoldersOk(holders, threads) && t in threads && InsideLock(phase) == InsideLock(threads[t].phase)
    ensures HoldersOk(holders, threads[t := threads[t].(phase := phase)])
  {
  }

  lemma LockKeepsHolders(s: System, step: Step)
    requires Inv(s) && Enabled(s, step) && (step.Enter? || step.Acquire? || step.Unlock? || step.Leave?)
    ensures HoldersOk(Next(s, step).holders, Next(s, step).threads)
  {
    hide TableOk;
  }

  lemma StepKeepsHolders(s: System, step: Step)
    requires Inv(s) && Enabled(s, step)
    ensures HoldersOk(Next(s, step).holders, Next(s, step).threads)
  {
    hide TableOk, HoldersOk, Joined, Left, PutTx, AfterWrite;
    match step {
      case Enter(_, _, _) => LockKeepsHolders(s, step);
      case Acquire(_) => LockKeepsHolders(s, step);
      case Unlock(_) => LockKeepsHolders(s, step);
      case Leave(_) => LockKeepsHolders(s, step);
      case PutOther(_, _, _, _, _) =>
      case RemoveSome(_, _) =>
      case _ => PhaseKeepsHolders(s.holders, s.threads, step.thread, Next(s, step).threads[step.thread].phase);
    }
  }

  lemma StepKeepsInv(s: System, step: Step)
    requires Inv(s) && Enabled(s, step)
    ensures Inv(Next(s, step))
  {
    hide TableOk, HoldersOk, Next, Enabled;
    StepKeepsTable(s, step);
    StepKeepsHolders(s, step);
  }

  ghost predicate ValidRun(s: System, steps: seq<Step>)
    decreases |steps|
  {
    steps != [] ==> Enabled(s, steps[0]) && ValidRun(Next(s, steps[0]), steps[1..])
  }

  ghost function Run(s: System, steps: seq<Step>): System
    requires ValidRun(s, steps)
    decreases |steps|
  {
    if steps == [] then s else Run(Next(s, steps[0]), steps[1..])
  }

  const START := System(map[], Flights(map[], map[], 0), map[], map[])

  lemma {:induction false} RunKeepsInv(s: System, steps: seq<Step>)
    requires Inv(s) && ValidRun(s, steps)
    ensures Inv(Run(s, steps))
    decreases |steps|
  {
    hide Inv, Next, Enabled;
    if steps != [] {
      StepKeepsInv(s, steps[0]);
      RunKeepsInv(Next(s, steps[0]), steps[1..]);
    }
  }

  /** At most one thread is inside the refresh or revocation callback of an account. */
  lemma SingleFlight(steps: seq<Step>, t: nat, u: nat)
    requires ValidRun(START, steps)
    requires var s := Run(START, steps);
             && t in s.threads && u in s.threads && s.threads[t].key == s.threads[u].key
             && s.threads[t].phase.Calling? && s.threads[u].phase.Calling?
    ensures t == u
  {
    hide Next, Enabled;
    assert Inv(START);
    RunKeepsInv(START, steps);
    var s := Run(START, steps);
    assert InsideLock(s.threads[t].phase) && InsideLock(s.threads[u].phase);
  }

  /** The table has an entry for an account exactly while some thread uses it. */
  lemma EntriesExistWhileUsed(s: System, key: Key)
    requires Inv(s)
    ensures key in s.flights.byKey <==> exists t :: t in s.threads && s.threads[t].key == key
  {
  }

  /** A lock that can still be acquired is never forgotten while a thread waits for it or holds it. */
  lemma WaitersShareOneLock(s: System, t: nat, u: nat)
    requires Inv(s) && t in s.threads && u in s.threads && s.threads[t].key == s.threads[u].key
    ensures s.threads[t].flight == s.threads[u].flight
  {
  }

  // ---------------------------------------------------------------- no concurrent put is lost

  /** The step removes the record of this account. */
  ghost predicate Deletes(s: System, step: Step, key: Key)
    requires Enabled(s, step)
  {
    key in s.records && key !in Next(s, step).records
  }

  ghost predicate NeverDeletes(s: System, steps: seq<Step>, key: Key)
    requires ValidRun(s, steps)
    decreases |steps|
  {
    steps != [] ==> !Deletes(s, steps[0], key) && NeverDeletes(Next(s, steps[0]), steps[1..], key)
  }

  lemma StepAdvancesGeneration(s: System, step: Step, key: Key)
    requires Enabled(s, step) && key in s.records && !Deletes(s, step, key)
    ensures var after := Next(s, step).records;
            && key in after
            && (after[key] == s.records[key] || after[key].generation == s.records[key].generation + 1)
  {
  }

  /** While an account is not deleted, its generation identifies its record. */
  lemma {:induction false} GenerationIdentifiesRecord(s: System, steps: seq<Step>, key: Key)
    requires ValidRun(s, steps) && key in s.records && NeverDeletes(s, steps, key)
    ensures var after := Run(s, steps).records;
            && key in after
            && after[key].generation >= s.records[key].generation
            && (after[key].generation == s.records[key].generation ==> after[key] == s.records[key])
    decreases |steps|
  {
    hide Next, Enabled;
    if steps != [] {
      StepAdvancesGeneration(s, steps[0], key);
      GenerationIdentifiesRecord(Next(s, steps[0]), steps[1..], key);
    }
  }

  /**
   If the account was not deleted between a thread's read and its write, the write changes something only over the
   very record that was read: no put in between is lost.
   */
  lemma WriteLosesNoPut(s: System, steps: seq<Step>, t: nat, read: Record, write: Write)
    requires ValidRun(s, steps) && t in s.threads
    requires s.threads[t].key in s.records && s.records[s.threads[t].key] == read
    requires NeverDeletes(s, steps, s.threads[t].key)
    requires var s' := Run(s, steps);
             && t in s'.threads && s'.threads[t].key == s.threads[t].key
             && s'.threads[t].phase.Returned? && s'.threads[t].phase.read == read
    ensures var s' := Run(s, steps);
            var key, (after, outcome) := s.threads[t].key, AfterWrite(s'.records, s'.threads[t], write);
            && (after != s'.records ==> s'.records[key] == read)
            && (outcome.Access? ==> after == s'.records[key := after[key]] && after[key].generation == read.generation + 1)
            && (outcome.Removed? ==> after == s'.records - {key})
            && (!outcome.Refused? ==> after != s'.records)
            && (outcome.Refused? && after != s'.records ==> write.FailedAfter?)
  {
    GenerationIdentifiesRecord(s, steps, s.threads[t].key);
  }

  /**
   A delete resets the generation, so a record re-created meanwhile can be overwritten unseen: in this run the account
   is removed and put again after it was read, and the refreshed tokens replace what was put.
   */
  lemma DeleteThenPutCanBeLost(s: System, t: nat, read: Record, other: TokenSet, refreshed: TokenSet)
    requires t in s.threads && s.threads[t].purpose == Refresh(read.provider, read.scopes)
    requires s.threads[t].phase == Returned(read, refreshed)
    requires s.records == map[s.threads[t].key := read]
    requires read.generation == 1 && !read.reauthorize && other.grant != read.grant
    ensures var key := s.threads[t].key;
            var steps := [RemoveSome({key}, Done), PutOther(key, read.provider, read.scopes, other, Done), Write(t, Done)];
            && ValidRun(s, steps) && ValidRun(s, steps[..2])
            && key in Run(s, steps[..2]).records && t in Run(s, steps).threads && key in Run(s, steps).records
            && Run(s, steps[..2]).records[key].grant == other.grant
            && Run(s, steps).threads[t].phase == Finished(Access(refreshed.grant.access))
            && Run(s, steps).records[key].grant == refreshed.grant.(identity := read.grant.identity)
  {
    var key := s.threads[t].key;
    var remove, put := RemoveSome({key}, Done), PutOther(key, read.provider, read.scopes, other, Done);
    var steps := [remove, put, Write(t, Done)];
    var s1 := Next(s, remove);
    assert s1.records == map[];
    assert Siblings(s1.records, key) == {};
    var s2 := Next(s1, put);
    assert s2.records == map[key := Record(read.provider, read.scopes, other.expiresAt, false, 1, other.grant)];
    var s3 := Next(s2, steps[2]);
    assert s3.records.Keys == {key} && |s3.records| == |s3.records.Keys| == 1;
    RunOfThree(s, remove, put, steps[2]);
    assert steps[..2] == [remove, put];
  }

  lemma RunOfThree(s: System, a: Step, b: Step, c: Step)
    requires Enabled(s, a) && Enabled(Next(s, a), b) && Enabled(Next(Next(s, a), b), c)
    ensures ValidRun(s, [a, b, c]) && Run(s, [a, b, c]) == Next(Next(Next(s, a), b), c)
    ensures ValidRun(s, [a, b]) && Run(s, [a, b]) == Next(Next(s, a), b)
  {
    hide Enabled, Next;
    var s1 := Next(s, a);
    var s2 := Next(s1, b);
    assert ValidRun(s2, [c]) && Run(s2, [c]) == Next(s2, c) by {
      assert [c][1..] == [];
    }
    assert ValidRun(s1, [b, c]) && Run(s1, [b, c]) == Next(s2, c) by {
      assert [b, c][1..] == [c];
    }
    assert ValidRun(s1, [b]) && Run(s1, [b]) == s2 by {
      assert [b][1..] == [];
    }
    assert [a, b, c][1..] == [b, c] && [a, b][1..] == [b];
  }

  /**
   A thread that nobody disturbs gets through: it joins the account's lock, reads, calls the provider, writes what it
   was given, and leaves neither a thread nor a new entry in the table behind.
   */
  lemma UndisturbedRefreshCompletes(s: System, t: nat, key: Key, now: int, tokens: TokenSet)
    returns (steps: seq<Step>, called: System, after: System)
    requires Inv(s) && t !in s.threads && key !in s.flights.byKey && WithinLimits(s.records)
    requires key in s.records && !s.records[key].reauthorize && s.records[key].grant.refresh.Some?
    requires s.records[key].expiresAt <= now + REFRESH_WINDOW_SECONDS
    ensures var purpose := Refresh(s.records[key].provider, s.records[key].scopes);
            && steps == [Enter(t, key, purpose), Acquire(t), Read(t, now), Answer(t, Some(tokens)), Write(t, Done),
                         Unlock(t), Leave(t)]
            && ValidRun(s, steps) && after == Run(s, steps)
            && ValidRun(s, steps[..3]) && called == Run(s, steps[..3])
            && t in called.threads && called.threads[t].phase == Calling(s.records[key])
            && called.holders == s.holders[called.threads[t].flight := t]
    ensures after.threads == s.threads && after.flights.byKey == s.flights.byKey && after.holders == s.holders
    ensures key in after.records && after.records == s.records[key := after.records[key]]
    ensures after.records[key].grant == tokens.grant.(identity := s.records[key].grant.identity)
    ensures after.records[key].generation == s.records[key].generation + 1
  {
    var purpose := Refresh(s.records[key].provider, s.records[key].scopes);
    steps := [Enter(t, key, purpose), Acquire(t), Read(t, now), Answer(t, Some(tokens)), Write(t, Done), Unlock(t), Leave(t)];
    var s3 := UndisturbedCall(s, t, key, now, purpose);
    called := s3;
    after := UndisturbedReturn(s, s3, t, key, tokens);
    RunOfThree(s, steps[0], steps[1], steps[2]);
    assert steps[..3] == [steps[0], steps[1], steps[2]];
    RunsCompose(s, steps[..3], steps[3..]);
    assert steps == steps[..3] + steps[3..];
    assert steps[3..] == [Answer(t, Some(tokens)), Write(t, Done), Unlock(t), Leave(t)];
  }

  lemma {:induction false} RunsCompose(s: System, a: seq<Step>, b: seq<Step>)
    requires ValidRun(s, a) && ValidRun(Run(s, a), b)
    ensures ValidRun(s, a + b) && Run(s, a + b) == Run(Run(s, a), b)
    decreases |a|
  {
    hide Enabled, Next;
    if a == [] {
      assert a + b == b;
    } else {
      assert (a + b)[0] == a[0] && (a + b)[1..] == a[1..] + b;
      RunsCompose(Next(s, a[0]), a[1..], b);
    }
  }

  /** From an idle account into the provider's callback. */
  lemma UndisturbedCall(s: System, t: nat, key: Key, now: int, purpose: Purpose) returns (s3: System)
    requires Inv(s) && t !in s.threads && key !in s.flights.byKey && key in s.records
    requires purpose == Refresh(s.records[key].provider, s.records[key].scopes)
    requires !s.records[key].reauthorize && s.records[key].grant.refresh.Some?
    requires s.records[key].expiresAt <= now + REFRESH_WINDOW_SECONDS
    ensures var id := s.flights.next;
            && Enabled(s, Enter(t, key, purpose)) && Enabled(Next(s, Enter(t, key, purpose)), Acquire(t))
            && Enabled(Next(Next(s, Enter(t, key, purpose)), Acquire(t)), Read(t, now))
            && s3 == Next(Next(Next(s, Enter(t, key, purpose)), Acquire(t)), Read(t, now))
            && s3 == System(s.records, Flights(s.flights.byKey[key := id], s.flights.users[id := 1], id + 1),
                            s.holders[id := t], s.threads[t := Thread(key, purpose, id, Calling(s.records[key]))])
    ensures s.flights.next !in s.holders && s.flights.next !in s.flights.users
  {
    var s1 := Next(s, Enter(t, key, purpose));
    var s2 := Next(s1, Acquire(t));
    s3 := Next(s2, Read(t, now));
    var id := s.flights.next;
    assert s1.threads == s.threads[t := Thread(key, purpose, id, Queued)];
    assert s2.threads == s.threads[t := Thread(key, purpose, id, Owner)];
    assert s3.threads == s.threads[t := Thread(key, purpose, id, Calling(s.records[key]))];
  }

  lemma UndisturbedReturn(s: System, s3: System, t: nat, key: Key, tokens: TokenSet) returns (after: System)
    requires t !in s.threads && key !in s.flights.byKey && WithinLimits(s.records)
    requires s.flights.next !in s.holders && s.flights.next !in s.flights.users
    requires key in s.records && !s.records[key].reauthorize
    requires var id := s.flights.next;
             var purpose := Refresh(s.records[key].provider, s.records[key].scopes);
             s3 == System(s.records, Flights(s.flights.byKey[key := id], s.flights.users[id := 1], id + 1),
                          s.holders[id := t], s.threads[t := Thread(key, purpose, id, Calling(s.records[key]))])
    ensures var steps := [Answer(t, Some(tokens)), Write(t, Done), Unlock(t), Leave(t)];
            ValidRun(s3, steps) && after == Run(s3, steps)
    ensures after.threads == s.threads && after.flights.byKey == s.flights.byKey && after.holders == s.holders
    ensures key in after.records && after.records == s.records[key := after.records[key]]
    ensures after.records[key].grant == tokens.grant.(identity := s.records[key].grant.identity)
    ensures after.records[key].generation == s.records[key].generation + 1
  {
    var id := s.flights.next;
    var s4 := Next(s3, Answer(t, Some(tokens)));
    WriteSucceedsExactly(s4.records, s4.threads[t], Done);
    var s5 := Next(s4, Write(t, Done));
    var s6 := Next(s5, Unlock(t));
    assert s6.holders == s.holders;
    assert s6.threads[t].flight == id && s6.flights.users[id] == 1;
    after := Next(s6, Leave(t));
    assert after.threads == s.threads;
    assert after.flights.byKey == s.flights.byKey;
    RunOfThree(s4, Write(t, Done), Unlock(t), Leave(t));
    assert [Answer(t, Some(tokens)), Write(t, Done), Unlock(t), Leave(t)][1..] == [Write(t, Done), Unlock(t), Leave(t)];
  }

  lemma RetainedIs(records: Records, team: string, assistant: string, declared: set<string>)
    ensures var gone := set k | k in records && k.team == team && k.assistant == assistant && k.account !in declared;
            Retained(records, team, assistant, declared) == records - gone && (gone == {} <==> records - gone == records)
  {
    var gone := set k | k in records && k.team == team && k.assistant == assistant && k.account !in declared;
    if gone != {} {
      var k :| k in gone;
      assert k in records && k !in records - gone;
    }
  }

  /** The undeclared accounts of one Assistant go, and nothing else; without any, nothing is written. */
  lemma RetentionIsExact(records: Records, team: string, assistant: string, declared: set<string>, write: Write)
    requires WithinLimits(records)
    ensures var (after, r) := RetainTx(records, team, assistant, declared, write);
            var gone := set k | k in records && k.team == team && k.assistant == assistant && k.account !in declared;
            && (r == Success(false) <==> gone == {})
            && (r == Success(true) <==> gone != {} && write.Done?)
            && after == (if write.FailedBefore? then records else records - gone)
            && (r.Failure? ==> r == Failure(Unpersisted))
  {
    hide Siblings, Retained;
    var gone := set k | k in records && k.team == team && k.assistant == assistant && k.account !in declared;
    RetainedIs(records, team, assistant, declared);
    RemovedIsSmaller(records, gone);
  }

  /** The record a finished callback read can still be written over: declared the same, usable, same generation. */
  predicate StillCurrent(records: Records, thread: Thread)
    requires thread.phase.Returned?
  {
    && thread.key in records
    && records[thread.key].generation == thread.phase.read.generation
    && (thread.purpose.Refresh? ==>
         && records[thread.key].provider == thread.purpose.provider
         && records[thread.key].scopes == thread.purpose.scopes
         && !records[thread.key].reauthorize)
  }

  /** Exactly when a finished callback succeeds, and exactly when it changes the file. */
  lemma WriteSucceedsExactly(records: Records, thread: Thread, write: Write)
    requires thread.phase.Returned? && WithinLimits(records)
    ensures var (after, outcome) := AfterWrite(records, thread, write);
            && (!outcome.Refused? <==> StillCurrent(records, thread) && write.Done?)
            && (!outcome.Refused? ==>
                 outcome == if thread.purpose.Revoke? then Removed(true) else Access(thread.phase.tokens.grant.access))
            && (after != records <==> StillCurrent(records, thread) && !write.FailedBefore?)
  {
    hide Siblings;
    if thread.key in records {
      match thread.purpose {
        case Revoke =>
          RemovedIsSmaller(records, {thread.key});
          assert thread.key !in records - {thread.key};
        case Refresh(provider, scopes) =>
          var kept := thread.phase.tokens.(grant := thread.phase.tokens.grant.(identity := thread.phase.read.grant.identity));
          var generation := records[thread.key].generation + 1;
          var after := records[thread.key := Record(provider, scopes, kept.expiresAt, false, generation, kept.grant)];
          assert after.Keys == records.Keys && after[thread.key] != records[thread.key];
      }
    }
  }

  /**
   What is done with what was read. An access token is handed out without a callback exactly if it is usable and
   outlives the refresh window; the provider is called exactly for a usable token that does not and can be refreshed,
   or for an existing one that is to be revoked.
   */
  lemma ReadIsExact(records: Records, key: Key, purpose: Purpose, now: int)
    ensures var phase := AfterRead(records, key, purpose, now);
            match purpose
            case Revoke =>
              if key in records then phase == Calling(records[key]) else phase == Finished(Removed(false))
            case Refresh(provider, scopes) =>
              var usable := key in records && records[key].provider == provider && records[key].scopes == scopes
                && !records[key].reauthorize;
              && ((exists token :: phase == Finished(Access(token)))
                  <==> usable && now + REFRESH_WINDOW_SECONDS < records[key].expiresAt)
              && (phase.Calling?
                  <==> usable && records[key].expiresAt <= now + REFRESH_WINDOW_SECONDS && records[key].grant.refresh.Some?)
              && (phase.Finished? && phase.outcome.Access? ==> phase.outcome.token == records[key].grant.access)
              && (phase.Calling? ==> phase.read == records[key])
              && (phase == Finished(Refused(Missing)) <==> key !in records)
              && (phase.Calling? || phase.Finished?)
  {
    if purpose.Refresh? && AfterRead(records, key, purpose, now).Finished? {
      var outcome := AfterRead(records, key, purpose, now).outcome;
      assert outcome.Access? ==> AfterRead(records, key, purpose, now) == Finished(Access(outcome.token));
    }
  }

  // ---------------------------------------------------------------- limits

  /** Never more than the accounts of an Assistant, or of the whole file. */
  ghost predicate WithinLimits(records: Records) {
    |records| <= MAX_TOTAL_RECORDS && forall key :: |Siblings(records, key)| <= MAX_ACCOUNTS_PER_ASSISTANT
  }

  lemma RemovedIsSmaller(records: Records, keys: set<Key>)
    ensures |records - keys| <= |records|
    ensures forall key :: |Siblings(records - keys, key)| <= |Siblings(records, key)|
  {
    Sets.FewerKeys(records - keys, records);
    forall key
      ensures |Siblings(records - keys, key)| <= |Siblings(records, key)|
    {
      Sets.SubsetSize(Siblings(records - keys, key), Siblings(records, key));
    }
  }

  /** A put fails on the limit of its Assistant, or keeps it. */
  lemma PutKeepsSiblings(records: Records, key: Key, record: Record, other: Key)
    requires |Siblings(records, other)| <= MAX_ACCOUNTS_PER_ASSISTANT
    requires key in records || |Siblings(records, key)| < MAX_ACCOUNTS_PER_ASSISTANT
    ensures |Siblings(records[key := record], other)| <= MAX_ACCOUNTS_PER_ASSISTANT
  {
    if key !in records && other.team == key.team && other.assistant == key.assistant {
      assert Siblings(records, other) == Siblings(records, key);
      assert Siblings(records[key := record], other) == Siblings(records, key) + {key};
    } else {
      assert Siblings(records[key := record], other) == Siblings(records, other);
    }
  }

  lemma PutKeepsLimits(
    records: Records, key: Key, provider: string, scopes: seq<string>, tokens: TokenSet, write: Write)
    requires WithinLimits(records)
    ensures WithinLimits(PutTx(records, key, provider, scopes, tokens, write).0)
  {
    hide Siblings;
    var after := PutTx(records, key, provider, scopes, tokens, write).0;
    if after != records {
      forall other
        ensures |Siblings(after, other)| <= MAX_ACCOUNTS_PER_ASSISTANT
      {
        PutKeepsSiblings(records, key, after[key], other);
      }
    }
  }

  lemma RemovalKeepsLimits(records: Records, keys: set<Key>, write: Write)
    requires WithinLimits(records)
    ensures WithinLimits(Saved(records, records - keys, write, ()).0)
    ensures Saved(records, records - keys, write, ()).0 == Replaced(records, records - keys, write)
  {
    RemovedIsSmaller(records, keys);
  }

  lemma StepKeepsLimits(s: System, step: Step)
    requires WithinLimits(s.records) && Enabled(s, step)
    ensures WithinLimits(Next(s, step).records)
  {
    hide WithinLimits, PutTx, Saved;
    match step {
      case Write(t, write) =>
        var thread := s.threads[t];
        match thread.purpose {
          case Revoke => RemovalKeepsLimits(s.records, {thread.key}, write);
          case Refresh(provider, scopes) =>
            var tokens := thread.phase.tokens;
            var kept := tokens.(grant := tokens.grant.(identity := thread.phase.read.grant.identity));
            PutKeepsLimits(s.records, thread.key, provider, scopes, kept, write);
        }
      case PutOther(key, provider, scopes, tokens, write) =>
        PutKeepsLimits(s.records, key, provider, scopes, tokens, write);
      case RemoveSome(keys, write) => RemovalKeepsLimits(s.records, keys, write);
      case _ =>
    }
  }

  /** In every reachable state both limits hold, so a write over an existing record never fails on them. */
  lemma {:induction false} RunKeepsLimits(s: System, steps: seq<Step>)
    requires WithinLimits(s.records) && ValidRun(s, steps)
    ensures WithinLimits(Run(s, steps).records)
    decreases |steps|
  {
    hide WithinLimits, Next, Enabled;
    if steps != [] {
      StepKeepsLimits(s, steps[0]);
      RunKeepsLimits(Next(s, steps[0]), steps[1..]);
    }
  }
}
