/**
 The encrypted stores (team/private_state.py, team/assistant_secret_store.py, team/oauth_account_store.py): a key
 file written once and a nested state file replaced as a whole. Encryption is symbolic and authenticated: a
 sealed value opens only under its key and its exact associated data.

 Every file write may fail before or after it took effect; a crash has the same durable outcomes.
 */
module EncryptedState {
  import opened Wrappers
  import opened PrivateFiles
  import Sets

  datatype Slot = Slot(team: string, assistant: string, id: string)

  /** The associated data: the slot, the generation, and whatever else the store binds to a record. */
  datatype Aad = Aad(slot: Slot, generation: nat, attributes: seq<string>)

  datatype Record = Record(generation: nat, attributes: seq<string>, envelope: Sealed<Aad, string>)

  datatype Value = Value(plaintext: string, attributes: seq<string>)

  type Teams = map<string, map<string, map<string, Record>>>

  /** The durable state: the key file, if it exists, and the state file. */
  datatype Disk = Disk(key: Option<nat>, teams: Teams)

  datatype StoreError = FileFailed(cause: FileError) | OverLimit | Missing | Unauthentic

  datatype Limits = Limits(perAssistant: nat, total: nat)

  function OpenRecord(key: nat, slot: Slot, record: Record): Option<string> {
    Open(key, Aad(slot, record.generation, record.attributes), record.envelope)
  }

  // ---------------------------------------------------------------- the nested state

  function Get<V>(m: map<string, map<string, V>>, k: string): map<string, V> {
    if k in m then m[k] else map[]
  }

  function At(teams: Teams, slot: Slot): Option<Record> {
    if slot.team in teams && slot.assistant in teams[slot.team] && slot.id in teams[slot.team][slot.assistant]
    then Some(teams[slot.team][slot.assistant][slot.id]) else None
  }

  predicate HasRecords(teams: Teams) {
    exists t, a :: t in teams && a in teams[t] && teams[t][a] != map[]
  }

  /** No Team and no Assistant is left with nothing in it. */
  ghost predicate Pruned(teams: Teams) {
    && (forall t :: t in teams ==> teams[t] != map[])
    && forall t, a :: t in teams && a in teams[t] ==> teams[t][a] != map[]
  }

  function Slots(teams: Teams): set<Slot> {
    set t, a, i | t in teams && a in teams[t] && i in teams[t][a] :: Slot(t, a, i)
  }

  /** `_validate_state` before each write. */
  predicate WithinLimits(limits: Limits, teams: Teams) {
    && (forall t, a :: t in teams && a in teams[t] ==> |teams[t][a]| <= limits.perAssistant)
    && |Slots(teams)| <= limits.total
  }

  /** Drop an Assistant without records, and then a Team without Assistants. */
  function Prune(teams: Teams, team: string, assistant: string): Teams {
    if team !in teams then teams
    else
      var assistants := teams[team];
      var kept := if assistant in assistants && assistants[assistant] == map[] then assistants - {assistant} else assistants;
      if kept == map[] then teams - {team} else teams[team := kept]
  }

  // ---------------------------------------------------------------- transactions

  function WriteTx(limits: Limits, disk: Disk, teams: Teams, write: Write): (Disk, Result<(), StoreError>) {
    if !WithinLimits(limits, teams) then (disk, Failure(OverLimit))
    else
      (disk.(teams := Replaced(disk.teams, teams, write)),
       if write.Done? then Success(()) else Failure(FileFailed(Unwritable)))
  }

  function NewRecord(key: nat, slot: Slot, previous: Option<Record>, value: Value): Record {
    var generation := if previous.Some? then previous.value.generation + 1 else 1;
    Record(generation, value.attributes, Sealed(key, Aad(slot, generation, value.attributes), value.plaintext))
  }

  function PutRecords(
    key: nat, team: string, assistant: string, records: map<string, Record>, values: map<string, Value>)
    : map<string, Record>
  {
    map i | i in records.Keys + values.Keys ::
      if i in values then
        NewRecord(key, Slot(team, assistant, i), if i in records then Some(records[i]) else None, values[i])
      else records[i]
  }

  function PutAll(key: nat, teams: Teams, team: string, values: map<string, map<string, Value>>): Teams {
    teams[team := map a | a in Get(teams, team).Keys + values.Keys ::
      PutRecords(key, team, a, Get(Get(teams, team), a), Get(values, a))]
  }

  /** Values the caller has validated: at least one Assistant, and at least one value for each. */
  predicate Proper(values: map<string, map<string, Value>>) {
    values != map[] && forall a :: a in values ==> values[a] != map[]
  }

  function PutTx(limits: Limits, disk: Disk, team: string, values: map<string, map<string, Value>>, faults: Faults)
    : (Disk, Result<(), StoreError>)
  {
    var (file, key) := KeyTx(disk.key, !HasRecords(disk.teams), faults.random, faults.keyWrite);
    var keyed := disk.(key := file);
    if key.Failure? then (keyed, Failure(FileFailed(key.error)))
    else WriteTx(limits, keyed, PutAll(key.value, disk.teams, team, values), faults.stateWrite)
  }

  function Retained(teams: Teams, team: string, assistant: string, declared: set<string>): Teams {
    if team !in teams || assistant !in teams[team] then teams
    else
      var kept := map i | i in teams[team][assistant] && i in declared :: teams[team][assistant][i];
      Prune(teams[team := teams[team][assistant := kept]], team, assistant)
  }

  function WithoutAssistant(teams: Teams, team: string, assistant: string): Teams {
    if team !in teams || assistant !in teams[team] then teams
    else
      var kept := teams[team] - {assistant};
      if kept == map[] then teams - {team} else teams[team := kept]
  }

  datatype Removal = Retain(team: string, assistant: string, declared: set<string>)
    | Assistant(team: string, assistant: string)
    | Team(team: string)
    | All

  function Removed(teams: Teams, removal: Removal): Teams {
    match removal
    case Retain(team, assistant, declared) => Retained(teams, team, assistant, declared)
    case Assistant(team, assistant) => WithoutAssistant(teams, team, assistant)
    case Team(team) => teams - {team}
    case All => map[]
  }

  /** The state file is rewritten only when something was removed. */
  function RemoveTx(limits: Limits, disk: Disk, removal: Removal, write: Write): (Disk, Result<bool, StoreError>) {
    var teams := Removed(disk.teams, removal);
    if teams == disk.teams then (disk, Success(false))
    else
      var (after, r) := WriteTx(limits, disk, teams, write);
      (after, if r.Success? then Success(true) else Failure(r.error))
  }

  function ResolveTx(disk: Disk, slot: Slot): Result<string, StoreError> {
    match At(disk.teams, slot)
    case None => Failure(Missing)
    case Some(record) =>
      if disk.key.None? then Failure(FileFailed(KeyUnavailable))
      else
        match OpenRecord(disk.key.value, slot, record)
        case None => Failure(Unauthentic)
        case Some(plaintext) => Success(plaintext)
  }

  /** Assistants without new values keep their records. */
  lemma PutAllIs(
    key: nat, teams: Teams, team: string, values: map<string, map<string, Value>>, assistants: map<string, map<string, Record>>)
    requires assistants.Keys == Get(teams, team).Keys + values.Keys
    requires forall a :: a in values ==> assistants[a] == PutRecords(key, team, a, Get(Get(teams, team), a), values[a])
    requires forall a :: a in assistants && a !in values ==> assistants[a] == Get(teams, team)[a]
    ensures teams[team := assistants] == PutAll(key, teams, team, values)
  {
    forall a | a in assistants && a !in values
      ensures PutRecords(key, team, a, Get(Get(teams, team), a), Get(values, a)) == assistants[a]
    {
    }
    assert assistants == PutAll(key, teams, team, values)[team];
  }

  // ---------------------------------------------------------------- the store

  class EncryptedStore {
    const limits: Limits
    var key: Option<nat>
    var teams: Teams

    constructor (limits: Limits)
      ensures this.limits == limits && OnDisk() == Disk(None, map[])
    {
      this.limits := limits;
      key, teams := None, map[];
    }

    function OnDisk(): Disk
      reads this
    {
      Disk(key, teams)
    }

    method AnyRecords() returns (any: bool)
      ensures any <==> HasRecords(teams)
    {
      var unseen := teams.Keys;
      while unseen != {}
        invariant unseen <= teams.Keys
        invariant forall t, a :: t in teams && t !in unseen && a in teams[t] ==> teams[t][a] == map[]
        decreases unseen
      {
        var t :| t in unseen;
        var left := teams[t].Keys;
        while left != {}
          invariant left <= teams[t].Keys
          invariant forall a :: a in teams[t] && a !in left ==> teams[t][a] == map[]
          decreases left
        {
          var a :| a in left;
          if teams[t][a] != map[] {
            return true;
          }
          left := left - {a};
        }
        unseen := unseen - {t};
      }
      any := false;
    }

    method ReadKey(allowCreate: bool, random: nat, write: Write) returns (r: Result<nat, FileError>)
      modifies this`key
      ensures (key, r) == KeyTx(old(key), allowCreate, random, write)
    {
      if key.Some? {
        return Success(key.value);
      }
      if !allowCreate {
        return Failure(KeyUnavailable);
      }
      if write != FailedBefore {
        key := Some(random);
      }
      r := if write == Done then Success(random) else Failure(Unwritable);
    }

    method WriteState(state: Teams, write: Write) returns (r: Result<(), StoreError>)
      modifies this`teams
      ensures (OnDisk(), r) == WriteTx(limits, old(OnDisk()), state, write)
    {
      if !WithinLimits(limits, state) {
        return Failure(OverLimit);
      }
      if write != FailedBefore {
        teams := state;
      }
      r := if write == Done then Success(()) else Failure(FileFailed(Unwritable));
    }

    /** One Team-wide transaction: the records are updated in memory and written with one replace. */
    method PutForAssistants(team: string, values: map<string, map<string, Value>>, faults: Faults)
      returns (r: Result<(), StoreError>)
      modifies this
      ensures (OnDisk(), r) == PutTx(limits, old(OnDisk()), team, values, faults)
    {
      var any := AnyRecords();
      var k := ReadKey(!any, faults.random, faults.keyWrite);
      if k.Failure? {
        return Failure(FileFailed(k.error));
      }
      var before := Get(teams, team);
      var assistants := before;
      var left := values.Keys;
      while left != {}
        invariant left <= values.Keys
        invariant unchanged(this`teams) && key == KeyTx(old(key), !any, faults.random, faults.keyWrite).0
        invariant assistants.Keys == before.Keys + (values.Keys - left)
        invariant forall a :: a in values && a !in left ==>
          assistants[a] == PutRecords(k.value, team, a, Get(before, a), values[a])
        invariant forall a :: a in before && (a !in values || a in left) ==> assistants[a] == before[a]
        decreases left
      {
        var a :| a in left;
        var records := PutInto(k.value, team, a, Get(before, a), values[a]);
        assistants := assistants[a := records];
        left := left - {a};
      }
      PutAllIs(k.value, teams, team, values, assistants);
      r := WriteState(teams[team := assistants], faults.stateWrite);
    }

    method PutInto(k: nat, team: string, assistant: string, before: map<string, Record>, values: map<string, Value>)
      returns (records: map<string, Record>)
      ensures records == PutRecords(k, team, assistant, before, values)
    {
      records := before;
      var left := values.Keys;
      while left != {}
        invariant left <= values.Keys
        invariant records == PutRecords(k, team, assistant, before, values - left)
        decreases left
      {
        var i :| i in left;
        var slot := Slot(team, assistant, i);
        var previous := if i in records then Some(records[i]) else None;
        assert i in records <==> i in before;
        records := records[i := NewRecord(k, slot, previous, values[i])];
        left := left - {i};
      }
      assert values - left == values;
    }

    method Remove(removal: Removal, write: Write) returns (r: Result<bool, StoreError>)
      modifies this`teams
      ensures (OnDisk(), r) == RemoveTx(limits, old(OnDisk()), removal, write)
    {
      var state := Removed(teams, removal);
      if state == teams {
        return Success(false);
      }
      var written := WriteState(state, write);
      r := if written.Success? then Success(true) else Failure(written.error);
    }

    /** All requested values or none: the first one missing or unauthentic refuses the whole request. */
    method ResolveMany(team: string, assistant: string, ids: seq<string>) returns (r: Result<map<string, string>, StoreError>)
      ensures r.Success? ==>
        && (forall i :: i in r.value <==> i in ids)
        && forall i :: i in ids ==> ResolveTx(OnDisk(), Slot(team, assistant, i)) == Success(r.value[i])
      ensures r.Failure? ==> exists i :: i in ids && ResolveTx(OnDisk(), Slot(team, assistant, i)).Failure?
    {
      var resolved: map<string, string> := map[];
      for n := 0 to |ids|
        invariant forall i :: i in resolved <==> i in ids[..n]
        invariant forall i :: i in resolved ==> ResolveTx(OnDisk(), Slot(team, assistant, i)) == Success(resolved[i])
      {
        var one := ResolveTx(OnDisk(), Slot(team, assistant, ids[n]));
        if one.Failure? {
          return Failure(one.error);
        }
        assert ids[..n + 1] == ids[..n] + [ids[n]];
        resolved := resolved[ids[n] := one.value];
      }
      assert ids[..|ids|] == ids;
      r := Success(resolved);
    }
  }

  // ---------------------------------------------------------------- what every transaction keeps

  /** Every record opens with the key on disk, under the data of its own slot and generation. */
  ghost predicate SealedOk(disk: Disk) {
    && Pruned(disk.teams)
    && forall slot: Slot :: At(disk.teams, slot).Some? ==>
         && disk.key.Some?
         && At(disk.teams, slot).value.generation >= 1
         && OpenRecord(disk.key.value, slot, At(disk.teams, slot).value).Some?
  }

  lemma RecordsNeedKey(disk: Disk)
    requires SealedOk(disk)
    ensures HasRecords(disk.teams) ==> disk.key.Some?
    ensures HasRecords(disk.teams) <==> disk.teams != map[]
  {
    if disk.teams != map[] {
      var t :| t in disk.teams;
      var a :| a in disk.teams[t];
      var i :| i in disk.teams[t][a];
      assert At(disk.teams, Slot(t, a, i)).Some?;
    }
  }

  lemma PutRecordsAt(key: nat, teams: Teams, team: string, values: map<string, map<string, Value>>, slot: Slot)
    ensures At(PutAll(key, teams, team, values), slot)
         == if slot.team == team && slot.assistant in values && slot.id in values[slot.assistant]
            then Some(NewRecord(key, slot, At(teams, slot), values[slot.assistant][slot.id]))
            else At(teams, slot)
  {
  }

  lemma PutKeepsPruned(key: nat, teams: Teams, team: string, values: map<string, map<string, Value>>)
    requires Pruned(teams) && Proper(values)
    ensures Pruned(PutAll(key, teams, team, values))
  {
    var after := PutAll(key, teams, team, values);
    forall a | a in after[team]
      ensures after[team][a] != map[]
    {
      if a in values {
        var i :| i in values[a];
        assert i in after[team][a];
      } else {
        var i :| i in teams[team][a];
        assert i in after[team][a];
      }
    }
    var a :| a in values;
    assert a in after[team];
  }

  /** Putting keeps every record readable, whichever write fails and however. */
  lemma PutKeepsSealed(
    limits: Limits, disk: Disk, team: string, values: map<string, map<string, Value>>, faults: Faults)
    requires SealedOk(disk) && Proper(values)
    ensures SealedOk(PutTx(limits, disk, team, values, faults).0)
  {
    hide PutAll, HasRecords, Pruned, NewRecord, WithinLimits, KeyTx, At;
    RecordsNeedKey(disk);
    KeyIsWrittenOnce(disk.key, !HasRecords(disk.teams), faults.random, faults.keyWrite);
    var (file, k) := KeyTx(disk.key, !HasRecords(disk.teams), faults.random, faults.keyWrite);
    if k.Success? {
      PutKeepsPruned(k.value, disk.teams, team, values);
      forall slot: Slot | At(PutAll(k.value, disk.teams, team, values), slot).Some?
        ensures At(PutAll(k.value, disk.teams, team, values), slot).value.generation >= 1
        ensures OpenRecord(k.value, slot, At(PutAll(k.value, disk.teams, team, values), slot).value).Some?
      {
        PutRecordsAt(k.value, disk.teams, team, values, slot);
        if slot.team == team && slot.assistant in values && slot.id in values[slot.assistant] {
          NewRecordOpens(k.value, slot, At(disk.teams, slot), values[slot.assistant][slot.id]);
        }
      }
    }
  }

  lemma NewRecordOpens(key: nat, slot: Slot, previous: Option<Record>, value: Value)
    ensures var record := NewRecord(key, slot, previous, value);
            && record.generation >= 1
            && OpenRecord(key, slot, record) == Some(value.plaintext)
  {
  }

  lemma RemovedKeepsRecords(teams: Teams, removal: Removal, slot: Slot)
    ensures At(Removed(teams, removal), slot).Some? ==> At(Removed(teams, removal), slot) == At(teams, slot)
  {
  }

  lemma RemovedKeepsPruned(teams: Teams, removal: Removal)
    requires Pruned(teams)
    ensures Pruned(Removed(teams, removal))
  {
  }

  lemma RemoveKeepsSealed(limits: Limits, disk: Disk, removal: Removal, write: Write)
    requires SealedOk(disk)
    ensures SealedOk(RemoveTx(limits, disk, removal, write).0)
  {
    hide Removed, Pruned, WithinLimits, At;
    RemovedKeepsPruned(disk.teams, removal);
    forall slot: Slot | At(Removed(disk.teams, removal), slot).Some?
      ensures At(Removed(disk.teams, removal), slot) == At(disk.teams, slot)
    {
      RemovedKeepsRecords(disk.teams, removal, slot);
    }
  }

  // ---------------------------------------------------------------- runs

  datatype Op =
    | Put(team: string, values: map<string, map<string, Value>>, faults: Faults)
    | Remove(removal: Removal, write: Write)

  ghost function Apply(limits: Limits, disk: Disk, op: Op): Disk {
    match op
    case Put(team, values, faults) => PutTx(limits, disk, team, values, faults).0
    case Remove(removal, write) => RemoveTx(limits, disk, removal, write).0
  }

  ghost predicate ProperRun(ops: seq<Op>) {
    forall i :: 0 <= i < |ops| && ops[i].Put? ==> Proper(ops[i].values)
  }

  ghost function Run(limits: Limits, disk: Disk, ops: seq<Op>): Disk
    decreases |ops|
  {
    if ops == [] then disk else Run(limits, Apply(limits, disk, ops[0]), ops[1..])
  }

  /**
   In every reachable durable state, including after a crash between the key write and the state write, the key
   exists if any record does, is the key each record was sealed with, and opens it under its own slot and
   generation; and a key that exists never changes.
   */
  lemma {:induction false} RunKeepsSealed(limits: Limits, disk: Disk, ops: seq<Op>)
    requires SealedOk(disk) && ProperRun(ops)
    ensures SealedOk(Run(limits, disk, ops))
    ensures disk.key.Some? ==> Run(limits, disk, ops).key == disk.key
    decreases |ops|
  {
    hide SealedOk, PutTx, RemoveTx;
    if ops != [] {
      match ops[0] {
        case Put(team, values, faults) =>
          PutKeepsSealed(limits, disk, team, values, faults);
          PutKeepsKey(limits, disk, team, values, faults);
        case Remove(removal, write) =>
          RemoveKeepsSealed(limits, disk, removal, write);
          RemoveKeepsKey(limits, disk, removal, write);
      }
      RunKeepsSealed(limits, Apply(limits, disk, ops[0]), ops[1..]);
    }
  }

  lemma PutKeepsKey(limits: Limits, disk: Disk, team: string, values: map<string, map<string, Value>>, faults: Faults)
    ensures disk.key.Some? ==> PutTx(limits, disk, team, values, faults).0.key == disk.key
  {
  }

  lemma RemoveKeepsKey(limits: Limits, disk: Disk, removal: Removal, write: Write)
    ensures RemoveTx(limits, disk, removal, write).0.key == disk.key
  {
  }

  // ---------------------------------------------------------------- limits

  /** Whatever is removed leaves no Assistant, and not the whole file, with more records than before. */
  lemma RemovedIsSmaller(teams: Teams, removal: Removal, t: string, a: string)
    ensures Slots(Removed(teams, removal)) <= Slots(teams)
    ensures Get(Get(Removed(teams, removal), t), a).Keys <= Get(Get(teams, t), a).Keys
  {
    var after := Removed(teams, removal);
    forall slot | slot in Slots(after)
      ensures slot in Slots(teams)
    {
      RemovedKeepsRecords(teams, removal, slot);
      assert At(after, slot).Some?;
    }
    forall i | i in Get(Get(after, t), a)
      ensures i in Get(Get(teams, t), a)
    {
      RemovedKeepsRecords(teams, removal, Slot(t, a, i));
      assert At(after, Slot(t, a, i)).Some?;
    }
  }

  /** At most so many records for each Assistant, and so many in the file. */
  ghost predicate WithinBoth(limits: Limits, teams: Teams) {
    && (forall t, a :: |Get(Get(teams, t), a)| <= limits.perAssistant)
    && |set slot | slot in Slots(teams)| <= limits.total
  }

  lemma LimitsAreBoth(limits: Limits, teams: Teams)
    ensures WithinLimits(limits, teams) <==> WithinBoth(limits, teams)
  {
    assert Slots(teams) == set slot | slot in Slots(teams);
    if WithinBoth(limits, teams) {
      forall t, a | t in teams && a in teams[t]
        ensures |teams[t][a]| <= limits.perAssistant
      {
        assert Get(Get(teams, t), a) == teams[t][a];
      }
    }
  }

  lemma RemovalKeepsLimits(limits: Limits, teams: Teams, removal: Removal)
    requires WithinBoth(limits, teams)
    ensures WithinBoth(limits, Removed(teams, removal))
  {
    hide Removed, Slots, Get;
    var after := Removed(teams, removal);
    assert (set slot | slot in Slots(after)) == Slots(after) && (set slot | slot in Slots(teams)) == Slots(teams);
    RemovedIsSmaller(teams, removal, "", "");
    Sets.SubsetSize(Slots(after), Slots(teams));
    forall t, a
      ensures |Get(Get(after, t), a)| <= limits.perAssistant
    {
      RemovedIsSmaller(teams, removal, t, a);
      Sets.FewerKeys(Get(Get(after, t), a), Get(Get(teams, t), a));
    }
  }

  /** In every reachable durable state both limits hold. */
  lemma {:induction false} RunKeepsLimits(limits: Limits, disk: Disk, ops: seq<Op>)
    requires WithinBoth(limits, disk.teams)
    ensures WithinBoth(limits, Run(limits, disk, ops).teams)
    decreases |ops|
  {
    hide WithinBoth, WithinLimits, Removed, PutAll, KeyTx, HasRecords;
    if ops != [] {
      match ops[0] {
        case Put(team, values, faults) =>
          var key := KeyTx(disk.key, !HasRecords(disk.teams), faults.random, faults.keyWrite).1;
          if key.Success? {
            LimitsAreBoth(limits, PutAll(key.value, disk.teams, team, values));
          }
        case Remove(removal, _) => RemovalKeepsLimits(limits, disk.teams, removal);
      }
      RunKeepsLimits(limits, Apply(limits, disk, ops[0]), ops[1..]);
    }
  }

  /** A put succeeds exactly with a key, within both limits, if its state write is acknowledged. */
  lemma PutIsExact(limits: Limits, disk: Disk, team: string, values: map<string, map<string, Value>>, faults: Faults)
    ensures var (after, r) := PutTx(limits, disk, team, values, faults);
            var first := forall t, a :: t in disk.teams && a in disk.teams[t] ==> disk.teams[t][a] == map[];
            var key := if disk.key.Some? then disk.key.value else faults.random;
            var teams := PutAll(key, disk.teams, team, values);
            && (r.Success? <==>
                 && (disk.key.Some? || (first && faults.keyWrite.Done?))
                 && WithinBoth(limits, teams) && faults.stateWrite.Done?)
            && (r.Success? ==> after == Disk(Some(key), teams))
            && (r == Failure(OverLimit) <==>
                 (disk.key.Some? || (first && faults.keyWrite.Done?)) && !WithinBoth(limits, teams))
            && (r == Failure(FileFailed(KeyUnavailable)) <==> disk.key.None? && !first)
  {
    hide PutAll, WithinLimits, WithinBoth;
    var key := if disk.key.Some? then disk.key.value else faults.random;
    LimitsAreBoth(limits, PutAll(key, disk.teams, team, values));
  }

  // ---------------------------------------------------------------- removals

  predicate Names(removal: Removal, slot: Slot) {
    match removal
    case Retain(team, assistant, declared) => slot.team == team && slot.assistant == assistant && slot.id !in declared
    case Assistant(team, assistant) => slot.team == team && slot.assistant == assistant
    case Team(team) => slot.team == team
    case All => true
  }

  lemma PruningKeepsRecords(teams: Teams, team: string, assistant: string, slot: Slot)
    ensures At(Prune(teams, team, assistant), slot) == At(teams, slot)
  {
    if team in teams {
      var assistants := teams[team];
      var kept := if assistant in assistants && assistants[assistant] == map[] then assistants - {assistant} else assistants;
      EmptyHasNone(kept, slot.assistant);
      assert slot.assistant in assistants && slot.assistant !in kept ==> assistants[slot.assistant] == map[];
    }
  }

  lemma EmptyHasNone<K, V>(m: map<K, V>, k: K)
    ensures k in m ==> m != map[]
  {
  }

  /** A removal takes exactly the records it names. */
  lemma RemovedExactly(teams: Teams, removal: Removal, slot: Slot)
    ensures At(Removed(teams, removal), slot) == if Names(removal, slot) then None else At(teams, slot)
  {
    hide Prune;
    match removal {
      case Retain(team, assistant, declared) =>
        if team in teams && assistant in teams[team] {
          var kept := map i | i in teams[team][assistant] && i in declared :: teams[team][assistant][i];
          PruningKeepsRecords(teams[team := teams[team][assistant := kept]], team, assistant, slot);
        }
      case Assistant(team, assistant) =>
        if team in teams {
          EmptyHasNone(teams[team] - {assistant}, slot.assistant);
        }
      case _ =>
    }
  }

  lemma SameAssistants(a: Teams, b: Teams, t: string)
    requires Pruned(a) && Pruned(b) && t in a && forall slot :: At(a, slot) == At(b, slot)
    ensures t in b && a[t] == b[t]
  {
    PrunedHas(a, b, t);
    PrunedHas(b, a, t);
    hide Pruned;
    forall x | x in a[t]
      ensures a[t][x] == b[t][x]
    {
      forall i: string
        ensures i in a[t][x] <==> i in b[t][x]
        ensures i in a[t][x] ==> a[t][x][i] == b[t][x][i]
      {
        assert At(a, Slot(t, x, i)) == At(b, Slot(t, x, i));
      }
    }
  }

  /** A state without empty levels is determined by its records. */
  lemma SameRecordsSameState(a: Teams, b: Teams)
    requires Pruned(a) && Pruned(b) && forall slot :: At(a, slot) == At(b, slot)
    ensures a == b
  {
    hide Pruned, At;
    forall t | t in a
      ensures t in b && a[t] == b[t]
    {
      SameAssistants(a, b, t);
    }
    forall t | t in b
      ensures t in a
    {
      SameAssistants(b, a, t);
    }
  }

  lemma PrunedHas(a: Teams, b: Teams, t: string)
    requires Pruned(a) && t in a && forall slot :: At(a, slot) == At(b, slot)
    ensures t in b && forall x :: x in a[t] ==> x in b[t]
  {
    forall x | x in a[t]
      ensures t in b && x in b[t]
    {
      var i :| i in a[t][x];
      assert At(a, Slot(t, x, i)) == At(b, Slot(t, x, i));
    }
    var x :| x in a[t];
    assert t in b;
  }

  /**
   A removal that reports success wrote a state without exactly the records it names, and one that reports nothing to
   do found none of them; a failed one did either nothing or everything.
   */
  lemma RemovalIsExact(limits: Limits, disk: Disk, removal: Removal, write: Write)
    requires Pruned(disk.teams) && WithinBoth(limits, disk.teams)
    ensures var (after, r) := RemoveTx(limits, disk, removal, write);
            var found := exists slot :: At(disk.teams, slot).Some? && Names(removal, slot);
            && after.key == disk.key
            && (r == Success(true) <==> found && write.Done?)
            && (r == Success(false) <==> !found)
            && (r == Success(true) ==>
                 forall slot :: At(after.teams, slot) == if Names(removal, slot) then None else At(disk.teams, slot))
            && (r.Failure? ==> after.teams == if write.FailedAfter? then Removed(disk.teams, removal) else disk.teams)
            && (r == Success(false) ==> after == disk)
  {
    hide Removed, At, Pruned, Names, WithinLimits, WithinBoth;
    var teams := Removed(disk.teams, removal);
    RemovedKeepsPruned(disk.teams, removal);
    RemovalKeepsLimits(limits, disk.teams, removal);
    LimitsAreBoth(limits, teams);
    forall slot
      ensures At(teams, slot) == if Names(removal, slot) then None else At(disk.teams, slot)
    {
      RemovedExactly(disk.teams, removal, slot);
    }
    if !(exists slot :: At(disk.teams, slot).Some? && Names(removal, slot)) {
      SameRecordsSameState(teams, disk.teams);
    }
  }

  // ---------------------------------------------------------------- put, resolve, reject

  /** After a successful put, resolving gives exactly the new values, and every other slot is as before. */
  lemma PutThenResolve(
    limits: Limits, disk: Disk, team: string, values: map<string, map<string, Value>>, faults: Faults, slot: Slot)
    requires SealedOk(disk) && Proper(values)
    requires PutTx(limits, disk, team, values, faults).1.Success?
    ensures var after := PutTx(limits, disk, team, values, faults).0;
            ResolveTx(after, slot)
            == if slot.team == team && slot.assistant in values && slot.id in values[slot.assistant]
               then Success(values[slot.assistant][slot.id].plaintext)
               else ResolveTx(disk, slot)
  {
    hide PutAll, HasRecords, Pruned, NewRecord, WithinLimits, At, KeyTx, OpenRecord;
    RecordsNeedKey(disk);
    KeyIsWrittenOnce(disk.key, !HasRecords(disk.teams), faults.random, faults.keyWrite);
    var k := KeyTx(disk.key, !HasRecords(disk.teams), faults.random, faults.keyWrite).1.value;
    PutRecordsAt(k, disk.teams, team, values, slot);
    if slot.team == team && slot.assistant in values && slot.id in values[slot.assistant] {
      NewRecordOpens(k, slot, At(disk.teams, slot), values[slot.assistant][slot.id]);
    }
  }

  /** Every stored value can be resolved. */
  lemma StoredValuesResolve(disk: Disk, slot: Slot)
    requires SealedOk(disk)
    ensures At(disk.teams, slot).Some? <==> ResolveTx(disk, slot).Success?
    ensures At(disk.teams, slot).None? <==> ResolveTx(disk, slot) == Failure(Missing)
  {
  }

  /** New values always change the records: a stored value gets the next generation, even if it is the same. */
  lemma PutAlwaysChanges(key: nat, teams: Teams, team: string, values: map<string, map<string, Value>>)
    requires Proper(values)
    ensures PutAll(key, teams, team, values) != teams
  {
    hide PutAll, At;
    var a :| a in values;
    var i :| i in values[a];
    PutRecordsAt(key, teams, team, values, Slot(team, a, i));
  }

  /**
   What a refused put leaves behind, exactly. The records change only when everything up to the acknowledgement of
   the state write succeeded; a key file stays behind whenever one was created on the way.
   */
  lemma RefusedPutLeavesExactly(
    limits: Limits, disk: Disk, team: string, values: map<string, map<string, Value>>, faults: Faults)
    requires Proper(values) && PutTx(limits, disk, team, values, faults).1.Failure?
    ensures var (after, r) := PutTx(limits, disk, team, values, faults);
            var first := !HasRecords(disk.teams);
            var key := KeyTx(disk.key, first, faults.random, faults.keyWrite).1;
            && (after.teams != disk.teams
                <==> KeyObtained(disk.key, first, faults.keyWrite)
                     && WithinLimits(limits, PutAll(key.value, disk.teams, team, values))
                     && faults.stateWrite.FailedAfter?)
            && (after.teams != disk.teams ==> after.teams == PutAll(key.value, disk.teams, team, values))
            && (after.key != disk.key <==> KeyCreated(disk.key, first, faults.keyWrite))
  {
    hide PutAll, WithinLimits, HasRecords;
    KeyIsWrittenOnce(disk.key, !HasRecords(disk.teams), faults.random, faults.keyWrite);
    var key := KeyTx(disk.key, !HasRecords(disk.teams), faults.random, faults.keyWrite).1;
    if key.Success? {
      PutAlwaysChanges(key.value, disk.teams, team, values);
    }
  }

  /** Two refused puts on an empty disk: one leaves the new record behind, the other a key without any record. */
  lemma RefusedPutsThatLeaveSomething()
    ensures var limits := Limits(16, 4096);
            var values := map["crm" := map["token" := Value("s3cret", [])]];
            var acknowledged := PutTx(limits, Disk(None, map[]), "team", values, Faults(7, Done, FailedAfter));
            var keyOnly := PutTx(limits, Disk(None, map[]), "team", values, Faults(7, Done, FailedBefore));
            && acknowledged.1.Failure? && At(acknowledged.0.teams, Slot("team", "crm", "token")).Some?
            && keyOnly.1.Failure? && keyOnly.0 == Disk(Some(7), map[])
  {
    var values := map["crm" := map["token" := Value("s3cret", [])]];
    var empty: Teams := map[];
    var teams := PutAll(7, empty, "team", values);
    var slot := Slot("team", "crm", "token");
    PutRecordsAt(7, empty, "team", values, slot);
    assert teams.Keys == {"team"} && teams["team"].Keys == {"crm"} && teams["team"]["crm"].Keys == {"token"};
    assert Slots(teams) == {slot};
    assert |teams["team"]["crm"]| == |teams["team"]["crm"].Keys| == 1;
    assert WithinLimits(Limits(16, 4096), teams);
  }

  /** A record copied to another slot, or given another generation or other attributes, does not open. */
  lemma MovedRecordIsRefused(disk: Disk, from: Slot, to: Slot, record: Record)
    requires SealedOk(disk) && At(disk.teams, from) == Some(record)
    ensures forall generation, attributes ::
              OpenRecord(disk.key.value, to, record.(generation := generation, attributes := attributes)).Some?
              <==> to == from && generation == record.generation && attributes == record.attributes
  {
  }
}
