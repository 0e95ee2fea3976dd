/**
 The encrypted store of paused local chats (team/local_chat_continuation_store.py): one record per Team, sealed to
 the Team, the kind of pause, the challenge, the expiry, the generation and the release bindings. Payloads are
 the JSON trees of `ContinuationCodec`; file writes may fail before or after they took effect.
 */
module ContinuationStore {
  import opened Wrappers
  import opened JsonTree
  import Codec = ContinuationCodec
  import Text
  import Sets
  import opened PrivateFiles

  type Kind = Codec.Kind

  datatype Aad = Aad(team: string, kind: Kind, challenge: string, expiresAt: int, generation: nat, bindings: seq<string>)

  datatype Record = Record(
    kind: Kind, challenge: string, expiresAt: int, generation: nat, bindings: seq<string>,
    envelope: Sealed<Aad, Json>)

  datatype Disk = Disk(key: Option<nat>, records: map<string, Record>)

  datatype Resolved = Resolved(team: string, challenge: string, expiresAt: int, generation: nat, stored: Codec.Stored)

  datatype StoreError = InvalidRequest | CapacityReached | FileFailed(cause: FileError) | Unauthentic | NotFound

  datatype Config = Config(
    capacity: nat,
    teamOk: string -> bool,
    challengeOk: string -> bool,
    bindingOk: string -> bool,
    size: Json -> nat,
    stateFits: map<string, Record> -> bool)

  const MAX_TTL_SECONDS := 900
  const MAX_BINDINGS := 64

  datatype PutRequest = PutRequest(
    team: string, kind: Kind, challenge: string, expiresAt: int, bindings: seq<string>, payload: Json)

  function AadOf(team: string, r: Record): Aad {
    Aad(team, r.kind, r.challenge, r.expiresAt, r.generation, r.bindings)
  }

  // ---------------------------------------------------------------- transactions

  predicate BindingsOk(config: Config, bindings: seq<string>) {
    && 0 < |bindings| <= MAX_BINDINGS
    && (forall k :: 0 <= k < |bindings| ==> config.bindingOk(bindings[k]))
    && Codec.Distinct(bindings)
  }

  predicate PutOk(config: Config, q: PutRequest, now: int) {
    && config.teamOk(q.team) && config.challengeOk(q.challenge) && BindingsOk(config, q.bindings)
    && now < q.expiresAt <= now + MAX_TTL_SECONDS
    && 1 <= config.size(q.payload) <= Codec.MAX_PLAINTEXT_BYTES
  }

  function WriteTx(config: Config, disk: Disk, records: map<string, Record>, write: Write)
    : (Disk, Result<(), StoreError>)
  {
    if !config.stateFits(records) then (disk, Failure(FileFailed(Unwritable)))
    else
      (disk.(records := Replaced(disk.records, records, write)),
       if write.Done? then Success(()) else Failure(FileFailed(Unwritable)))
  }

  function NewRecord(key: nat, disk: Disk, q: PutRequest): Record {
    var generation := if q.team in disk.records then disk.records[q.team].generation + 1 else 1;
    var bindings := Text.Sorted(set b | b in q.bindings);
    Record(q.kind, q.challenge, q.expiresAt, generation, bindings,
           Sealed(key, Aad(q.team, q.kind, q.challenge, q.expiresAt, generation, bindings), q.payload))
  }

  function PutTx(config: Config, disk: Disk, q: PutRequest, now: int, faults: Faults)
    : (Disk, Result<Resolved, StoreError>)
  {
    if !PutOk(config, q, now) then (disk, Failure(InvalidRequest))
    else if q.team !in disk.records && |disk.records| >= config.capacity then (disk, Failure(CapacityReached))
    else
      var (file, key) := KeyTx(disk.key, disk.records == map[], faults.random, faults.keyWrite);
      var keyed := disk.(key := file);
      if key.Failure? then (keyed, Failure(FileFailed(key.error)))
      else
        var record := NewRecord(key.value, disk, q);
        var (after, r) := WriteTx(config, keyed, disk.records[q.team := record], faults.stateWrite);
        (after,
         if r.Failure? then Failure(r.error)
         else
           Success(Resolved(q.team, q.challenge, q.expiresAt, record.generation,
                            Codec.Stored(q.kind, record.bindings, q.payload))))
  }

  function Live(records: map<string, Record>, now: int): map<string, Record> {
    map t | t in records && records[t].expiresAt > now :: records[t]
  }

  function ResolveOne(disk: Disk, team: string): Result<Resolved, StoreError>
    requires team in disk.records
  {
    var r := disk.records[team];
    if disk.key.None? then Failure(FileFailed(KeyUnavailable))
    else
      match Open(disk.key.value, AadOf(team, r), r.envelope)
      case None => Failure(Unauthentic)
      case Some(payload) =>
        Success(Resolved(team, r.challenge, r.expiresAt, r.generation, Codec.Stored(r.kind, r.bindings, payload)))
  }

  /** `active`: expired records are removed for good before the others are opened. */
  function ExpireTx(config: Config, disk: Disk, now: int, write: Write): (Disk, Result<(), StoreError>) {
    var live := Live(disk.records, now);
    if live == disk.records then (disk, Success(())) else WriteTx(config, disk, live, write)
  }

  function DeleteTx(config: Config, disk: Disk, team: string, challenge: Option<string>, write: Write)
    : (Disk, Result<bool, StoreError>)
  {
    if !config.teamOk(team) || (challenge.Some? && !config.challengeOk(challenge.value)) then (disk, Failure(InvalidRequest))
    else if team !in disk.records then (disk, Success(false))
    else if challenge.Some? && disk.records[team].challenge != challenge.value then (disk, Failure(NotFound))
    else
      var (after, r) := WriteTx(config, disk, disk.records - {team}, write);
      (after, if r.Failure? then Failure(r.error) else Success(true))
  }

  function ClearTx(config: Config, disk: Disk, write: Write): (Disk, Result<nat, StoreError>) {
    if disk.records == map[] then (disk, Success(0))
    else
      var (after, r) := WriteTx(config, disk, map[], write);
      (after, if r.Failure? then Failure(r.error) else Success(|disk.records|))
  }

  // ---------------------------------------------------------------- the store

  class EncryptedContinuationStore {
    const config: Config
    var key: Option<nat>
    var records: map<string, Record>

    constructor (config: Config)
      ensures this.config == config && OnDisk() == Disk(None, map[])
    {
      this.config := config;
      key, records := None, map[];
    }

    function OnDisk(): Disk
      reads this
    {
      Disk(key, records)
    }

    method WriteState(state: map<string, Record>, write: Write) returns (r: Result<(), StoreError>)
      modifies this`records
      ensures (OnDisk(), r) == WriteTx(config, old(OnDisk()), state, write)
    {
      if !config.stateFits(state) {
        return Failure(FileFailed(Unwritable));
      }
      if !write.FailedBefore? {
        records := state;
      }
      r := if write.Done? then Success(()) else Failure(FileFailed(Unwritable));
    }

    method Put(q: PutRequest, now: int, faults: Faults) returns (r: Result<Resolved, StoreError>)
      modifies this
      ensures (OnDisk(), r) == PutTx(config, old(OnDisk()), q, now, faults)
    {
      if !PutOk(config, q, now) {
        return Failure(InvalidRequest);
      }
      if q.team !in records && |records| >= config.capacity {
        return Failure(CapacityReached);
      }
      if key.None? {
        if records != map[] {
          return Failure(FileFailed(KeyUnavailable));
        }
        if !faults.keyWrite.FailedBefore? {
          key := Some(faults.random);
        }
        if !faults.keyWrite.Done? {
          return Failure(FileFailed(Unwritable));
        }
      }
      var record := NewRecord(key.value, OnDisk(), q);
      var written := WriteState(records[q.team := record], faults.stateWrite);
      if written.Failure? {
        return Failure(written.error);
      }
      r := Success(Resolved(q.team, q.challenge, q.expiresAt, record.generation,
                            Codec.Stored(q.kind, record.bindings, q.payload)));
    }

    method Expire(now: int, write: Write) returns (r: Result<(), StoreError>)
      modifies this`records
      ensures (OnDisk(), r) == ExpireTx(config, old(OnDisk()), now, write)
    {
      var expired := set t | t in records && records[t].expiresAt <= now;
      var state := records;
      var left := expired;
      while left != {}
        invariant left <= expired
        invariant state == records - (expired - left)
        decreases left
      {
        var t :| t in left;
        state := state - {t};
        left := left - {t};
      }
      assert state == Live(records, now);
      if expired == {} {
        assert forall t :: t in records ==> t !in expired;
        return Success(());
      }
      var t :| t in expired;
      assert t !in state;
      r := WriteState(state, write);
    }

    method ResolveAll() returns (r: Result<seq<Resolved>, StoreError>)
      ensures r.Success? ==>
        && |r.value| == |Text.Sorted(records.Keys)|
        && forall k :: 0 <= k < |r.value| ==>
             Text.Sorted(records.Keys)[k] in records
             && ResolveOne(OnDisk(), Text.Sorted(records.Keys)[k]) == Success(r.value[k])
      ensures r.Failure? ==> exists t :: t in records && ResolveOne(OnDisk(), t).Failure?
    {
      hide ResolveOne, Text.Sorted;
      var teams := Text.Sorted(records.Keys);
      var resolved: seq<Resolved> := [];
      for n := 0 to |teams|
        invariant |resolved| == n
        invariant forall k :: 0 <= k < n ==> teams[k] in records && ResolveOne(OnDisk(), teams[k]) == Success(resolved[k])
      {
        assert teams[n] in teams;
        var one := ResolveOne(OnDisk(), teams[n]);
        if one.Failure? {
          return Failure(one.error);
        }
        resolved := resolved + [one.value];
      }
      r := Success(resolved);
    }

    /** All live records in Team order, or the first failure to open one. */
    method Active(now: int, write: Write) returns (r: Result<seq<Resolved>, StoreError>)
      modifies this`records
      ensures OnDisk() == ExpireTx(config, old(OnDisk()), now, write).0
      ensures r.Success? ==>
        && ExpireTx(config, old(OnDisk()), now, write).1.Success?
        && |r.value| == |Text.Sorted(records.Keys)|
        && forall k :: 0 <= k < |r.value| ==>
             Text.Sorted(records.Keys)[k] in records
             && ResolveOne(OnDisk(), Text.Sorted(records.Keys)[k]) == Success(r.value[k])
      ensures r.Success? ==> forall k :: 0 <= k < |r.value| ==> r.value[k].expiresAt > now
      ensures r.Failure? ==>
        || ExpireTx(config, old(OnDisk()), now, write).1.Failure?
        || exists t :: t in records && ResolveOne(OnDisk(), t).Failure?
    {
      hide ResolveOne, Text.Sorted, ExpireTx;
      var expired := Expire(now, write);
      if expired.Failure? {
        return Failure(expired.error);
      }
      ExpiryIsExact(config, old(OnDisk()), now, write);
      r := ResolveAll();
      if r.Success? {
        forall k | 0 <= k < |r.value|
          ensures r.value[k].expiresAt > now
        {
          ResolvedExpiry(OnDisk(), Text.Sorted(records.Keys)[k]);
        }
      }
    }

    static lemma ResolvedExpiry(disk: Disk, team: string)
      requires team in disk.records && ResolveOne(disk, team).Success?
      ensures ResolveOne(disk, team).value.expiresAt == disk.records[team].expiresAt
    {
    }

    method Delete(team: string, challenge: Option<string>, write: Write) returns (r: Result<bool, StoreError>)
      modifies this`records
      ensures (OnDisk(), r) == DeleteTx(config, old(OnDisk()), team, challenge, write)
    {
      if !config.teamOk(team) || (challenge.Some? && !config.challengeOk(challenge.value)) {
        return Failure(InvalidRequest);
      }
      if team !in records {
        return Success(false);
      }
      if challenge.Some? && records[team].challenge != challenge.value {
        return Failure(NotFound);
      }
      var written := WriteState(records - {team}, write);
      r := if written.Failure? then Failure(written.error) else Success(true);
    }

    method Clear(write: Write) returns (r: Result<nat, StoreError>)
      modifies this`records
      ensures (OnDisk(), r) == ClearTx(config, old(OnDisk()), write)
    {
      var removed := |records|;
      if records == map[] {
        return Success(0);
      }
      var written := WriteState(map[], write);
      r := if written.Failure? then Failure(written.error) else Success(removed);
    }
  }

  // ---------------------------------------------------------------- what every transaction keeps

  ghost predicate SealedOk(config: Config, disk: Disk) {
    && |disk.records| <= config.capacity
    && forall t :: t in disk.records ==>
         && disk.key.Some?
         && disk.records[t].generation >= 1
         && Open(disk.key.value, AadOf(t, disk.records[t]), disk.records[t].envelope).Some?
  }

  /** A record that is put again gets the next generation, so it is never the record that was there. */
  lemma PutAlwaysChanges(key: nat, disk: Disk, q: PutRequest)
    ensures disk.records[q.team := NewRecord(key, disk, q)] != disk.records
  {
    hide Text.Sorted;
    if q.team in disk.records {
      assert NewRecord(key, disk, q).generation != disk.records[q.team].generation;
    }
    assert disk.records[q.team := NewRecord(key, disk, q)][q.team] == NewRecord(key, disk, q);
  }

  /** The request passes every check before the key file is touched. */
  predicate Admissible(config: Config, disk: Disk, q: PutRequest, now: int) {
    PutOk(config, q, now) && (q.team in disk.records || |disk.records| < config.capacity)
  }

  /** What a refused put leaves behind, exactly: of the records, and of the key file. */
  lemma RefusedPutLeavesExactly(config: Config, disk: Disk, q: PutRequest, now: int, faults: Faults)
    requires PutTx(config, disk, q, now, faults).1.Failure?
    ensures var (after, r) := PutTx(config, disk, q, now, faults);
            var first := disk.records == map[];
            var key := KeyTx(disk.key, first, faults.random, faults.keyWrite).1;
            && (after.records != disk.records
                <==> Admissible(config, disk, q, now)
                     && KeyObtained(disk.key, first, faults.keyWrite)
                     && config.stateFits(disk.records[q.team := NewRecord(key.value, disk, q)])
                     && faults.stateWrite.FailedAfter?)
            && (after.key != disk.key
                <==> Admissible(config, disk, q, now) && KeyCreated(disk.key, first, faults.keyWrite))
  {
    hide PutOk, NewRecord;
    KeyIsWrittenOnce(disk.key, disk.records == map[], faults.random, faults.keyWrite);
    var key := KeyTx(disk.key, disk.records == map[], faults.random, faults.keyWrite).1;
    if key.Success? {
      PutAlwaysChanges(key.value, disk, q);
    }
  }

  /** Two refused puts on an empty disk: one leaves the new record behind, the other a key without any record. */
  lemma RefusedPutsThatLeaveSomething()
    ensures var config := Config(32, _ => true, _ => true, _ => true, _ => 1, _ => true);
            var q := PutRequest("team", Codec.Input, "c", 60, ["b"], Null);
            var acknowledged := PutTx(config, Disk(None, map[]), q, 0, Faults(7, Done, FailedAfter));
            var keyOnly := PutTx(config, Disk(None, map[]), q, 0, Faults(7, Done, FailedBefore));
            && acknowledged.1.Failure? && "team" in acknowledged.0.records
            && keyOnly.1.Failure? && keyOnly.0 == Disk(Some(7), map[])
  {
    hide NewRecord;
  }

  datatype Op =
    | PutOp(request: PutRequest, now: int, faults: Faults)
    | ExpireOp(now: int, write: Write)
    | DeleteOp(team: string, challenge: Option<string>, write: Write)
    | ClearOp(write: Write)

  function Apply(config: Config, disk: Disk, op: Op): Disk {
    match op
    case PutOp(q, now, faults) => PutTx(config, disk, q, now, faults).0
    case ExpireOp(now, write) => ExpireTx(config, disk, now, write).0
    case DeleteOp(team, challenge, write) => DeleteTx(config, disk, team, challenge, write).0
    case ClearOp(write) => ClearTx(config, disk, write).0
  }

  lemma PutKeepsSealed(config: Config, disk: Disk, q: PutRequest, now: int, faults: Faults)
    requires SealedOk(config, disk)
    ensures SealedOk(config, PutTx(config, disk, q, now, faults).0)
    ensures disk.key.Some? ==> PutTx(config, disk, q, now, faults).0.key == disk.key
  {
    hide PutOk, Text.Sorted;
  }

  lemma FewerKeepsSealed(config: Config, disk: Disk, records: map<string, Record>)
    requires SealedOk(config, disk)
    requires records.Keys <= disk.records.Keys && forall t :: t in records ==> records[t] == disk.records[t]
    ensures SealedOk(config, disk.(records := records))
  {
    Sets.FewerKeys(records, disk.records);
  }

  /** What an expiry, a deletion or a clearing leaves if it is written. */
  function Target(disk: Disk, op: Op): map<string, Record> {
    match op
    case ExpireOp(now, _) => Live(disk.records, now)
    case DeleteOp(team, _, _) => disk.records - {team}
    case _ => map[]
  }

  lemma RemovalShape(config: Config, disk: Disk, op: Op)
    requires !op.PutOp?
    ensures Apply(config, disk, op) == disk || Apply(config, disk, op) == disk.(records := Target(disk, op))
    ensures Target(disk, op).Keys <= disk.records.Keys
    ensures forall t :: t in Target(disk, op) ==> Target(disk, op)[t] == disk.records[t]
  {
  }

  /** Every record stays readable with the key it was sealed with, within capacity, whatever fails. */
  lemma StepKeepsSealed(config: Config, disk: Disk, op: Op)
    requires SealedOk(config, disk)
    ensures SealedOk(config, Apply(config, disk, op))
    ensures disk.key.Some? ==> Apply(config, disk, op).key == disk.key
  {
    hide PutTx, ExpireTx, DeleteTx, ClearTx, SealedOk, Target;
    if op.PutOp? {
      PutKeepsSealed(config, disk, op.request, op.now, op.faults);
    } else {
      RemovalShape(config, disk, op);
      FewerKeepsSealed(config, disk, Target(disk, op));
    }
  }

  ghost function Run(config: Config, disk: Disk, ops: seq<Op>): Disk
    decreases |ops|
  {
    if ops == [] then disk else Run(config, Apply(config, disk, ops[0]), ops[1..])
  }

  lemma {:induction false} RunKeepsSealed(config: Config, disk: Disk, ops: seq<Op>)
    requires SealedOk(config, disk)
    ensures SealedOk(config, Run(config, disk, ops))
    ensures disk.key.Some? ==> Run(config, disk, ops).key == disk.key
    decreases |ops|
  {
    hide SealedOk, Apply;
    if ops != [] {
      StepKeepsSealed(config, disk, ops[0]);
      RunKeepsSealed(config, Apply(config, disk, ops[0]), ops[1..]);
    }
  }

  /** The operation neither replaces nor removes the record of this Team. */
  ghost predicate Spares(op: Op, team: string, record: Record) {
    match op
    case PutOp(q, _, _) => q.team != team
    case ExpireOp(now, _) => now < record.expiresAt
    case DeleteOp(t, challenge, _) => t != team || (challenge.Some? && challenge.value != record.challenge)
    case ClearOp(_) => false
  }

  lemma SparedRecordStays(config: Config, disk: Disk, op: Op, team: string)
    requires team in disk.records && Spares(op, team, disk.records[team])
    ensures team in Apply(config, disk, op).records
    ensures Apply(config, disk, op).records[team] == disk.records[team]
  {
    hide PutOk, NewRecord;
  }

  lemma {:induction false} SparedRecordSurvives(config: Config, disk: Disk, ops: seq<Op>, team: string)
    requires team in disk.records
    requires forall k :: 0 <= k < |ops| ==> Spares(ops[k], team, disk.records[team])
    ensures team in Run(config, disk, ops).records
    ensures Run(config, disk, ops).records[team] == disk.records[team]
    decreases |ops|
  {
    hide Apply;
    if ops != [] {
      SparedRecordStays(config, disk, ops[0], team);
      SparedRecordSurvives(config, Apply(config, disk, ops[0]), ops[1..], team);
    }
  }

  // ---------------------------------------------------------------- what may be stored

  /** The request may be stored: named, bound to at least one release, short-lived and neither empty nor too large. */
  ghost predicate Storable(config: Config, q: PutRequest, now: int) {
    && config.teamOk(q.team) && config.challengeOk(q.challenge)
    && q.bindings != [] && |q.bindings| <= 64
    && (forall b :: b in q.bindings ==> config.bindingOk(b))
    && (forall i, j :: 0 <= i < j < |q.bindings| ==> q.bindings[i] != q.bindings[j])
    && q.expiresAt > now && q.expiresAt - now <= 900
    && config.size(q.payload) > 0 && config.size(q.payload) <= Codec.MAX_PLAINTEXT_BYTES
  }

  lemma StorableIsChecked(config: Config, q: PutRequest, now: int)
    ensures PutOk(config, q, now) <==> Storable(config, q, now)
  {
    assert forall k :: 0 <= k < |q.bindings| ==> q.bindings[k] in q.bindings;
  }

  /** A put succeeds exactly for a storable request with room for its Team, a key and an acknowledged write. */
  lemma PutIsExact(config: Config, disk: Disk, q: PutRequest, now: int, faults: Faults)
    ensures var (after, r) := PutTx(config, disk, q, now, faults);
            var room := q.team in disk.records || |disk.records| < config.capacity;
            var keyed := disk.key.Some? || (disk.records == map[] && faults.keyWrite.Done?);
            var key := if disk.key.Some? then disk.key.value else faults.random;
            var records := disk.records[q.team := NewRecord(key, disk, q)];
            && (r.Success? <==>
                 Storable(config, q, now) && room && keyed && config.stateFits(records) && faults.stateWrite.Done?)
            && (r.Success? ==> after == Disk(Some(key), records))
            && (r == Failure(InvalidRequest) <==> !Storable(config, q, now))
            && (r == Failure(CapacityReached) <==> Storable(config, q, now) && !room)
            && (r == Failure(FileFailed(KeyUnavailable)) <==>
                 Storable(config, q, now) && room && disk.key.None? && disk.records != map[])
  {
    hide PutOk, NewRecord, Storable;
    StorableIsChecked(config, q, now);
  }

  /** A new record carries its own next generation and, sealed under all of its metadata, the payload. */
  lemma NewRecordIs(key: nat, disk: Disk, q: PutRequest)
    ensures var record := NewRecord(key, disk, q);
            && record.generation == 1 + (if q.team in disk.records then disk.records[q.team].generation else 0)
            && (record.kind, record.challenge, record.expiresAt) == (q.kind, q.challenge, q.expiresAt)
            && Text.Ascending(record.bindings) && (forall b :: b in record.bindings <==> b in q.bindings)
            && Open(key, AadOf(q.team, record), record.envelope) == Some(q.payload)
  {
  }

  ghost predicate Timely(disk: Disk, now: int) {
    forall t :: t in disk.records ==> disk.records[t].expiresAt <= now + MAX_TTL_SECONDS
  }

  ghost function LatestOf(now: int, ops: seq<Op>): int
    decreases |ops|
  {
    if ops == [] then now
    else LatestOf(if ops[0].PutOp? && ops[0].now > now then ops[0].now else now, ops[1..])
  }

  /** No stored pause outlives the latest clock reading of a put by more than the time limit. */
  lemma {:induction false} RunKeepsTimely(config: Config, disk: Disk, ops: seq<Op>, now: int)
    requires Timely(disk, now)
    ensures Timely(Run(config, disk, ops), LatestOf(now, ops))
    decreases |ops|
  {
    hide Apply;
    if ops != [] {
      var next := if ops[0].PutOp? && ops[0].now > now then ops[0].now else now;
      StepKeepsTimely(config, disk, ops[0], now, next);
      RunKeepsTimely(config, Apply(config, disk, ops[0]), ops[1..], next);
    }
  }

  lemma StepKeepsTimely(config: Config, disk: Disk, op: Op, now: int, next: int)
    requires Timely(disk, now) && next >= now && (op.PutOp? ==> next >= op.now)
    ensures Timely(Apply(config, disk, op), next)
  {
    if op.PutOp? {
      PutShape(config, disk, op.request, op.now, op.faults);
    } else {
      RemovalShape(config, disk, op);
    }
  }

  lemma PutShape(config: Config, disk: Disk, q: PutRequest, now: int, faults: Faults)
    ensures var after := PutTx(config, disk, q, now, faults).0;
            || after.records == disk.records
            || (&& Storable(config, q, now) && after.records.Keys == disk.records.Keys + {q.team}
                && after.records[q.team].expiresAt == q.expiresAt
                && forall t :: t in disk.records && t != q.team ==> after.records[t] == disk.records[t])
  {
    hide Storable, PutOk, Text.Sorted, KeyTx;
    StorableIsChecked(config, q, now);
  }

  // ---------------------------------------------------------------- what goes is gone

  predicate Expired(disk: Disk, team: string, now: int) {
    team in disk.records && disk.records[team].expiresAt <= now
  }

  /** A removal that is reported has happened, and one that is refused happened only if its acknowledgement failed. */
  ghost predicate RemovedExactly(disk: Disk, after: Disk, done: bool, gone: set<string>, write: Write) {
    && after.key == disk.key
    && (done || (gone != {} && write.FailedAfter?) || after == disk)
    && (done || after != disk ==> after.records == disk.records - gone)
  }

  /** After a successful expiry a Team has a record exactly if it had one that is not expired, unchanged. */
  lemma ExpiryIsExact(config: Config, disk: Disk, now: int, write: Write)
    ensures var (after, r) := ExpireTx(config, disk, now, write);
            var gone := set t | t in disk.records && Expired(disk, t, now);
            && RemovedExactly(disk, after, r.Success?, gone, write)
            && (r.Success? <==> gone == {} || (write.Done? && config.stateFits(disk.records - gone)))
            && (r.Success? ==>
                 forall t :: t in after.records <==> t in disk.records && disk.records[t].expiresAt > now)
  {
    var gone := set t | t in disk.records && Expired(disk, t, now);
    assert Live(disk.records, now) == disk.records - gone;
    if gone == {} {
      assert forall t :: t in disk.records ==> t !in gone;
    } else {
      var t :| t in gone;
      assert t !in Live(disk.records, now);
    }
  }

  /** A deletion succeeds exactly for the challenge it names, if any, and then no record of the Team is left. */
  lemma DeletionIsExact(config: Config, disk: Disk, team: string, challenge: Option<string>, write: Write)
    ensures var (after, r) := DeleteTx(config, disk, team, challenge, write);
            var named := config.teamOk(team) && (challenge.Some? ==> config.challengeOk(challenge.value));
            var meant := team in disk.records && (challenge.Some? ==> disk.records[team].challenge == challenge.value);
            && RemovedExactly(disk, after, r == Success(true), {team}, write)
            && (r == Success(true) <==> named && meant && write.Done? && config.stateFits(disk.records - {team}))
            && (r == Success(true) ==> team !in after.records)
            && (r == Success(false) <==> named && team !in disk.records)
            && (r == Failure(NotFound) <==> named && team in disk.records && !meant)
  {
  }

  lemma ClearingIsExact(config: Config, disk: Disk, write: Write)
    ensures var (after, r) := ClearTx(config, disk, write);
            && RemovedExactly(disk, after, r.Success?, disk.records.Keys, write)
            && (r.Success? ==> after.records == map[] && r.value == |disk.records|)
            && (r.Success? <==> disk.records == map[] || (write.Done? && config.stateFits(map[])))
  {
    assert disk.records - disk.records.Keys == map[];
    assert disk.records.Keys == {} <==> disk.records == map[];
  }

  /** Without a put for its Team, a record that is gone never comes back. */
  lemma {:induction false} GoneStaysGone(config: Config, disk: Disk, ops: seq<Op>, team: string)
    requires team !in disk.records
    requires forall k :: 0 <= k < |ops| && ops[k].PutOp? ==> ops[k].request.team != team
    ensures team !in Run(config, disk, ops).records
    decreases |ops|
  {
    hide Apply;
    if ops != [] {
      assert ops[0] in ops;
      OperationAddsOnly(config, disk, ops[0], team);
      GoneStaysGone(config, Apply(config, disk, ops[0]), ops[1..], team);
    }
  }

  lemma OperationAddsOnly(config: Config, disk: Disk, op: Op, team: string)
    requires team !in disk.records && (op.PutOp? ==> op.request.team != team)
    ensures team !in Apply(config, disk, op).records
  {
    hide PutOk, NewRecord;
  }

  /** An expired pause is never resumed: once an expiry succeeded, no later state holds it without a new put. */
  lemma ExpiredNeverReturns(config: Config, disk: Disk, now: int, write: Write, ops: seq<Op>, team: string)
    requires Expired(disk, team, now) && ExpireTx(config, disk, now, write).1.Success?
    requires forall k :: 0 <= k < |ops| && ops[k].PutOp? ==> ops[k].request.team != team
    ensures team !in Run(config, ExpireTx(config, disk, now, write).0, ops).records
  {
    ExpiryIsExact(config, disk, now, write);
    GoneStaysGone(config, ExpireTx(config, disk, now, write).0, ops, team);
  }

  // ---------------------------------------------------------------- a paused turn through the store

  /**
   A pause that was stored is found again, byte for byte, by any later reader of the files, as long as it has not
   expired and was neither replaced nor deleted; and it decodes to the pause that was stored.
   */
  lemma StoredPauseIsRecovered(
    config: Config, rt: Codec.Runtime, disk: Disk, c: Codec.Continuation, q: PutRequest, now: int,
    faults: Faults, ops: seq<Op>)
    requires Codec.RuntimeOk(rt) && SealedOk(config, disk)
    requires Codec.Encode(rt, c).Some? && Codec.WellFormed(rt, c)
    requires q.kind == c.kind && q.bindings == Codec.Encode(rt, c).value.0 && q.payload == Codec.Encode(rt, c).value.1
    requires PutTx(config, disk, q, now, faults).1.Success?
    requires forall k :: 0 <= k < |ops| ==>
      Spares(ops[k], q.team, NewRecord(PutTx(config, disk, q, now, faults).0.key.GetOr(0), disk, q))
    ensures var after := Run(config, PutTx(config, disk, q, now, faults).0, ops);
            && q.team in after.records
            && ResolveOne(after, q.team) == PutTx(config, disk, q, now, faults).1
            && Codec.Decode(rt, ResolveOne(after, q.team).value.stored) == Some(c)
  {
    hide Codec.Encode, Codec.WellFormed, Codec.Decode, PutOk, Codec.RuntimeOk, Text.Sorted, Text.Ascending, Codec.Bindings;
    var put := PutTx(config, disk, q, now, faults).0;
    Codec.RoundTrip(rt, c);
    EncodedBindingsAreSorted(rt, c);
    SparedRecordSurvives(config, put, ops, q.team);
    PutKeepsSealed(config, disk, q, now, faults);
    RunKeepsSealed(config, put, ops);
  }

  lemma EncodedBindingsAreSorted(rt: Codec.Runtime, c: Codec.Continuation)
    requires Codec.Encode(rt, c).Some?
    ensures var bindings := Codec.Encode(rt, c).value.0;
            Text.Sorted(set b | b in bindings) == bindings
  {
    hide Codec.Encodable, Codec.AllBindings, Codec.Body;
    Text.SortedOfMembers(Codec.Bindings(c).value);
  }
}
