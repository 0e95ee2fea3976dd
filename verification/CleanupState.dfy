/**
 The durable authorization to retry an incomplete Team teardown (team/cleanup_state.py): one record per Team,
 created before the first removal and removed after the last. Writes may fail before or after they took effect.
 */
module CleanupState {
  import opened Wrappers
  import opened Formats
  import Files = PrivateFiles
  import Sets

  datatype Record = Record(owner: string, brainId: string, nonce: string, dbDropped: bool)

  type Records = map<string, Record>

  const MAX_RECORDS := 128

  datatype CleanupError = InvalidRecord | Mismatch | CapacityExhausted | Unwritable | ChangedDuringTeardown

  /** A Brain that was never created has the empty id. */
  predicate BrainId(s: string) {
    s == "" || (12 <= |s| <= 64 && LowerHex(s))
  }

  predicate Owner(s: string) {
    |s| <= 256 && forall k :: 0 <= k < |s| ==> s[k] >= ' '
  }

  predicate ValidAnchor(team: string, owner: string, brainId: string, nonce: string) {
    TeamId(team) && Owner(owner) && BrainId(brainId) && |nonce| == 32 && LowerHex(nonce)
  }

  function Written(records: Records, team: string, record: Record, write: Files.Write): Records {
    if write.FailedBefore? then records else records[team := record]
  }

  /** Create the anchor, or return the pending one of the same owner and Brain. */
  function BeginTx(records: Records, team: string, owner: string, brainId: string, nonce: string, write: Files.Write)
    : (Records, Result<Record, CleanupError>)
  {
    if !ValidAnchor(team, owner, brainId, nonce) then (records, Failure(InvalidRecord))
    else if team in records then
      if records[team].owner != owner || records[team].brainId != brainId then (records, Failure(Mismatch))
      else (records, Success(records[team]))
    else if |records| >= MAX_RECORDS then (records, Failure(CapacityExhausted))
    else
      var record := Record(owner, brainId, nonce, false);
      (Written(records, team, record, write), if write.Done? then Success(record) else Failure(Unwritable))
  }

  function MarkTx(records: Records, team: string, record: Record, write: Files.Write)
    : (Records, Result<Record, CleanupError>)
  {
    if team !in records || records[team] != record then (records, Failure(ChangedDuringTeardown))
    else
      var dropped := record.(dbDropped := true);
      (Written(records, team, dropped, write), if write.Done? then Success(dropped) else Failure(Unwritable))
  }

  function FinishTx(records: Records, team: string, record: Record, write: Files.Write)
    : (Records, Result<(), CleanupError>)
  {
    if team !in records then (records, Success(()))
    else if records[team] != record then (records, Failure(ChangedDuringTeardown))
    else
      (if write.FailedBefore? then records else records - {team},
       if write.Done? then Success(()) else Failure(Unwritable))
  }

  class CleanupStore {
    var records: Records

    constructor ()
      ensures records == map[]
    {
      records := map[];
    }

    method Begin(team: string, owner: string, brainId: string, nonce: string, write: Files.Write)
      returns (r: Result<Record, CleanupError>)
      modifies this
      ensures (records, r) == BeginTx(old(records), team, owner, brainId, nonce, write)
    {
      if !ValidAnchor(team, owner, brainId, nonce) {
        return Failure(InvalidRecord);
      }
      if team in records {
        var existing := records[team];
        return if existing.owner != owner || existing.brainId != brainId then Failure(Mismatch) else Success(existing);
      }
      if |records| >= MAX_RECORDS {
        return Failure(CapacityExhausted);
      }
      var record := Record(owner, brainId, nonce, false);
      if !write.FailedBefore? {
        records := records[team := record];
      }
      r := if write.Done? then Success(record) else Failure(Unwritable);
    }

    method MarkDbDropped(team: string, record: Record, write: Files.Write) returns (r: Result<Record, CleanupError>)
      modifies this
      ensures (records, r) == MarkTx(old(records), team, record, write)
    {
      if team !in records || records[team] != record {
        return Failure(ChangedDuringTeardown);
      }
      var dropped := record.(dbDropped := true);
      if !write.FailedBefore? {
        records := records[team := dropped];
      }
      r := if write.Done? then Success(dropped) else Failure(Unwritable);
    }

    method Finish(team: string, record: Record, write: Files.Write) returns (r: Result<(), CleanupError>)
      modifies this
      ensures (records, r) == FinishTx(old(records), team, record, write)
    {
      if team !in records {
        return Success(());
      }
      if records[team] != record {
        return Failure(ChangedDuringTeardown);
      }
      if !write.FailedBefore? {
        records := records - {team};
      }
      r := if write.Done? then Success(()) else Failure(Unwritable);
    }
  }

  // ---------------------------------------------------------------- what each operation does

  /** The records after a write of one of them, which is reported as failed unless it is acknowledged. */
  ghost predicate Wrote(before: Records, after: Records, target: Records, done: bool, write: Files.Write) {
    && (done <==> write.Done?)
    && after == match write case FailedBefore => before case _ => target
  }

  /** A pending anchor is returned to the owner and Brain it was made for, and a new one made while there is room. */
  lemma BeginIsExact(records: Records, team: string, owner: string, brainId: string, nonce: string, write: Files.Write)
    ensures var (after, r) := BeginTx(records, team, owner, brainId, nonce, write);
            var named := TeamId(team) && Owner(owner) && BrainId(brainId) && |nonce| == 32 && LowerHex(nonce);
            var same := team in records && (records[team].owner, records[team].brainId) == (owner, brainId);
            var creates := named && team !in records && |records| < MAX_RECORDS;
            var anchor := Record(owner, brainId, nonce, false);
            && (if creates then Wrote(records, after, records[team := anchor], r == Success(anchor), write)
                else after == records)
            && (r.Success? ==> named && r.value == if team in records then records[team] else anchor)
            && (named && team in records ==> (r.Success? <==> same) && (r == Failure(Mismatch) <==> !same))
            && (r == Failure(InvalidRecord) <==> !named)
            && (r == Failure(CapacityExhausted) <==> named && team !in records && |records| >= MAX_RECORDS)
  {
  }

  /** Only the exact pending record is marked, and only its phase changes. */
  lemma MarkIsExact(records: Records, team: string, record: Record, write: Files.Write)
    ensures var (after, r) := MarkTx(records, team, record, write);
            var dropped := Record(record.owner, record.brainId, record.nonce, true);
            if team in records && records[team] == record
            then Wrote(records, after, records[team := dropped], r == Success(dropped), write)
            else after == records && r == Failure(ChangedDuringTeardown)
  {
  }

  /** Only the exact pending record is removed; one that is gone already counts as removed. */
  lemma FinishIsExact(records: Records, team: string, record: Record, write: Files.Write)
    ensures var (after, r) := FinishTx(records, team, record, write);
            if team !in records then (after, r) == (records, Success(()))
            else if records[team] == record then Wrote(records, after, records - {team}, r.Success?, write)
            else after == records && r == Failure(ChangedDuringTeardown)
  {
  }

  // ---------------------------------------------------------------- runs

  datatype Op =
    | Begin(team: string, owner: string, brainId: string, nonce: string, write: Files.Write)
    | Mark(team: string, record: Record, write: Files.Write)
    | Finish(team: string, record: Record, write: Files.Write)

  function Apply(records: Records, op: Op): Records {
    match op
    case Begin(team, owner, brainId, nonce, write) => BeginTx(records, team, owner, brainId, nonce, write).0
    case Mark(team, record, write) => MarkTx(records, team, record, write).0
    case Finish(team, record, write) => FinishTx(records, team, record, write).0
  }

  function Run(records: Records, ops: seq<Op>): Records
    decreases |ops|
  {
    if ops == [] then records else Run(Apply(records, ops[0]), ops[1..])
  }

  /** Every record can be read back, and there are not too many. */
  ghost predicate RecordsOk(records: Records) {
    && |records| <= MAX_RECORDS
    && forall t :: t in records ==> ValidAnchor(t, records[t].owner, records[t].brainId, records[t].nonce)
  }

  /** A record more while there is room, or another record where one was. */
  lemma RecordKeepsRecords(records: Records, team: string, record: Record)
    requires RecordsOk(records) && ValidAnchor(team, record.owner, record.brainId, record.nonce)
    requires team in records || |records| < MAX_RECORDS
    ensures RecordsOk(records[team := record])
  {
    hide ValidAnchor;
    var after := records[team := record];
    assert after.Keys == records.Keys + {team};
    assert |after| == |after.Keys| && |records| == |records.Keys|;
  }

  lemma RemovalKeepsRecords(records: Records, team: string)
    requires RecordsOk(records)
    ensures RecordsOk(records - {team})
  {
    hide ValidAnchor;
    Sets.FewerKeys(records - {team}, records);
  }

  lemma PendingIsValid(records: Records, team: string)
    requires RecordsOk(records) && team in records
    ensures ValidAnchor(team, records[team].owner, records[team].brainId, records[team].nonce)
  {
  }

  lemma StepKeepsRecords(records: Records, op: Op)
    requires RecordsOk(records)
    ensures RecordsOk(Apply(records, op))
  {
    hide RecordsOk, ValidAnchor;
    match op {
      case Begin(team, owner, brainId, nonce, _) =>
        if ValidAnchor(team, owner, brainId, nonce) && team !in records && |records| < MAX_RECORDS {
          RecordKeepsRecords(records, team, Record(owner, brainId, nonce, false));
        }
      case Mark(team, record, _) =>
        if team in records && records[team] == record {
          PendingIsValid(records, team);
          RecordKeepsRecords(records, team, record.(dbDropped := true));
        }
      case Finish(team, _, _) =>
        RemovalKeepsRecords(records, team);
    }
  }

  lemma {:induction false} RunKeepsRecords(records: Records, ops: seq<Op>)
    requires RecordsOk(records)
    ensures RecordsOk(Run(records, ops))
    decreases |ops|
  {
    hide RecordsOk, Apply;
    if ops != [] {
      StepKeepsRecords(records, ops[0]);
      RunKeepsRecords(Apply(records, ops[0]), ops[1..]);
    }
  }

  /** Until it is finished an anchor keeps its owner, Brain and nonce, and a recorded drop stays recorded. */
  lemma {:induction false} AnchorIsImmutable(records: Records, ops: seq<Op>, team: string)
    requires team in records && forall k :: 0 <= k < |ops| && ops[k].Finish? ==> ops[k].team != team
    ensures team in Run(records, ops)
    ensures var before, after := records[team], Run(records, ops)[team];
            after == before || after == before.(dbDropped := true)
    decreases |ops|
  {
    hide ValidAnchor;
    if ops != [] {
      assert ops[0].Finish? ==> ops[0].team != team;
      AnchorIsImmutable(Apply(records, ops[0]), ops[1..], team);
    }
  }
}
