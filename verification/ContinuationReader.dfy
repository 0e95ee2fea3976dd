/**
 The decoder of stored continuations as it runs: each list is read item by item into a growing listing. Every
 method is proved to compute the corresponding function of `ContinuationCodec`.
 */
module ContinuationReader {
  import opened Wrappers
  import opened JsonTree
  import opened PowerJournal
  import opened ChatOrchestrator
  import opened ContinuationCodec
  import Text

  method ReadPowers(j: Json) returns (r: Option<seq<PowerRequest>>)
    ensures r == DecList(j, MAX_POWER_REQUESTS, DecPower)
  {
    hide SafeId, ComponentId, Acceptable;
    if !j.List? || |j.items| > MAX_POWER_REQUESTS {
      return None;
    }
    var powers: seq<PowerRequest> := [];
    for i := 0 to |j.items|
      invariant |powers| == i
      invariant forall k :: 0 <= k < i ==> DecPower(j.items[k]) == Some(powers[k])
    {
      var power := ReadPower(j.items[i]);
      if power.None? {
        return None;
      }
      powers := powers + [power.value];
    }
    Collected(j, MAX_POWER_REQUESTS, DecPower, powers);
    r := Some(powers);
  }

  lemma Collected<T>(j: Json, maximum: nat, dec: Json -> Option<T>, xs: seq<T>)
    requires j.List? && |j.items| <= maximum && |xs| == |j.items|
    requires forall k :: 0 <= k < |xs| ==> dec(j.items[k]) == Some(xs[k])
    ensures DecList(j, maximum, dec) == Some(xs)
  {
    assert forall k :: 0 <= k < |j.items| ==> dec(j.items[k]).Some?;
    assert DecList(j, maximum, dec).value == xs;
  }

  method ReadPower(j: Json) returns (r: Option<PowerRequest>)
    ensures r == DecPower(j)
  {
    if !HasFields(j, {"interrupt_id", "assistant_id", "power", "input"}) {
      return None;
    }
    var f := j.fields;
    var bounded := WithinLimits(f["input"], CONTINUATION_LIMITS);
    if !bounded || !f["input"].Obj? {
      return None;
    }
    if !f["interrupt_id"].Str? || !SafeId(f["interrupt_id"].s) {
      return None;
    }
    if !f["assistant_id"].Str? || !ComponentId(f["assistant_id"].s) || !f["power"].Str? || !ComponentId(f["power"].s) {
      return None;
    }
    r := Some(PowerRequest(f["interrupt_id"].s, f["assistant_id"].s, f["power"].s, f["input"].fields));
  }

  method ReadTurn(j: Json) returns (r: Option<RuntimeTurn>)
    ensures r == DecTurn(j)
  {
    hide DecPower, DecList;
    if !HasFields(j, {"status", "reply", "powers"}) {
      return None;
    }
    var f := j.fields;
    var powers := ReadPowers(f["powers"]);
    if powers.None? || f["status"] !in {Str("completed"), Str("power-required")} || !f["reply"].Str? {
      return None;
    }
    var turn := RuntimeTurn(
      if f["status"] == Str("completed") then TurnCompleted else PowerRequired, f["reply"].s, powers.value);
    r := if TurnOk(turn) then Some(turn) else None;
  }

  method ReadContinuation(j: Json) returns (r: Option<ChatContinuation>)
    ensures r == DecContinuation(j)
  {
    hide DecTurn, DecStrings, SafeId, DecInvoked;
    if !HasFields(j, {"turn", "seen_interrupts", "invoked", "round_index"}) {
      return None;
    }
    var f := j.fields;
    var turn := ReadTurn(f["turn"]);
    var seen := DecStrings(f["seen_interrupts"], MAX_POWER_REQUESTS * 8, SafeId);
    if turn.None? || seen.None? || !Distinct(seen.value) {
      return None;
    }
    if !f["invoked"].List? || |f["invoked"].items| > MAX_INVOKED_POWERS {
      return None;
    }
    var items := f["invoked"].items;
    var invoked: seq<InvokedPower> := [];
    for i := 0 to |items|
      invariant |invoked| == i
      invariant forall k :: 0 <= k < i ==> DecInvoked(items[k]) == Some(invoked[k])
    {
      var entry := DecInvoked(items[i]);
      if entry.None? {
        return None;
      }
      invoked := invoked + [entry.value];
    }
    Collected(f["invoked"], MAX_INVOKED_POWERS, DecInvoked, invoked);
    if !f["round_index"].Int? || !(0 <= f["round_index"].n < MAX_POWER_ROUNDS) {
      return None;
    }
    r := Some(ChatContinuation(turn.value, seen.value, invoked, f["round_index"].n));
  }

  method ReadIdentity(rt: Runtime, j: Json) returns (r: Option<Identity>)
    ensures r == DecIdentity(rt, j)
  {
    hide DecAssistant, DecFile, TextOk, NetworkId, DecInference, Distinct;
    if !HasFields(j, IDENTITY_FIELDS) {
      return None;
    }
    var f := j.fields;
    if !f["team_name"].Str? || !TextOk(rt, f["team_name"].s, 80) {
      return None;
    }
    if !f["network_id"].Str? || !NetworkId(f["network_id"].s) {
      return None;
    }
    if !f["assistants"].List? || |f["assistants"].items| > 16 {
      return None;
    }
    var items := f["assistants"].items;
    var assistants: seq<Assistant> := [];
    for i := 0 to |items|
      invariant |assistants| == i
      invariant forall k :: 0 <= k < i ==> DecAssistant(items[k]) == Some(assistants[k])
    {
      var entry := DecAssistant(items[i]);
      if entry.None? {
        return None;
      }
      assistants := assistants + [entry.value];
    }
    Collected(f["assistants"], 16, DecAssistant, assistants);
    var files := ReadFiles(rt, f["files"]);
    if !Distinct(Ids(assistants)) || files.None? || !Distinct(FileIdsOf(files.value)) {
      return None;
    }
    var inference := DecInference(rt, f["inference"]);
    if inference.None? {
      return None;
    }
    r := Some(Identity(f["team_name"].s, f["network_id"].s, assistants, files.value, inference.value));
  }

  method ReadFiles(rt: Runtime, j: Json) returns (r: Option<seq<FileEntry>>)
    ensures r == DecList(j, 8, i => DecFile(rt, i))
  {
    hide DecFile;
    if !j.List? || |j.items| > 8 {
      return None;
    }
    var files: seq<FileEntry> := [];
    ghost var dec := i => DecFile(rt, i);
    for i := 0 to |j.items|
      invariant |files| == i
      invariant forall k :: 0 <= k < i ==> dec(j.items[k]) == Some(files[k])
    {
      var entry := DecFile(rt, j.items[i]);
      if entry.None? {
        assert dec(j.items[i]).None?;
        return None;
      }
      files := files + [entry.value];
    }
    Collected(j, 8, dec, files);
    r := Some(files);
  }

  method ReadLogs(j: Json) returns (r: Option<seq<AnswerLog>>)
    ensures r == DecList(j, MAX_ANSWER_LOGS, DecLog)
  {
    hide Acceptable, SafeId;
    if !j.List? || |j.items| > MAX_ANSWER_LOGS {
      return None;
    }
    var logs: seq<AnswerLog> := [];
    for i := 0 to |j.items|
      invariant |logs| == i
      invariant forall k :: 0 <= k < i ==> DecLog(j.items[k]) == Some(logs[k])
    {
      var entry := ReadLog(j.items[i]);
      if entry.None? {
        return None;
      }
      logs := logs + [entry.value];
    }
    Collected(j, MAX_ANSWER_LOGS, DecLog, logs);
    r := Some(logs);
  }

  method ReadLog(j: Json) returns (r: Option<AnswerLog>)
    ensures r == DecLog(j)
  {
    hide Acceptable, SafeId;
    if !HasFields(j, {"interrupt_id", "answers"}) {
      return None;
    }
    var f := j.fields;
    if !f["answers"].List? || |f["answers"].items| > 64 {
      return None;
    }
    for i := 0 to |f["answers"].items|
      invariant forall k :: 0 <= k < i ==> Acceptable(f["answers"].items[k], CONTINUATION_LIMITS)
    {
      var bounded := WithinLimits(f["answers"].items[i], CONTINUATION_LIMITS);
      if !bounded {
        return None;
      }
    }
    if !f["interrupt_id"].Str? || !SafeId(f["interrupt_id"].s) {
      return None;
    }
    r := Some(AnswerLog(f["interrupt_id"].s, f["answers"].items));
  }

  method ReadPending(rt: Runtime, j: Json) returns (r: Option<Pending>)
    ensures r == DecPending(rt, j)
  {
    hide DecStrings, DecContinuation, DecIdentity, DecList, DecLog, ComponentId, FileId, Distinct;
    if !HasFields(j, PENDING_FIELDS) {
      return None;
    }
    var f := j.fields;
    var assistantIds := DecStrings(f["assistant_ids"], 16, ComponentId);
    if assistantIds.None? || !Text.Ascending(assistantIds.value) {
      return None;
    }
    var fileIds := DecStrings(f["file_ids"], 8, FileId);
    if fileIds.None? || !Distinct(fileIds.value) {
      return None;
    }
    if !f["provider"].Str? || f["provider"].s !in rt.models {
      return None;
    }
    var logs := ReadLogs(f["answer_logs"]);
    if logs.None? || !Text.Ascending(LogIds(logs.value)) {
      return None;
    }
    var identity := ReadIdentity(rt, f["identity"]);
    if identity.None? || identity.value.inference.provider != f["provider"].s {
      return None;
    }
    var continuation := ReadContinuation(f["continuation"]);
    if continuation.None? {
      return None;
    }
    r := Some(Pending(
      continuation.value, assistantIds.value, fileIds.value, f["provider"].s, identity.value, logs.value));
  }

  method Read(rt: Runtime, stored: Stored) returns (r: Option<Continuation>)
    ensures r == Decode(rt, stored)
  {
    hide DecList, DecPending, DecRequirement, Bindings, KindText;
    if !HasFields(stored.payload, BODY_FIELDS) {
      return None;
    }
    var f := stored.payload.fields;
    if !SchemaOk(f["schema"]) || f["kind"] != Str(KindText(stored.kind)) {
      return None;
    }
    var requirements := DecList(f["requirements"], 64, i => DecRequirement(rt, stored.kind, i));
    if requirements.None? || requirements.value == [] {
      return None;
    }
    var pending := ReadPending(rt, f["pending"]);
    if pending.None? {
      return None;
    }
    var c := Continuation(stored.kind, requirements.value, pending.value);
    r := if Bindings(c) == Some(stored.bindings) then Some(c) else None;
  }
}
