/**
 The closed codec of encrypted chat continuations (team/local_chat_continuations.py), from values to JSON
 trees and back. Its main result is exact: what decodes is what some well-formed value encodes to.

 JSON text itself is not modelled: a payload is a tree, and `size` gives the length of its encoding.
 */
module ContinuationCodec {
  import opened Wrappers
  import opened JsonTree
  import opened PowerJournal
  import opened ChatOrchestrator
  import opened Formats
  import AutoApproval
  import Text

  type ApprovalRequirement = AutoApproval.ApprovalRequirement

  // ---------------------------------------------------------------- formats

  predicate ComponentId(s: string) {
    |s| <= 80 && PowerId(s)
  }

  predicate FileId(s: string) {
    |s| == 32 && LowerHex(s)
  }

  predicate Visible(s: string) {
    forall k :: 0 <= k < |s| ==> s[k] > ' ' && s[k] != '\U{7f}' && !Text.Whitespace(s[k])
  }

  const DIGEST_MARK := "@sha256:"

  /** A repository reference of 1 to 512 characters pinned to a SHA-256 digest. */
  predicate Image(s: string) {
    var n := |s| - 72;
    && 1 <= n <= 512
    && Visible(s[..n])
    && s[n..n + 8] == DIGEST_MARK
    && LowerHex(s[n + 8..])
  }

  predicate NetworkId(s: string) {
    1 <= |s| <= 256 && Visible(s)
  }

  predicate ContainerId(s: string) {
    && 1 <= |s| <= 256
    && Alphanumeric(s[0])
    && forall k :: 0 <= k < |s| ==> Alphanumeric(s[k]) || s[k] in "_.:-"
  }

  predicate ModelId(s: string) {
    |s| <= 128 && SafeId(s)
  }

  predicate Distinct<T(==)>(s: seq<T>) {
    forall i, j :: 0 <= i < j < |s| ==> s[i] != s[j]
  }

  // ---------------------------------------------------------------- values

  datatype Inference = Inference(provider: string, model: string)

  datatype Assistant = Assistant(id: string, image: string, container: string)

  datatype FileEntry = FileEntry(id: string, name: string, mediaType: string, size: int)

  datatype Identity = Identity(
    teamName: string,
    networkId: string,
    assistants: seq<Assistant>,
    files: seq<FileEntry>,
    inference: Inference)

  datatype AnswerLog = AnswerLog(interruptId: string, answers: seq<Json>)

  datatype Pending = Pending(
    continuation: ChatContinuation,
    assistantIds: seq<string>,
    fileIds: seq<string>,
    provider: string,
    identity: Identity,
    answerLogs: seq<AnswerLog>)

  datatype Account = Account(id: string, provider: string, scopes: seq<string>)

  datatype Secret = Secret(id: string, name: string, summary: string)

  datatype Requirement =
    | NeedsAccounts(assistantId: string, assistantName: string, powerIds: seq<string>, accounts: seq<Account>)
    | NeedsSecrets(assistantId: string, assistantName: string, powerIds: seq<string>, secrets: seq<Secret>)
    | NeedsInput(
        interruptId: string, assistantId: string, powerId: string, image: string, ordinal: int,
        requestType: string, title: string, summary: string, docs: Option<string>, options: seq<string>)
    | NeedsApproval(approval: ApprovalRequirement)

  datatype Kind = Accounts | Secrets | Input | Approval

  datatype Continuation = Continuation(kind: Kind, requirements: seq<Requirement>, pending: Pending)

  /** One decrypted record: the kind and release bindings authenticated with it, and its payload. */
  datatype Stored = Stored(kind: Kind, bindings: seq<string>, payload: Json)

  /** The model catalogue, and the parts of Python's text model that the codec relies on. */
  datatype Runtime = Runtime(
    models: map<string, set<string>>,
    defaultModels: map<string, string>,
    defaultProvider: string,
    lower: string -> string,
    text: Json -> string,
    printable: char -> bool,
    size: Json -> nat)

  const MAX_PLAINTEXT_BYTES := 256 * 1024

  // ---------------------------------------------------------------- lists and objects

  function EncList<T>(xs: seq<T>, enc: T -> Json): Json {
    List(seq(|xs|, k requires 0 <= k < |xs| => enc(xs[k])))
  }

  function DecList<T>(j: Json, maximum: nat, dec: Json -> Option<T>): Option<seq<T>> {
    if !j.List? || |j.items| > maximum then None
    else if exists k :: 0 <= k < |j.items| && dec(j.items[k]).None? then None
    else Some(seq(|j.items|, k requires 0 <= k < |j.items| && dec(j.items[k]).Some? => dec(j.items[k]).value))
  }

  /** A list decodes exactly where its items do. */
  lemma ListExactly<T>(
    j: Json, maximum: nat, dec: Json -> Option<T>, enc: T -> Json, wf: T -> bool, xs: seq<T>)
    requires forall i, x :: dec(i) == Some(x) <==> (wf(x) && i == enc(x))
    ensures DecList(j, maximum, dec) == Some(xs)
       <==> (|xs| <= maximum && (forall k :: 0 <= k < |xs| ==> wf(xs[k])) && j == EncList(xs, enc))
  {
    var whole := DecList(j, maximum, dec);
    if whole == Some(xs) {
      forall k | 0 <= k < |xs|
        ensures wf(xs[k]) && j.items[k] == enc(xs[k])
      {
        assert dec(j.items[k]) == Some(xs[k]);
      }
      assert j.items == EncList(xs, enc).items;
    }
    if |xs| <= maximum && (forall k :: 0 <= k < |xs| ==> wf(xs[k])) && j == EncList(xs, enc) {
      forall k | 0 <= k < |xs|
        ensures dec(j.items[k]) == Some(xs[k])
      {
        assert j.items[k] == enc(xs[k]);
      }
      assert whole.Some?;
      assert whole.value == xs;
    }
  }

  predicate HasFields(j: Json, names: set<string>) {
    j.Obj? && j.fields.Keys == names
  }

  // ---------------------------------------------------------------- texts

  /** `_text`: stripped, printable, not empty and not too long. */
  predicate TextOk(rt: Runtime, s: string, maximum: nat) {
    && 0 < |s| <= maximum
    && Text.Stripped(s)
    && forall k :: 0 <= k < |s| ==> rt.printable(s[k])
  }

  function DecWhere(ok: string -> bool): Json -> Option<string> {
    (j: Json) => if j.Str? && ok(j.s) then Some(j.s) else None
  }

  function DecStrings(j: Json, maximum: nat, ok: string -> bool): Option<seq<string>> {
    DecList(j, maximum, DecWhere(ok))
  }

  function Strings(s: seq<string>): Json {
    EncList(s, (x: string) => Str(x))
  }

  lemma StringsExactly(j: Json, maximum: nat, ok: string -> bool, xs: seq<string>)
    ensures DecStrings(j, maximum, ok) == Some(xs)
       <==> (|xs| <= maximum && (forall k :: 0 <= k < |xs| ==> ok(xs[k])) && j == Strings(xs))
  {
    ListExactly(j, maximum, DecWhere(ok), (x: string) => Str(x), ok, xs);
  }

  // ---------------------------------------------------------------- the Brain's continuation

  function EncPower(p: PowerRequest): Json {
    Obj(map["interrupt_id" := Str(p.interruptId), "assistant_id" := Str(p.assistantId), "power" := Str(p.power),
            "input" := Obj(p.input)])
  }

  ghost predicate PowerWf(p: PowerRequest) {
    && SafeId(p.interruptId) && ComponentId(p.assistantId) && ComponentId(p.power)
    && Acceptable(Obj(p.input), CONTINUATION_LIMITS)
  }

  ghost function DecPower(j: Json): Option<PowerRequest> {
    if !HasFields(j, {"interrupt_id", "assistant_id", "power", "input"}) then None
    else
      var f := j.fields;
      if !Acceptable(f["input"], CONTINUATION_LIMITS) || !f["input"].Obj? then None
      else if !f["interrupt_id"].Str? || !SafeId(f["interrupt_id"].s) then None
      else if !f["assistant_id"].Str? || !ComponentId(f["assistant_id"].s) then None
      else if !f["power"].Str? || !ComponentId(f["power"].s) then None
      else Some(PowerRequest(f["interrupt_id"].s, f["assistant_id"].s, f["power"].s, f["input"].fields))
  }

  lemma PowerExactly(j: Json, p: PowerRequest)
    ensures DecPower(j) == Some(p) <==> (PowerWf(p) && j == EncPower(p))
  {
  }

  function StatusText(status: TurnStatus): string {
    match status
    case TurnCompleted => "completed"
    case PowerRequired => "power-required"
  }

  function EncTurn(t: RuntimeTurn): Json {
    Obj(map["status" := Str(StatusText(t.status)), "reply" := Str(t.reply), "powers" := EncList(t.powers, EncPower)])
  }

  ghost predicate TurnWf(t: RuntimeTurn) {
    TurnOk(t) && forall k :: 0 <= k < |t.powers| ==> PowerWf(t.powers[k])
  }

  ghost function DecTurn(j: Json): Option<RuntimeTurn> {
    if !HasFields(j, {"status", "reply", "powers"}) then None
    else
      var f := j.fields;
      match DecList(f["powers"], MAX_POWER_REQUESTS, DecPower)
      case None => None
      case Some(powers) =>
        if f["status"] !in {Str("completed"), Str("power-required")} || !f["reply"].Str? then None
        else
          var status := if f["status"] == Str("completed") then TurnCompleted else PowerRequired;
          var turn := RuntimeTurn(status, f["reply"].s, powers);
          if TurnOk(turn) then Some(turn) else None
  }

  lemma PowersExactly(j: Json, maximum: nat, xs: seq<PowerRequest>)
    ensures DecList(j, maximum, DecPower) == Some(xs)
       <==> (|xs| <= maximum && (forall k :: 0 <= k < |xs| ==> PowerWf(xs[k])) && j == EncList(xs, EncPower))
  {
    hide PowerWf, DecPower, EncPower;
    forall i, x
      ensures DecPower(i) == Some(x) <==> (PowerWf(x) && i == EncPower(x))
    {
      PowerExactly(i, x);
    }
    ListExactly(j, maximum, DecPower, EncPower, x => PowerWf(x), xs);
  }

  lemma TurnExactly(j: Json, t: RuntimeTurn)
    ensures DecTurn(j) == Some(t) <==> (TurnWf(t) && j == EncTurn(t))
  {
    hide PowerWf, DecList, EncList, WellNamed;
    if HasFields(j, {"status", "reply", "powers"}) {
      PowersExactly(j.fields["powers"], MAX_POWER_REQUESTS, t.powers);
      if DecTurn(j) == Some(t) {
        assert j.fields == EncTurn(t).fields;
      }
    }
  }

  function EncInvoked(i: InvokedPower): Json {
    Obj(map["assistant_id" := Str(i.assistantId), "power" := Str(i.power)])
  }

  predicate InvokedWf(i: InvokedPower) {
    ComponentId(i.assistantId) && ComponentId(i.power)
  }

  function DecInvoked(j: Json): Option<InvokedPower> {
    if !HasFields(j, {"assistant_id", "power"}) then None
    else
      var f := j.fields;
      if !f["assistant_id"].Str? || !ComponentId(f["assistant_id"].s) then None
      else if !f["power"].Str? || !ComponentId(f["power"].s) then None
      else Some(InvokedPower(f["assistant_id"].s, f["power"].s))
  }

  lemma InvokedExactly(j: Json, maximum: nat, xs: seq<InvokedPower>)
    ensures DecList(j, maximum, DecInvoked) == Some(xs)
       <==> (|xs| <= maximum && (forall k :: 0 <= k < |xs| ==> InvokedWf(xs[k])) && j == EncList(xs, EncInvoked))
  {
    hide ComponentId;
    forall i, x
      ensures DecInvoked(i) == Some(x) <==> (InvokedWf(x) && i == EncInvoked(x))
    {
      if DecInvoked(i) == Some(x) {
        assert i.fields == EncInvoked(x).fields;
      }
    }
    ListExactly(j, maximum, DecInvoked, EncInvoked, InvokedWf, xs);
  }

  function EncContinuation(c: ChatContinuation): Json {
    Obj(map["turn" := EncTurn(c.turn), "seen_interrupts" := Strings(c.seenInterrupts),
            "invoked" := EncList(c.invoked, EncInvoked), "round_index" := Int(c.roundIndex)])
  }

  const MAX_INVOKED_POWERS := 512

  ghost predicate ContinuationWf(c: ChatContinuation) {
    && TurnWf(c.turn)
    && |c.seenInterrupts| <= MAX_POWER_REQUESTS * 8
    && (forall k :: 0 <= k < |c.seenInterrupts| ==> SafeId(c.seenInterrupts[k]))
    && Distinct(c.seenInterrupts)
    && |c.invoked| <= MAX_INVOKED_POWERS
    && (forall k :: 0 <= k < |c.invoked| ==> InvokedWf(c.invoked[k]))
    && c.roundIndex < MAX_POWER_ROUNDS
  }

  ghost function DecContinuation(j: Json): Option<ChatContinuation> {
    if !HasFields(j, {"turn", "seen_interrupts", "invoked", "round_index"}) then None
    else
      var f := j.fields;
      var turn := DecTurn(f["turn"]);
      var seen := DecStrings(f["seen_interrupts"], MAX_POWER_REQUESTS * 8, SafeId);
      var invoked := DecList(f["invoked"], MAX_INVOKED_POWERS, DecInvoked);
      if turn.None? || seen.None? || invoked.None? || !Distinct(seen.value) then None
      else if !f["round_index"].Int? || !(0 <= f["round_index"].n < MAX_POWER_ROUNDS) then None
      else Some(ChatContinuation(turn.value, seen.value, invoked.value, f["round_index"].n))
  }

  lemma ContinuationExactly(j: Json, c: ChatContinuation)
    ensures DecContinuation(j) == Some(c) <==> (ContinuationWf(c) && j == EncContinuation(c))
  {
    hide SafeId, InvokedWf, TurnWf, DecTurn, EncTurn, DecStrings, Strings, DecList, EncList, Distinct;
    if HasFields(j, {"turn", "seen_interrupts", "invoked", "round_index"}) {
      TurnExactly(j.fields["turn"], c.turn);
      StringsExactly(j.fields["seen_interrupts"], MAX_POWER_REQUESTS * 8, SafeId, c.seenInterrupts);
      InvokedExactly(j.fields["invoked"], MAX_INVOKED_POWERS, c.invoked);
      if DecContinuation(j) == Some(c) {
        assert j.fields == EncContinuation(c).fields;
      }
    }
  }

  // ---------------------------------------------------------------- the Team's identity

  function StripLeft(s: string): string {
    if s != "" && Text.Whitespace(s[0]) then StripLeft(s[1..]) else s
  }

  function StripRight(s: string): string {
    if s != "" && Text.Whitespace(s[|s| - 1]) then StripRight(s[..|s| - 1]) else s
  }

  function Strip(s: string): string {
    StripRight(StripLeft(s))
  }

  predicate Truthy(j: Json) {
    match j
    case Null => false
    case Bool(b) => b
    case Int(n) => n != 0
    case Float(r) => r != 0.0
    case Str(s) => s != ""
    case List(items) => items != []
    case Obj(fields) => fields != map[]
  }

  /** `inference_config.normalize`: trims, lower-cases and fills in defaults before it checks. */
  function Normalize(rt: Runtime, provider: Json, model: Json): Option<Inference> {
    var selected := rt.lower(Strip(if Truthy(provider) then rt.text(provider) else rt.defaultProvider));
    if selected !in rt.models || selected !in rt.defaultModels then None
    else
      var chosen := Strip(if Truthy(model) then rt.text(model) else rt.defaultModels[selected]);
      if !ModelId(chosen) || chosen !in rt.models[selected] then None
      else Some(Inference(selected, chosen))
  }

  predicate Canonical(rt: Runtime, c: Inference) {
    Normalize(rt, Str(c.provider), Str(c.model)) == Some(c)
  }

  /** Provider ids are lower-case and trimmed, and the text of a JSON string is that string. */
  ghost predicate RuntimeOk(rt: Runtime) {
    && (forall s :: rt.text(Str(s)) == s)
    && forall p :: p in rt.models ==> p != "" && Text.Stripped(p) && rt.lower(p) == p
  }

  lemma StrippedIsFixed(s: string)
    requires Text.Stripped(s)
    ensures Strip(s) == s
  {
  }

  lemma ModelsAreStripped(s: string)
    requires ModelId(s)
    ensures s != "" && Text.Stripped(s)
  {
  }

  lemma NormalizedIsCanonical(rt: Runtime, provider: Json, model: Json)
    requires RuntimeOk(rt) && Normalize(rt, provider, model).Some?
    ensures Canonical(rt, Normalize(rt, provider, model).value)
  {
    hide SafeId;
    var c := Normalize(rt, provider, model).value;
    ModelsAreStripped(c.model);
    StrippedIsFixed(c.provider);
    StrippedIsFixed(c.model);
    assert rt.text(Str(c.provider)) == c.provider && rt.text(Str(c.model)) == c.model;
  }

  function EncAssistant(a: Assistant): Json {
    List([Str(a.id), Str(a.image), Str(a.container)])
  }

  predicate AssistantWf(a: Assistant) {
    ComponentId(a.id) && Image(a.image) && ContainerId(a.container)
  }

  function DecAssistant(j: Json): Option<Assistant> {
    if !j.List? || |j.items| != 3 || !j.items[0].Str? || !j.items[1].Str? || !j.items[2].Str? then None
    else
      var a := Assistant(j.items[0].s, j.items[1].s, j.items[2].s);
      if AssistantWf(a) then Some(a) else None
  }

  lemma AssistantsExactly(j: Json, maximum: nat, xs: seq<Assistant>)
    ensures DecList(j, maximum, DecAssistant) == Some(xs)
       <==> (|xs| <= maximum && (forall k :: 0 <= k < |xs| ==> AssistantWf(xs[k])) && j == EncList(xs, EncAssistant))
  {
    hide AssistantWf;
    ListExactly(j, maximum, DecAssistant, EncAssistant, AssistantWf, xs);
  }

  function EncFile(e: FileEntry): Json {
    Obj(map["id" := Str(e.id), "name" := Str(e.name), "media_type" := Str(e.mediaType), "size" := Int(e.size)])
  }

  const MAX_FILE_SIZE := 0x1F_FFFF_FFFF_FFFF

  predicate FileWf(rt: Runtime, e: FileEntry) {
    && FileId(e.id)
    && TextOk(rt, e.name, 255) && e.name !in {".", ".."}
    && 1 <= |e.mediaType| <= 127
    && 0 <= e.size <= MAX_FILE_SIZE
  }

  function DecFile(rt: Runtime, j: Json): Option<FileEntry> {
    if !HasFields(j, {"id", "name", "media_type", "size"}) then None
    else
      var f := j.fields;
      if !f["id"].Str? || !f["name"].Str? || !f["media_type"].Str? || !f["size"].Int? then None
      else
        var e := FileEntry(f["id"].s, f["name"].s, f["media_type"].s, f["size"].n);
        if FileWf(rt, e) then Some(e) else None
  }

  lemma FilesExactly(rt: Runtime, j: Json, maximum: nat, xs: seq<FileEntry>)
    ensures DecList(j, maximum, i => DecFile(rt, i)) == Some(xs)
       <==> (|xs| <= maximum && (forall k :: 0 <= k < |xs| ==> FileWf(rt, xs[k])) && j == EncList(xs, EncFile))
  {
    hide FileWf;
    forall i, x
      ensures DecFile(rt, i) == Some(x) <==> (FileWf(rt, x) && i == EncFile(x))
    {
      if DecFile(rt, i) == Some(x) {
        assert i.fields == EncFile(x).fields;
      }
    }
    ListExactly(j, maximum, i => DecFile(rt, i), EncFile, e => FileWf(rt, e), xs);
  }

  function Ids(assistants: seq<Assistant>): seq<string> {
    seq(|assistants|, k requires 0 <= k < |assistants| => assistants[k].id)
  }

  function FileIdsOf(files: seq<FileEntry>): seq<string> {
    seq(|files|, k requires 0 <= k < |files| => files[k].id)
  }

  /** The provider and model as written; `Encode` writes the normalized ones. */
  datatype Written = Written(schema: Json, provider: Json, model: Json)

  const IDENTITY_FIELDS := {"team_name", "network_id", "assistants", "files", "inference"}

  function EncIdentity(id: Identity, written: Written): Json {
    Obj(map["team_name" := Str(id.teamName), "network_id" := Str(id.networkId),
            "assistants" := EncList(id.assistants, EncAssistant), "files" := EncList(id.files, EncFile),
            "inference" := EncInference(written)])
  }

  function EncInference(written: Written): Json {
    Obj(map["provider" := written.provider, "model" := written.model])
  }

  function DecInference(rt: Runtime, j: Json): Option<Inference> {
    if HasFields(j, {"provider", "model"}) then Normalize(rt, j.fields["provider"], j.fields["model"]) else None
  }

  lemma InferenceExactly(rt: Runtime, j: Json, c: Inference, schema: Json)
    requires RuntimeOk(rt)
    ensures var written := WrittenAs(j, schema);
            DecInference(rt, j) == Some(c) <==> (Canonical(rt, c) && Writes(rt, written, c) && j == EncInference(written))
  {
    hide Normalize, Canonical, RuntimeOk;
    var written := WrittenAs(j, schema);
    if DecInference(rt, j) == Some(c) {
      NormalizedIsCanonical(rt, written.provider, written.model);
      assert j.fields == EncInference(written).fields;
    }
  }

  function WrittenAs(j: Json, schema: Json): Written {
    if HasFields(j, {"provider", "model"}) then Written(schema, j.fields["provider"], j.fields["model"])
    else Written(schema, Null, Null)
  }

  predicate IdentityWf(rt: Runtime, id: Identity) {
    && TextOk(rt, id.teamName, 80)
    && NetworkId(id.networkId)
    && |id.assistants| <= 16 && (forall k :: 0 <= k < |id.assistants| ==> AssistantWf(id.assistants[k]))
    && Distinct(Ids(id.assistants))
    && |id.files| <= 8 && (forall k :: 0 <= k < |id.files| ==> FileWf(rt, id.files[k]))
    && Distinct(FileIdsOf(id.files))
    && Canonical(rt, id.inference)
  }

  function DecIdentity(rt: Runtime, j: Json): Option<Identity> {
    if !HasFields(j, IDENTITY_FIELDS) then None
    else
      var f := j.fields;
      var assistants := DecList(f["assistants"], 16, DecAssistant);
      var files := DecList(f["files"], 8, i => DecFile(rt, i));
      if !f["team_name"].Str? || !TextOk(rt, f["team_name"].s, 80) then None
      else if !f["network_id"].Str? || !NetworkId(f["network_id"].s) then None
      else if assistants.None? || !Distinct(Ids(assistants.value)) then None
      else if files.None? || !Distinct(FileIdsOf(files.value)) then None
      else
        match DecInference(rt, f["inference"])
        case None => None
        case Some(inference) =>
          Some(Identity(f["team_name"].s, f["network_id"].s, assistants.value, files.value, inference))
  }

  ghost predicate Writes(rt: Runtime, written: Written, c: Inference) {
    Normalize(rt, written.provider, written.model) == Some(c)
  }

  /** The names under which a decoded identity was written. */
  function WrittenIn(j: Json, schema: Json): Written {
    WrittenAs(if HasFields(j, IDENTITY_FIELDS) then j.fields["inference"] else Null, schema)
  }

  lemma IdentityExactly(rt: Runtime, j: Json, id: Identity, schema: Json)
    requires RuntimeOk(rt)
    ensures var written := WrittenIn(j, schema);
            DecIdentity(rt, j) == Some(id)
            <==> (IdentityWf(rt, id) && Writes(rt, written, id.inference) && j == EncIdentity(id, written))
  {
    hide TextOk, NetworkId, AssistantWf, FileWf, DecList, EncList, Distinct, DecInference, EncInference, Canonical, RuntimeOk,
      Writes, WrittenAs, DecAssistant, DecFile, EncAssistant, EncFile, Ids, FileIdsOf;
    if HasFields(j, IDENTITY_FIELDS) {
      AssistantsExactly(j.fields["assistants"], 16, id.assistants);
      FilesExactly(rt, j.fields["files"], 8, id.files);
      InferenceExactly(rt, j.fields["inference"], id.inference, schema);
      var written := WrittenIn(j, schema);
      if DecIdentity(rt, j) == Some(id) {
        assert j.fields == EncIdentity(id, written).fields;
      }
    }
  }

  // ---------------------------------------------------------------- the pending turn

  function EncLog(l: AnswerLog): Json {
    Obj(map["interrupt_id" := Str(l.interruptId), "answers" := List(l.answers)])
  }

  ghost predicate LogWf(l: AnswerLog) {
    && SafeId(l.interruptId)
    && |l.answers| <= 64
    && forall k :: 0 <= k < |l.answers| ==> Acceptable(l.answers[k], CONTINUATION_LIMITS)
  }

  ghost function DecLog(j: Json): Option<AnswerLog> {
    if !HasFields(j, {"interrupt_id", "answers"}) then None
    else
      var f := j.fields;
      if !f["answers"].List? || |f["answers"].items| > 64 then None
      else if exists k :: 0 <= k < |f["answers"].items| && !Acceptable(f["answers"].items[k], CONTINUATION_LIMITS) then None
      else if !f["interrupt_id"].Str? || !SafeId(f["interrupt_id"].s) then None
      else Some(AnswerLog(f["interrupt_id"].s, f["answers"].items))
  }

  lemma LogsExactly(j: Json, maximum: nat, xs: seq<AnswerLog>)
    ensures DecList(j, maximum, DecLog) == Some(xs)
       <==> (|xs| <= maximum && (forall k :: 0 <= k < |xs| ==> LogWf(xs[k])) && j == EncList(xs, EncLog))
  {
    hide Acceptable, SafeId;
    forall i, x
      ensures DecLog(i) == Some(x) <==> (LogWf(x) && i == EncLog(x))
    {
      if DecLog(i) == Some(x) {
        assert i.fields == EncLog(x).fields;
      }
    }
    ListExactly(j, maximum, DecLog, EncLog, x => LogWf(x), xs);
  }

  function LogIds(logs: seq<AnswerLog>): seq<string> {
    seq(|logs|, k requires 0 <= k < |logs| => logs[k].interruptId)
  }

  function EncPending(p: Pending, written: Written): Json {
    Obj(map["continuation" := EncContinuation(p.continuation), "assistant_ids" := Strings(p.assistantIds),
            "file_ids" := Strings(p.fileIds), "provider" := Str(p.provider),
            "identity" := EncIdentity(p.identity, written), "answer_logs" := EncList(p.answerLogs, EncLog)])
  }

  const MAX_ANSWER_LOGS := 64

  ghost predicate PendingWf(rt: Runtime, p: Pending) {
    && ContinuationWf(p.continuation)
    && |p.assistantIds| <= 16 && (forall k :: 0 <= k < |p.assistantIds| ==> ComponentId(p.assistantIds[k]))
    && Text.Ascending(p.assistantIds)
    && |p.fileIds| <= 8 && (forall k :: 0 <= k < |p.fileIds| ==> FileId(p.fileIds[k])) && Distinct(p.fileIds)
    && p.provider in rt.models && p.identity.inference.provider == p.provider
    && IdentityWf(rt, p.identity)
    && |p.answerLogs| <= MAX_ANSWER_LOGS && (forall k :: 0 <= k < |p.answerLogs| ==> LogWf(p.answerLogs[k]))
    && Text.Ascending(LogIds(p.answerLogs))
  }

  const PENDING_FIELDS := {"continuation", "assistant_ids", "file_ids", "provider", "identity", "answer_logs"}

  /** A listing is sorted and without repeats exactly when it is strictly ascending. */
  ghost function DecPending(rt: Runtime, j: Json): Option<Pending> {
    if !HasFields(j, PENDING_FIELDS) then None
    else
      var f := j.fields;
      var continuation := DecContinuation(f["continuation"]);
      var assistantIds := DecStrings(f["assistant_ids"], 16, ComponentId);
      var fileIds := DecStrings(f["file_ids"], 8, FileId);
      var identity := DecIdentity(rt, f["identity"]);
      var logs := DecList(f["answer_logs"], MAX_ANSWER_LOGS, DecLog);
      if assistantIds.None? || !Text.Ascending(assistantIds.value) then None
      else if fileIds.None? || !Distinct(fileIds.value) then None
      else if !f["provider"].Str? || f["provider"].s !in rt.models then None
      else if logs.None? || !Text.Ascending(LogIds(logs.value)) then None
      else if identity.None? || identity.value.inference.provider != f["provider"].s then None
      else if continuation.None? then None
      else
        Some(Pending(continuation.value, assistantIds.value, fileIds.value, f["provider"].s, identity.value, logs.value))
  }

  function IdentityIn(j: Json): Json {
    if HasFields(j, PENDING_FIELDS) then j.fields["identity"] else Null
  }

  lemma PendingExactly(rt: Runtime, j: Json, p: Pending, schema: Json)
    requires RuntimeOk(rt)
    ensures var written := WrittenIn(IdentityIn(j), schema);
            DecPending(rt, j) == Some(p)
            <==> (PendingWf(rt, p) && Writes(rt, written, p.identity.inference) && j == EncPending(p, written))
  {
    hide ContinuationWf, DecContinuation, EncContinuation, DecStrings, Strings, ComponentId, FileId, DecIdentity,
      EncIdentity, IdentityWf, DecList, EncList, DecLog, EncLog, LogWf, Distinct, Text.Ascending, LogIds, RuntimeOk,
      Writes, WrittenIn;
    if HasFields(j, PENDING_FIELDS) {
      var f := j.fields;
      ContinuationExactly(f["continuation"], p.continuation);
      StringsExactly(f["assistant_ids"], 16, ComponentId, p.assistantIds);
      StringsExactly(f["file_ids"], 8, FileId, p.fileIds);
      IdentityExactly(rt, f["identity"], p.identity, schema);
      LogsExactly(f["answer_logs"], MAX_ANSWER_LOGS, p.answerLogs);
      if DecPending(rt, j) == Some(p) {
        assert j.fields == EncPending(p, WrittenIn(IdentityIn(j), schema)).fields;
      }
    }
  }

  // ---------------------------------------------------------------- requirements

  /** `_tuple_text`: between 1 and 128 different texts, sorted. */
  predicate ListingOk(rt: Runtime, s: seq<string>, maximum: nat) {
    && 0 < |s| <= 128
    && (forall k :: 0 <= k < |s| ==> TextOk(rt, s[k], maximum))
    && Text.Ascending(s)
  }

  function DecListing(rt: Runtime, j: Json, maximum: nat): Option<seq<string>> {
    match DecStrings(j, 128, s => TextOk(rt, s, maximum))
    case None => None
    case Some(s) => if s != [] && Text.Ascending(s) then Some(s) else None
  }

  lemma ListingExactly(rt: Runtime, j: Json, maximum: nat, s: seq<string>)
    ensures DecListing(rt, j, maximum) == Some(s) <==> (ListingOk(rt, s, maximum) && j == Strings(s))
  {
    hide TextOk, DecStrings, Strings, Text.Ascending;
    StringsExactly(j, 128, t => TextOk(rt, t, maximum), s);
  }

  function EncAccount(a: Account): Json {
    List([Str(a.id), Str(a.provider), Strings(a.scopes)])
  }

  predicate AccountWf(rt: Runtime, a: Account) {
    ComponentId(a.id) && ComponentId(a.provider) && ListingOk(rt, a.scopes, 128)
  }

  function DecAccount(rt: Runtime, j: Json): Option<Account> {
    if !j.List? || |j.items| != 3 then None
    else if !j.items[0].Str? || !ComponentId(j.items[0].s) then None
    else if !j.items[1].Str? || !ComponentId(j.items[1].s) then None
    else
      match DecListing(rt, j.items[2], 128)
      case None => None
      case Some(scopes) => Some(Account(j.items[0].s, j.items[1].s, scopes))
  }

  lemma AccountsExactly(rt: Runtime, j: Json, xs: seq<Account>)
    ensures DecList(j, 16, i => DecAccount(rt, i)) == Some(xs)
       <==> (|xs| <= 16 && (forall k :: 0 <= k < |xs| ==> AccountWf(rt, xs[k])) && j == EncList(xs, EncAccount))
  {
    hide ComponentId, ListingOk, DecListing, Strings;
    forall i, x
      ensures DecAccount(rt, i) == Some(x) <==> (AccountWf(rt, x) && i == EncAccount(x))
    {
      if i.List? && |i.items| == 3 {
        ListingExactly(rt, i.items[2], 128, x.scopes);
      }
    }
    ListExactly(j, 16, i => DecAccount(rt, i), EncAccount, x => AccountWf(rt, x), xs);
  }

  function EncSecret(s: Secret): Json {
    List([Str(s.id), Str(s.name), Str(s.summary)])
  }

  predicate SecretWf(rt: Runtime, s: Secret) {
    ComponentId(s.id) && TextOk(rt, s.name, 80) && TextOk(rt, s.summary, 160)
  }

  function DecSecret(rt: Runtime, j: Json): Option<Secret> {
    if !j.List? || |j.items| != 3 || !j.items[0].Str? || !j.items[1].Str? || !j.items[2].Str? then None
    else
      var s := Secret(j.items[0].s, j.items[1].s, j.items[2].s);
      if SecretWf(rt, s) then Some(s) else None
  }

  lemma SecretsExactly(rt: Runtime, j: Json, xs: seq<Secret>)
    ensures DecList(j, 64, i => DecSecret(rt, i)) == Some(xs)
       <==> (|xs| <= 64 && (forall k :: 0 <= k < |xs| ==> SecretWf(rt, xs[k])) && j == EncList(xs, EncSecret))
  {
    hide SecretWf;
    ListExactly(j, 64, i => DecSecret(rt, i), EncSecret, x => SecretWf(rt, x), xs);
  }

  function EncDocs(docs: Option<string>): Json {
    match docs
    case None => Null
    case Some(s) => Str(s)
  }

  function EncRequirement(r: Requirement): Json {
    match r
    case NeedsAccounts(assistant, name, powers, accounts) =>
      Obj(map["assistant_id" := Str(assistant), "assistant_name" := Str(name), "power_ids" := Strings(powers),
              "accounts" := EncList(accounts, EncAccount)])
    case NeedsSecrets(assistant, name, powers, secrets) =>
      Obj(map["assistant_id" := Str(assistant), "assistant_name" := Str(name), "power_ids" := Strings(powers),
              "secrets" := EncList(secrets, EncSecret)])
    case NeedsInput(_, _, _, _, _, _, _, _, _, _) => Obj(InputFields(r))
    case NeedsApproval(a) => Obj(ApprovalFields(a))
  }

  function InputFields(r: Requirement): (f: map<string, Json>)
    requires r.NeedsInput?
    ensures f.Keys == FieldsOf(Input)
    ensures f["interrupt_id"] == Str(r.interruptId) && f["assistant_id"] == Str(r.assistantId)
    ensures f["power_id"] == Str(r.powerId) && f["assistant_image"] == Str(r.image)
    ensures f["ordinal"] == Int(r.ordinal) && f["request_type"] == Str(r.requestType)
    ensures f["title"] == Str(r.title) && f["summary"] == Str(r.summary)
    ensures f["docs"] == EncDocs(r.docs) && f["options"] == Strings(r.options)
  {
    map["interrupt_id" := Str(r.interruptId), "assistant_id" := Str(r.assistantId), "power_id" := Str(r.powerId),
        "assistant_image" := Str(r.image), "ordinal" := Int(r.ordinal), "request_type" := Str(r.requestType),
        "title" := Str(r.title), "summary" := Str(r.summary), "docs" := EncDocs(r.docs),
        "options" := Strings(r.options)]
  }

  function ApprovalFields(a: ApprovalRequirement): (f: map<string, Json>)
    ensures f.Keys == FieldsOf(Approval)
    ensures f["interrupt_id"] == Str(a.interruptId) && f["assistant_id"] == Str(a.assistantId)
    ensures f["assistant_name"] == Str(a.assistantName) && f["power_id"] == Str(a.powerId)
    ensures f["assistant_image"] == Str(a.assistantImage) && f["ordinal"] == Int(a.ordinal)
    ensures f["title"] == Str(a.title) && f["summary"] == Str(a.summary)
    ensures f["docs"] == EncDocs(a.docs) && f["runs"] == Str(a.runs)
  {
    map["interrupt_id" := Str(a.interruptId), "assistant_id" := Str(a.assistantId),
        "assistant_name" := Str(a.assistantName), "power_id" := Str(a.powerId),
        "assistant_image" := Str(a.assistantImage), "ordinal" := Int(a.ordinal), "title" := Str(a.title),
        "summary" := Str(a.summary), "docs" := EncDocs(a.docs), "runs" := Str(a.runs)]
  }

  predicate DocsOk(rt: Runtime, docs: Option<string>) {
    docs.Some? ==> TextOk(rt, docs.value, 2048)
  }

  const CHOICES := {"choice", "choices"}
  const INPUT_TYPES := {"str", "int", "float", "bool", "choice", "choices"}

  predicate OwnedWf(rt: Runtime, assistant: string, name: string, powers: seq<string>) {
    ComponentId(assistant) && TextOk(rt, name, 80) && ListingOk(rt, powers, 80)
  }

  predicate CallWf(rt: Runtime, interrupt: string, assistant: string, power: string, image: string, ordinal: int) {
    SafeId(interrupt) && ComponentId(assistant) && ComponentId(power) && Image(image) && 0 <= ordinal <= 63
  }

  predicate ShownWf(rt: Runtime, title: string, summary: string, docs: Option<string>) {
    TextOk(rt, title, 80) && TextOk(rt, summary, 240) && DocsOk(rt, docs)
  }

  predicate RequirementWf(rt: Runtime, r: Requirement) {
    match r
    case NeedsAccounts(assistant, name, powers, accounts) =>
      && OwnedWf(rt, assistant, name, powers)
      && 0 < |accounts| <= 16 && forall k :: 0 <= k < |accounts| ==> AccountWf(rt, accounts[k])
    case NeedsSecrets(assistant, name, powers, secrets) =>
      && OwnedWf(rt, assistant, name, powers)
      && 0 < |secrets| <= 64 && forall k :: 0 <= k < |secrets| ==> SecretWf(rt, secrets[k])
    case NeedsInput(interrupt, assistant, power, image, ordinal, requestType, title, summary, docs, options) =>
      && CallWf(rt, interrupt, assistant, power, image, ordinal)
      && ShownWf(rt, title, summary, docs)
      && requestType in INPUT_TYPES
      && |options| <= 64 && (forall k :: 0 <= k < |options| ==> TextOk(rt, options[k], 200)) && Distinct(options)
      && (requestType in CHOICES <==> options != [])
    case NeedsApproval(a) =>
      && CallWf(rt, a.interruptId, a.assistantId, a.powerId, a.assistantImage, a.ordinal)
      && TextOk(rt, a.assistantName, 80)
      && ShownWf(rt, a.title, a.summary, a.docs)
      && a.runs in {"always", "once"}
  }

  predicate AreStrings(f: map<string, Json>, names: set<string>) {
    forall n :: n in names ==> n in f && f[n].Str?
  }

  function DecDocs(j: Json): Option<string>
    requires j.Null? || j.Str?
  {
    if j.Str? then Some(j.s) else None
  }

  function KindOf(r: Requirement): Kind {
    match r
    case NeedsAccounts(_, _, _, _) => Accounts
    case NeedsSecrets(_, _, _, _) => Secrets
    case NeedsInput(_, _, _, _, _, _, _, _, _, _) => Input
    case NeedsApproval(_) => Approval
  }

  function FieldsOf(kind: Kind): set<string> {
    match kind
    case Accounts => {"assistant_id", "assistant_name", "power_ids", "accounts"}
    case Secrets => {"assistant_id", "assistant_name", "power_ids", "secrets"}
    case Input =>
      {"interrupt_id", "assistant_id", "power_id", "assistant_image", "ordinal", "request_type", "title", "summary",
       "docs", "options"}
    case Approval =>
      {"interrupt_id", "assistant_id", "assistant_name", "power_id", "assistant_image", "ordinal", "title", "summary",
       "docs", "runs"}
  }

  /** The four requirement decoders: the closed shape, then every field, then the whole. */
  function DecRequirement(rt: Runtime, kind: Kind, j: Json): Option<Requirement> {
    if !HasFields(j, FieldsOf(kind)) then None
    else
      var built :=
        match kind
        case Accounts => BuildAccounts(rt, j.fields)
        case Secrets => BuildSecrets(rt, j.fields)
        case Input => BuildInput(rt, j.fields)
        case Approval => BuildApproval(j.fields);
      if built.Some? && RequirementWf(rt, built.value) then built else None
  }

  function BuildAccounts(rt: Runtime, f: map<string, Json>): Option<Requirement>
    requires f.Keys == FieldsOf(Accounts)
  {
    var powers := DecListing(rt, f["power_ids"], 80);
    var accounts := DecList(f["accounts"], 16, i => DecAccount(rt, i));
    if !AreStrings(f, {"assistant_id", "assistant_name"}) || powers.None? || accounts.None? then None
    else Some(NeedsAccounts(f["assistant_id"].s, f["assistant_name"].s, powers.value, accounts.value))
  }

  function BuildSecrets(rt: Runtime, f: map<string, Json>): Option<Requirement>
    requires f.Keys == FieldsOf(Secrets)
  {
    var powers := DecListing(rt, f["power_ids"], 80);
    var secrets := DecList(f["secrets"], 64, i => DecSecret(rt, i));
    if !AreStrings(f, {"assistant_id", "assistant_name"}) || powers.None? || secrets.None? then None
    else Some(NeedsSecrets(f["assistant_id"].s, f["assistant_name"].s, powers.value, secrets.value))
  }

  const INPUT_TEXTS := {"interrupt_id", "assistant_id", "power_id", "assistant_image", "request_type", "title", "summary"}

  function BuildInput(rt: Runtime, f: map<string, Json>): Option<Requirement>
    requires f.Keys == FieldsOf(Input)
  {
    var options := DecStrings(f["options"], 64, s => TextOk(rt, s, 200));
    if !AreStrings(f, INPUT_TEXTS) || !f["ordinal"].Int? || options.None? then None
    else if !f["docs"].Null? && !f["docs"].Str? then None
    else
      Some(NeedsInput(f["interrupt_id"].s, f["assistant_id"].s, f["power_id"].s, f["assistant_image"].s,
                      f["ordinal"].n, f["request_type"].s, f["title"].s, f["summary"].s, DecDocs(f["docs"]), options.value))
  }

  const APPROVAL_TEXTS :=
    {"interrupt_id", "assistant_id", "assistant_name", "power_id", "assistant_image", "title", "summary", "runs"}

  function BuildApproval(f: map<string, Json>): Option<Requirement>
    requires f.Keys == FieldsOf(Approval)
  {
    if !AreStrings(f, APPROVAL_TEXTS) || !f["ordinal"].Int? || f["ordinal"].n < 0 then None
    else if !f["docs"].Null? && !f["docs"].Str? then None
    else
      Some(NeedsApproval(AutoApproval.ApprovalRequirement(
        f["interrupt_id"].s, f["assistant_id"].s, f["assistant_name"].s, f["power_id"].s, f["assistant_image"].s,
        f["ordinal"].n, f["title"].s, f["summary"].s, DecDocs(f["docs"]), f["runs"].s)))
  }

  lemma AccountsRequirementExactly(rt: Runtime, j: Json, r: Requirement)
    ensures DecRequirement(rt, Accounts, j) == Some(r)
       <==> (KindOf(r) == Accounts && RequirementWf(rt, r) && j == EncRequirement(r))
  {
    hide OwnedWf, AccountWf, DecListing, ListingOk, Strings, DecList, EncList;
    if HasFields(j, FieldsOf(Accounts)) && r.NeedsAccounts? {
      ListingExactly(rt, j.fields["power_ids"], 80, r.powerIds);
      AccountsExactly(rt, j.fields["accounts"], r.accounts);
      if DecRequirement(rt, Accounts, j) == Some(r) {
        assert j.fields == EncRequirement(r).fields;
      }
      assert OwnedWf(rt, r.assistantId, r.assistantName, r.powerIds) ==> ListingOk(rt, r.powerIds, 80) by {
        OwnedListing(rt, r.assistantId, r.assistantName, r.powerIds);
      }
    }
  }

  lemma OwnedListing(rt: Runtime, assistant: string, name: string, powers: seq<string>)
    ensures OwnedWf(rt, assistant, name, powers) ==> ListingOk(rt, powers, 80)
  {
  }

  lemma SecretsRequirementExactly(rt: Runtime, j: Json, r: Requirement)
    ensures DecRequirement(rt, Secrets, j) == Some(r)
       <==> (KindOf(r) == Secrets && RequirementWf(rt, r) && j == EncRequirement(r))
  {
    hide OwnedWf, SecretWf, DecListing, ListingOk, Strings, DecList, EncList;
    if HasFields(j, FieldsOf(Secrets)) && r.NeedsSecrets? {
      ListingExactly(rt, j.fields["power_ids"], 80, r.powerIds);
      SecretsExactly(rt, j.fields["secrets"], r.secrets);
      if DecRequirement(rt, Secrets, j) == Some(r) {
        assert j.fields == EncRequirement(r).fields;
      }
      assert OwnedWf(rt, r.assistantId, r.assistantName, r.powerIds) ==> ListingOk(rt, r.powerIds, 80) by {
        OwnedListing(rt, r.assistantId, r.assistantName, r.powerIds);
      }
    }
  }

  lemma InputEncodes(rt: Runtime, r: Requirement)
    requires r.NeedsInput? && RequirementWf(rt, r)
    ensures DecRequirement(rt, Input, EncRequirement(r)) == Some(r)
  {
    hide CallWf, ShownWf, TextOk, Strings, DecStrings, Distinct, InputFields, ApprovalFields;
    StringsExactly(EncRequirement(r).fields["options"], 64, s => TextOk(rt, s, 200), r.options);
  }

  lemma InputDecodes(rt: Runtime, j: Json, r: Requirement)
    requires DecRequirement(rt, Input, j) == Some(r)
    ensures r.NeedsInput? && RequirementWf(rt, r) && j == EncRequirement(r)
  {
    hide CallWf, ShownWf, TextOk, Strings, DecStrings, Distinct, InputFields, ApprovalFields;
    StringsExactly(j.fields["options"], 64, s => TextOk(rt, s, 200), r.options);
    assert j.fields == EncRequirement(r).fields;
  }

  lemma InputRequirementExactly(rt: Runtime, j: Json, r: Requirement)
    ensures DecRequirement(rt, Input, j) == Some(r)
       <==> (KindOf(r) == Input && RequirementWf(rt, r) && j == EncRequirement(r))
  {
    hide DecRequirement, RequirementWf, EncRequirement;
    if DecRequirement(rt, Input, j) == Some(r) {
      InputDecodes(rt, j, r);
    }
    if KindOf(r) == Input && RequirementWf(rt, r) && j == EncRequirement(r) {
      InputEncodes(rt, r);
    }
  }

  lemma ApprovalEncodes(rt: Runtime, r: Requirement)
    requires r.NeedsApproval? && RequirementWf(rt, r)
    ensures DecRequirement(rt, Approval, EncRequirement(r)) == Some(r)
  {
    hide CallWf, ShownWf, TextOk, InputFields, ApprovalFields;
  }

  lemma ApprovalDecodes(rt: Runtime, j: Json, r: Requirement)
    requires DecRequirement(rt, Approval, j) == Some(r)
    ensures r.NeedsApproval? && RequirementWf(rt, r) && j == EncRequirement(r)
  {
    hide CallWf, ShownWf, TextOk, InputFields, ApprovalFields;
    assert j.fields == EncRequirement(r).fields;
  }

  lemma ApprovalRequirementExactly(rt: Runtime, j: Json, r: Requirement)
    ensures DecRequirement(rt, Approval, j) == Some(r)
       <==> (KindOf(r) == Approval && RequirementWf(rt, r) && j == EncRequirement(r))
  {
    hide DecRequirement, RequirementWf, EncRequirement;
    if DecRequirement(rt, Approval, j) == Some(r) {
      ApprovalDecodes(rt, j, r);
    }
    if KindOf(r) == Approval && RequirementWf(rt, r) && j == EncRequirement(r) {
      ApprovalEncodes(rt, r);
    }
  }

  lemma RequirementExactly(rt: Runtime, kind: Kind, j: Json, r: Requirement)
    ensures DecRequirement(rt, kind, j) == Some(r)
       <==> (KindOf(r) == kind && RequirementWf(rt, r) && j == EncRequirement(r))
  {
    hide DecRequirement, RequirementWf, EncRequirement;
    match kind
    case Accounts => AccountsRequirementExactly(rt, j, r);
    case Secrets => SecretsRequirementExactly(rt, j, r);
    case Input => InputRequirementExactly(rt, j, r);
    case Approval => ApprovalRequirementExactly(rt, j, r);
  }

  // ---------------------------------------------------------------- release bindings

  function DigitsOf(n: nat): string {
    if n < 10 then ["0123456789"[n]] else DigitsOf(n / 10) + ["0123456789"[n % 10]]
  }

  /** The image each Assistant of the frozen Team identity was running. */
  function Images(assistants: seq<Assistant>): Option<map<string, string>> {
    if assistants == [] then Some(map[])
    else
      var last := assistants[|assistants| - 1];
      match Images(assistants[..|assistants| - 1])
      case None => None
      case Some(images) =>
        if ComponentId(last.id) && Image(last.image) then Some(images[last.id := last.image]) else None
  }

  function CallBinding(
    images: map<string, string>, assistant: string, power: string, image: string, ordinal: int): Option<set<string>>
  {
    if !ComponentId(assistant) || !ComponentId(power) then None
    else if assistant !in images || images[assistant] != image || !(0 <= ordinal <= 63) then None
    else Some({assistant + "/" + power + "/" + image + "/" + DigitsOf(ordinal)})
  }

  function OwnedBindings(images: map<string, string>, assistant: string, powers: seq<string>): Option<set<string>> {
    if !ComponentId(assistant) || assistant !in images then None
    else if exists k :: 0 <= k < |powers| && !ComponentId(powers[k]) then None
    else Some(set k | 0 <= k < |powers| :: assistant + "/" + powers[k] + "/" + images[assistant] + "/-")
  }

  function BindingsOf(images: map<string, string>, r: Requirement): Option<set<string>> {
    match r
    case NeedsAccounts(assistant, _, powers, _) => OwnedBindings(images, assistant, powers)
    case NeedsSecrets(assistant, _, powers, _) => OwnedBindings(images, assistant, powers)
    case NeedsInput(_, assistant, power, image, ordinal, _, _, _, _, _) =>
      CallBinding(images, assistant, power, image, ordinal)
    case NeedsApproval(a) => CallBinding(images, a.assistantId, a.powerId, a.assistantImage, a.ordinal)
  }

  function AllBindings(images: map<string, string>, requirements: seq<Requirement>): Option<set<string>> {
    if requirements == [] then Some({})
    else
      var n := |requirements| - 1;
      var before, last := AllBindings(images, requirements[..n]), BindingsOf(images, requirements[n]);
      if before.None? || last.None? then None else Some(before.value + last.value)
  }

  function Bindings(c: Continuation): Option<seq<string>> {
    var images := Images(c.pending.identity.assistants);
    if images.None? then None
    else
      match AllBindings(images.value, c.requirements)
      case None => None
      case Some(bindings) => Some(Text.Sorted(bindings))
  }

  // ---------------------------------------------------------------- whole payloads

  function KindText(kind: Kind): string {
    match kind
    case Accounts => "accounts"
    case Secrets => "secrets"
    case Input => "input"
    case Approval => "approval"
  }

  function Body(c: Continuation, written: Written): Json {
    Obj(map["schema" := written.schema, "kind" := Str(KindText(c.kind)),
            "requirements" := EncList(c.requirements, EncRequirement), "pending" := EncPending(c.pending, written)])
  }

  /** How `encode` writes the schema number and the inference configuration. */
  function Plainly(c: Continuation): Written {
    Written(Int(1), Str(c.pending.identity.inference.provider), Str(c.pending.identity.inference.model))
  }

  ghost predicate Encodable(rt: Runtime, c: Continuation) {
    && c.requirements != []
    && (forall k :: 0 <= k < |c.requirements| ==>
         KindOf(c.requirements[k]) == c.kind && Acceptable(EncRequirement(c.requirements[k]), CONTINUATION_LIMITS))
    && (forall k :: 0 <= k < |c.pending.continuation.turn.powers| ==>
         Acceptable(Obj(c.pending.continuation.turn.powers[k].input), CONTINUATION_LIMITS))
    && (forall i, k :: 0 <= i < |c.pending.answerLogs| && 0 <= k < |c.pending.answerLogs[i].answers| ==>
         Acceptable(c.pending.answerLogs[i].answers[k], CONTINUATION_LIMITS))
    && Acceptable(EncList(c.pending.identity.files, EncFile), CONTINUATION_LIMITS)
    && 1 <= rt.size(Body(c, Plainly(c))) <= MAX_PLAINTEXT_BYTES
  }

  ghost function Encode(rt: Runtime, c: Continuation): Option<(seq<string>, Json)> {
    if !Encodable(rt, c) || Bindings(c).None? then None else Some((Bindings(c).value, Body(c, Plainly(c))))
  }

  /** Everything the decoder demands of a value. */
  ghost predicate WellFormed(rt: Runtime, c: Continuation) {
    && 0 < |c.requirements| <= 64
    && (forall k :: 0 <= k < |c.requirements| ==>
         KindOf(c.requirements[k]) == c.kind && RequirementWf(rt, c.requirements[k]))
    && PendingWf(rt, c.pending)
  }

  const BODY_FIELDS := {"schema", "kind", "requirements", "pending"}

  /** The values Python compares equal to the schema number 1. */
  predicate SchemaOk(j: Json) {
    j in {Int(1), Float(1.0), Bool(true)}
  }

  ghost function Decode(rt: Runtime, stored: Stored): Option<Continuation> {
    if !HasFields(stored.payload, BODY_FIELDS) then None
    else
      var f := stored.payload.fields;
      if !SchemaOk(f["schema"]) || f["kind"] != Str(KindText(stored.kind)) then None
      else
        var requirements := DecList(f["requirements"], 64, i => DecRequirement(rt, stored.kind, i));
        var pending := DecPending(rt, f["pending"]);
        if requirements.None? || requirements.value == [] || pending.None? then None
        else
          var c := Continuation(stored.kind, requirements.value, pending.value);
          if Bindings(c) == Some(stored.bindings) then Some(c) else None
  }

  lemma RequirementsExactly(rt: Runtime, kind: Kind, j: Json, xs: seq<Requirement>)
    ensures DecList(j, 64, i => DecRequirement(rt, kind, i)) == Some(xs)
       <==> (&& |xs| <= 64
             && (forall k :: 0 <= k < |xs| ==> KindOf(xs[k]) == kind && RequirementWf(rt, xs[k]))
             && j == EncList(xs, EncRequirement))
  {
    hide DecRequirement, RequirementWf, EncRequirement, KindOf;
    forall i, x
      ensures DecRequirement(rt, kind, i) == Some(x)
         <==> (KindOf(x) == kind && RequirementWf(rt, x) && i == EncRequirement(x))
    {
      RequirementExactly(rt, kind, i, x);
    }
    ListExactly(j, 64, i => DecRequirement(rt, kind, i), EncRequirement,
                x => KindOf(x) == kind && RequirementWf(rt, x), xs);
  }

  /** The schema number and the inference configuration as a payload writes them. */
  function WrittenInBody(j: Json): Written {
    if HasFields(j, BODY_FIELDS) then WrittenIn(IdentityIn(j.fields["pending"]), j.fields["schema"])
    else Written(Null, Null, Null)
  }

  ghost predicate Reads(rt: Runtime, written: Written, c: Continuation) {
    SchemaOk(written.schema) && Writes(rt, written, c.pending.identity.inference)
  }

  /**
   A record decodes to a value exactly when that value is well-formed, has the record's kind and release
   bindings, and encodes to the record's payload up to the spelling of the schema number and of the inference
   configuration. So a record has at most one meaning, and every other payload is refused.
   */
  lemma DecodeExactly(rt: Runtime, stored: Stored, c: Continuation)
    requires RuntimeOk(rt)
    ensures Decode(rt, stored) == Some(c)
       <==> (&& c.kind == stored.kind
             && WellFormed(rt, c)
             && Bindings(c) == Some(stored.bindings)
             && Reads(rt, WrittenInBody(stored.payload), c)
             && stored.payload == Body(c, WrittenInBody(stored.payload)))
  {
    hide DecList, EncList, EncRequirement, DecRequirement, RequirementWf, KindOf, DecPending, EncPending, PendingWf,
      Bindings, SchemaOk, Writes, RuntimeOk, IdentityIn, WrittenIn, KindText;
    if HasFields(stored.payload, BODY_FIELDS) {
      var f := stored.payload.fields;
      var written := WrittenInBody(stored.payload);
      RequirementsExactly(rt, stored.kind, f["requirements"], c.requirements);
      PendingExactly(rt, f["pending"], c.pending, f["schema"]);
      WrittenSchema(IdentityIn(f["pending"]), f["schema"]);
      if Decode(rt, stored) == Some(c) {
        assert stored.payload.fields == Body(c, written).fields;
      }
    }
  }

  lemma WrittenSchema(j: Json, schema: Json)
    ensures WrittenIn(j, schema).schema == schema
  {
  }

  /** What was written plainly is read back plainly. */
  lemma PlainlyWritten(c: Continuation)
    ensures WrittenInBody(Body(c, Plainly(c))) == Plainly(c)
  {
    hide EncContinuation, Strings, EncList, EncRequirement;
    var written := Plainly(c);
    assert HasFields(EncIdentity(c.pending.identity, written), IDENTITY_FIELDS);
    assert HasFields(EncPending(c.pending, written), PENDING_FIELDS);
  }

  /** Round trip: what `encode` produces decodes to the same value exactly when the value is well-formed. */
  lemma RoundTrip(rt: Runtime, c: Continuation)
    requires RuntimeOk(rt) && Encode(rt, c).Some?
    ensures var (bindings, payload) := Encode(rt, c).value;
            Decode(rt, Stored(c.kind, bindings, payload)) == Some(c) <==> WellFormed(rt, c)
  {
    hide WellFormed, Encodable, Bindings, Body, Decode, Normalize, Plainly, WrittenInBody;
    var (bindings, payload) := Encode(rt, c).value;
    var stored := Stored(c.kind, bindings, payload);
    DecodeExactly(rt, stored, c);
    PlainlyWritten(c);
    if WellFormed(rt, c) {
      PlainlyReads(rt, c);
    }
  }

  lemma PlainlyReads(rt: Runtime, c: Continuation)
    requires WellFormed(rt, c)
    ensures Reads(rt, Plainly(c), c)
  {
  }

  // ---------------------------------------------------------------- well-formed values always encode

  lemma {:induction false} ItemsBound(items: seq<Json>, bound: nat)
    requires forall k :: 0 <= k < |items| ==> Nodes(items[k]) <= bound
    ensures NodesOfItems(items) <= |items| * bound
  {
    if items != [] {
      ItemsBound(items[..|items| - 1], bound);
      OneMore(|items| - 1, bound);
    }
  }

  lemma {:induction false} FieldsBound(j: Json, keys: set<string>, bound: nat)
    requires j.Obj? && keys <= j.fields.Keys && forall k :: k in keys ==> Nodes(j.fields[k]) <= bound
    ensures NodesOfFields(j, keys) <= |keys| * bound
    decreases keys
  {
    hide Nodes;
    if keys != {} {
      var key := Text.Least(keys);
      var rest := keys - {key};
      FieldsBound(j, rest, bound);
      assert |keys| == |rest| + 1;
      OneMore(|rest|, bound);
    }
  }

  lemma OneMore(n: nat, bound: nat)
    ensures (n + 1) * bound == n * bound + bound
  {
  }

  lemma StringsNodes(s: seq<string>)
    ensures Nodes(Strings(s)) <= 1 + |s| && forall d, m :: d >= 1 ==> WithinShape(Strings(s), d, m)
  {
    var j := Strings(s);
    assert |j.items| == |s|;
    assert forall k :: 0 <= k < |s| ==> j.items[k] == Str(s[k]);
    ItemsBound(j.items, 1);
  }

  lemma TripleNodes(a: Json, b: Json, c: Json)
    ensures Nodes(List([a, b, c])) == 1 + Nodes(a) + Nodes(b) + Nodes(c)
  {
    var items := [a, b, c];
    assert items[..2] == [a, b] && [a, b][..1] == [a] && [a][..0] == [];
    assert NodesOfItems([a]) == Nodes(a);
    assert NodesOfItems([a, b]) == Nodes(a) + Nodes(b);
  }

  /** One large member and small others. */
  lemma ObjectNodes(j: Json, large: string, most: nat, bound: nat)
    requires j.Obj? && large in j.fields && Nodes(j.fields[large]) <= most
    requires forall k :: k in j.fields && k != large ==> Nodes(j.fields[k]) <= bound
    ensures Nodes(j) <= 1 + most + (|j.fields.Keys| - 1) * bound
  {
    FieldsInAnyOrder(j, j.fields.Keys, large);
    FieldsBound(j, j.fields.Keys - {large}, bound);
  }

  lemma AccountListNodes(rt: Runtime, accounts: seq<Account>)
    requires |accounts| <= 16 && forall k :: 0 <= k < |accounts| ==> AccountWf(rt, accounts[k])
    ensures Nodes(EncList(accounts, EncAccount)) <= 2113
    ensures WithinShape(EncList(accounts, EncAccount), 15, Some(128))
  {
    hide ComponentId, TextOk, Text.Ascending;
    var j := EncList(accounts, EncAccount);
    forall k | 0 <= k < |accounts|
      ensures Nodes(j.items[k]) <= 132 && WithinShape(j.items[k], 14, Some(128))
    {
      var a := accounts[k];
      StringsNodes(a.scopes);
      TripleNodes(Str(a.id), Str(a.provider), Strings(a.scopes));
      assert j.items[k] == EncAccount(a);
    }
    ItemsBound(j.items, 132);
  }

  lemma SecretListNodes(secrets: seq<Secret>)
    requires |secrets| <= 64
    ensures Nodes(EncList(secrets, EncSecret)) <= 257
    ensures WithinShape(EncList(secrets, EncSecret), 15, Some(128))
  {
    var j := EncList(secrets, EncSecret);
    forall k | 0 <= k < |secrets|
      ensures Nodes(j.items[k]) <= 4 && WithinShape(j.items[k], 14, Some(128))
    {
      var s := secrets[k];
      TripleNodes(Str(s.id), Str(s.name), Str(s.summary));
      assert j.items[k] == EncSecret(s);
    }
    ItemsBound(j.items, 4);
  }

  lemma InputKeysFit()
    ensures forall k :: k in FieldsOf(Input) ==> |k| <= 128
    ensures |FieldsOf(Input)| <= 10
  {
  }

  lemma ApprovalKeysFit()
    ensures forall k :: k in FieldsOf(Approval) ==> |k| <= 128
    ensures |FieldsOf(Approval)| <= 10
  {
  }

  lemma OwnedFitsBudget(rt: Runtime, r: Requirement)
    requires RequirementWf(rt, r) && (r.NeedsAccounts? || r.NeedsSecrets?)
    ensures Acceptable(EncRequirement(r), CONTINUATION_LIMITS)
  {
    hide CallWf, ShownWf, TextOk, AccountWf, SecretWf, ComponentId, InputFields, ApprovalFields, Strings, EncList,
      Text.Ascending, Distinct, FieldsOf;
    StringsNodes(r.powerIds);
    if r.NeedsAccounts? {
      AccountListNodes(rt, r.accounts);
      OwnedNodes(EncRequirement(r).fields, "assistant_id", "assistant_name", "power_ids", "accounts");
    } else {
      SecretListNodes(r.secrets);
      OwnedNodes(EncRequirement(r).fields, "assistant_id", "assistant_name", "power_ids", "secrets");
    }
  }

  lemma FourAtMost(a: string, b: string, c: string, d: string)
    ensures |{a, b, c, d}| <= 4
  {
  }

  /** An object of four members, one of them large. */
  lemma OwnedNodes(f: map<string, Json>, a: string, b: string, c: string, large: string)
    requires f.Keys == {a, b, c, large}
    requires |a| <= 128 && |b| <= 128 && |c| <= 128 && |large| <= 128
    requires Nodes(f[a]) <= 129 && Nodes(f[b]) <= 129 && Nodes(f[c]) <= 129 && Nodes(f[large]) <= 2113
    requires WithinShape(f[a], 15, Some(128)) && WithinShape(f[b], 15, Some(128))
    requires WithinShape(f[c], 15, Some(128)) && WithinShape(f[large], 15, Some(128))
    ensures Acceptable(Obj(f), CONTINUATION_LIMITS)
  {
    hide Nodes;
    FourAtMost(a, b, c, large);
    ObjectNodes(Obj(f), large, 2113, 129);
  }

  lemma CallFitsBudget(rt: Runtime, r: Requirement)
    requires RequirementWf(rt, r) && (r.NeedsInput? || r.NeedsApproval?)
    ensures Acceptable(EncRequirement(r), CONTINUATION_LIMITS)
  {
    hide CallWf, ShownWf, TextOk, AccountWf, SecretWf, ComponentId, InputFields, ApprovalFields, Strings, EncList,
      Text.Ascending, FieldsOf, Distinct;
    var j := EncRequirement(r);
    if r.NeedsInput? {
      InputKeysFit();
      InputFieldsSmall(r);
      ObjectNodes(j, "options", 65, 65);
    } else {
      ApprovalKeysFit();
      ApprovalFieldsSmall(r.approval);
      ObjectNodes(j, "docs", 1, 1);
    }
  }

  /** The structure budget never refuses a well-formed requirement. */
  lemma RequirementFitsBudget(rt: Runtime, r: Requirement)
    requires RequirementWf(rt, r)
    ensures Acceptable(EncRequirement(r), CONTINUATION_LIMITS)
  {
    hide *;
    if r.NeedsAccounts? || r.NeedsSecrets? {
      OwnedFitsBudget(rt, r);
    } else {
      CallFitsBudget(rt, r);
    }
  }

  lemma InputFieldsSmall(r: Requirement)
    requires r.NeedsInput? && |r.options| <= 64
    ensures "options" in InputFields(r)
    ensures forall k :: k in InputFields(r) ==>
              Nodes(InputFields(r)[k]) <= 65 && WithinShape(InputFields(r)[k], 15, Some(128))
  {
    hide InputFields, Strings;
    StringsNodes(r.options);
  }

  lemma ApprovalFieldsSmall(a: ApprovalRequirement)
    ensures "docs" in ApprovalFields(a)
    ensures forall k :: k in ApprovalFields(a) ==>
              Nodes(ApprovalFields(a)[k]) <= 1 && WithinShape(ApprovalFields(a)[k], 15, Some(128))
  {
  }

  lemma FilesFitBudget(files: seq<FileEntry>)
    requires |files| <= 8
    ensures Acceptable(EncList(files, EncFile), CONTINUATION_LIMITS)
  {
    var j := EncList(files, EncFile);
    forall k | 0 <= k < |files|
      ensures Nodes(j.items[k]) <= 5 && WithinShape(j.items[k], 15, Some(128))
    {
      var e := j.items[k];
      assert e == EncFile(files[k]);
      ObjectNodes(e, "id", 1, 1);
    }
    ItemsBound(j.items, 5);
  }

  /** A well-formed value whose release bindings hold and whose payload fits is always encoded. */
  lemma WellFormedEncodes(rt: Runtime, c: Continuation)
    requires WellFormed(rt, c)
    ensures Encode(rt, c).Some? <==> Bindings(c).Some? && 1 <= rt.size(Body(c, Plainly(c))) <= MAX_PLAINTEXT_BYTES
  {
    hide Acceptable, RequirementWf, EncRequirement, Bindings, Body, EncList, SafeId, ComponentId, Text.Ascending,
      Distinct, FileWf, AssistantWf, Canonical, KindOf, TurnOk;
    forall k | 0 <= k < |c.requirements|
      ensures Acceptable(EncRequirement(c.requirements[k]), CONTINUATION_LIMITS)
    {
      RequirementFitsBudget(rt, c.requirements[k]);
    }
    FilesFitBudget(c.pending.identity.files);
    assert forall k :: 0 <= k < |c.pending.continuation.turn.powers| ==> PowerWf(c.pending.continuation.turn.powers[k]);
    assert forall k :: 0 <= k < |c.pending.answerLogs| ==> LogWf(c.pending.answerLogs[k]);
  }
}
