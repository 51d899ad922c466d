/** The JSON form that `#[derive(Serialize, Deserialize)]` gives the
    front-end payloads of src/protocol.rs: `FrontendCommand`, which the client
    writes into `SendOnChannel`, and `FrontendMessage`, which it reads out of
    `ChannelMessage`. Enums use serde's externally tagged form, structs are
    objects keyed by the Rust field names, and the fields of
    `BuildEventDetails` that are `None` are left out. */
module Serde {
  import opened Wrappers
  import opened Json
  import opened Protocol

  // ----- FrontendCommand -----

  /** Unit variants are written as their bare name, the change request as
      an object keyed by its name. */
  function EncodeCommand(c: FrontendCommand): (r: Json)
    ensures c.ChangeRequest? ==> IsVariant(r, FrontendCommandTag(c))
    ensures !c.ChangeRequest? ==> r == JString(FrontendCommandTag(c))
  {
    match c
    case ChangeRequest(d) => Variant("ChangeRequest", JObject(map["description" := JString(d)]))
    case _ => JString(FrontendCommandTag(c))
  }

  /** A decoded command is the one whose tag the document carries. */
  function DecodeCommand(j: Json): (r: Option<FrontendCommand>)
    ensures r.Some? ==> j == JString(FrontendCommandTag(r.value)) || IsVariant(j, FrontendCommandTag(r.value))
  {
    if IsUnitVariant(j, "StartActor") then Some(FrontendCommand.StartActor)
    else if IsUnitVariant(j, "StopActor") then Some(StopActor)
    else if IsUnitVariant(j, "BuildActor") then Some(BuildActor)
    else if IsUnitVariant(j, "GetStatus") then Some(GetStatus)
    else if IsUnitVariant(j, "Disconnect") then Some(Disconnect)
    else if IsVariant(j, "ChangeRequest") && Content(j, "ChangeRequest").JObject? then
      var d :- Field(Content(j, "ChangeRequest").fields, "description", AsString);
      Some(ChangeRequest(d))
    else None
  }

  /** Every command survives a round trip through its JSON form, the
      description of a change request included. */
  lemma CommandRoundTrip(c: FrontendCommand)
    ensures DecodeCommand(EncodeCommand(c)) == Some(c)
  {
  }

  /** Distinct commands have distinct JSON forms. */
  lemma EncodeCommandInjective(c: FrontendCommand, d: FrontendCommand)
    ensures EncodeCommand(c) == EncodeCommand(d) <==> c == d
  {
    if EncodeCommand(c) == EncodeCommand(d) {
      CommandRoundTrip(c);
      CommandRoundTrip(d);
      assert Some(c) == DecodeCommand(EncodeCommand(d)) == Some(d);
    }
  }

  // ----- enums without fields -----

  function EncodeOperationType(t: OperationType): Json {
    JString(OperationTypeTag(t))
  }

  function DecodeOperationType(j: Json): (r: Option<OperationType>)
    ensures r.Some? ==> IsUnitVariant(j, OperationTypeTag(r.value))
    ensures forall t :: j == EncodeOperationType(t) ==> r == Some(t)
  {
    if IsUnitVariant(j, "Start") then Some(Start)
    else if IsUnitVariant(j, "Stop") then Some(Stop)
    else if IsUnitVariant(j, "Build") then Some(Build)
    else if IsUnitVariant(j, "Change") then Some(Change)
    else None
  }

  function EncodeBuildEventType(t: BuildEventType): Json {
    JString(BuildEventTag(t))
  }

  function DecodeBuildEventType(j: Json): (r: Option<BuildEventType>)
    ensures r.Some? ==> IsUnitVariant(j, BuildEventTag(r.value))
    ensures forall t :: j == EncodeBuildEventType(t) ==> r == Some(t)
  {
    if IsUnitVariant(j, "Log") then Some(BuildEventType.Log)
    else if IsUnitVariant(j, "Progress") then Some(Progress)
    else if IsUnitVariant(j, "CommandStarted") then Some(CommandStarted)
    else if IsUnitVariant(j, "CommandOutput") then Some(CommandOutput)
    else if IsUnitVariant(j, "BuildComplete") then Some(BuildComplete)
    else if IsUnitVariant(j, "FileExtracted") then Some(FileExtracted)
    else None
  }

  // ----- OperationSummary -----

  function EncodeSummary(s: OperationSummary): Json {
    JObject(map[
      "operation_id" := JString(s.operationId),
      "operation_type" := EncodeOperationType(s.operationType),
      "description" := JString(s.description)])
  }

  function DecodeSummary(j: Json): (r: Option<OperationSummary>)
    ensures forall s :: j == EncodeSummary(s) ==> r == Some(s)
  {
    if !j.JObject? then None
    else
      var id :- Field(j.fields, "operation_id", AsString);
      var t :- Field(j.fields, "operation_type", DecodeOperationType);
      var d :- Field(j.fields, "description", AsString);
      Some(OperationSummary(id, t, d))
  }

  function EncodeSummaries(ss: seq<OperationSummary>): (js: seq<Json>)
    ensures |js| == |ss|
  {
    if ss == [] then [] else [EncodeSummary(ss[0])] + EncodeSummaries(ss[1..])
  }

  /** A `Vec<OperationSummary>`: every element must decode. */
  function DecodeSummaries(js: seq<Json>): (r: Option<seq<OperationSummary>>)
    ensures r.Some? ==> |r.value| == |js|
  {
    if js == [] then Some([])
    else
      var s :- DecodeSummary(js[0]);
      var rest :- DecodeSummaries(js[1..]);
      Some([s] + rest)
  }

  lemma {:induction false} SummariesRoundTrip(ss: seq<OperationSummary>)
    ensures DecodeSummaries(EncodeSummaries(ss)) == Some(ss)
  {
    if ss != [] {
      SummariesRoundTrip(ss[1..]);
      assert EncodeSummaries(ss)[1..] == EncodeSummaries(ss[1..]);
      assert [ss[0]] + ss[1..] == ss;
    }
  }

  // ----- BuildEventDetails -----

  /** The JSON written for the details field named `key`, if it is `Some`. */
  function DetailEntry(d: BuildEventDetails, key: string): Option<Json> {
    if key == "level" then Write(d.level, StringJson)
    else if key == "percent_complete" then Write(d.percentComplete, WriteF32)
    else if key == "status" then Write(d.status, StringJson)
    else if key == "command" then Write(d.command, StringJson)
    else if key == "args" then Write(d.args, WriteStrings)
    else if key == "stdout" then Write(d.stdout, StringJson)
    else if key == "stderr" then Write(d.stderr, StringJson)
    else if key == "success" then Write(d.success, BoolJson)
    else if key == "error" then Write(d.error, StringJson)
    else if key == "wasm_path" then Write(d.wasmPath, StringJson)
    else if key == "wasm_hash" then Write(d.wasmHash, StringJson)
    else None
  }

  function Write<T>(value: Option<T>, write: T -> Json): (r: Option<Json>)
    ensures r.Some? <==> value.Some?
  {
    if value.Some? then Some(write(value.value)) else None
  }

  function StringJson(s: string): Json { JString(s) }

  function BoolJson(b: bool): Json { JBool(b) }

  const DetailFieldNames: set<string> := {
    "level", "percent_complete", "status", "command", "args", "stdout",
    "stderr", "success", "error", "wasm_path", "wasm_hash"}

  /** `#[serde(skip_serializing_if = "Option::is_none")]` on every field. */
  function EncodeDetails(d: BuildEventDetails): (j: Json)
    ensures j.JObject?
  {
    JObject(map key | key in DetailFieldNames && DetailEntry(d, key).Some? :: DetailEntry(d, key).value)
  }

  /** Serialising details writes exactly the fields that are `Some`. */
  lemma DetailsFieldSet(d: BuildEventDetails)
    ensures EncodeDetails(d).fields.Keys <= DetailFieldNames
    ensures ("level" in EncodeDetails(d).fields) == d.level.Some?
    ensures ("percent_complete" in EncodeDetails(d).fields) == d.percentComplete.Some?
    ensures ("status" in EncodeDetails(d).fields) == d.status.Some?
    ensures ("command" in EncodeDetails(d).fields) == d.command.Some?
    ensures ("args" in EncodeDetails(d).fields) == d.args.Some?
    ensures ("stdout" in EncodeDetails(d).fields) == d.stdout.Some?
    ensures ("stderr" in EncodeDetails(d).fields) == d.stderr.Some?
    ensures ("success" in EncodeDetails(d).fields) == d.success.Some?
    ensures ("error" in EncodeDetails(d).fields) == d.error.Some?
    ensures ("wasm_path" in EncodeDetails(d).fields) == d.wasmPath.Some?
    ensures ("wasm_hash" in EncodeDetails(d).fields) == d.wasmHash.Some?
  {
  }

  /** Reads details from an object; a missing or `null` field is `None`,
      and keys that are not fields are ignored. */
  function DecodeDetails(j: Json): (r: Option<BuildEventDetails>)
    ensures r.Some? ==> j.JObject?
    ensures j.JObject? && j.fields.Keys !! DetailFieldNames
      ==> r == Some(BuildEventDetails(None, None, None, None, None, None, None, None, None, None, None))
  {
    if !j.JObject? then None
    else
      var m := j.fields;
      var level :- OptionalField(m, "level", AsString);
      var percent :- OptionalField(m, "percent_complete", AsNumber);
      var status :- OptionalField(m, "status", AsString);
      var command :- OptionalField(m, "command", AsString);
      var args :- OptionalField(m, "args", ReadStrings);
      var stdout :- OptionalField(m, "stdout", AsString);
      var stderr :- OptionalField(m, "stderr", AsString);
      var success :- OptionalField(m, "success", AsBool);
      var error :- OptionalField(m, "error", AsString);
      var wasmPath :- OptionalField(m, "wasm_path", AsString);
      var wasmHash :- OptionalField(m, "wasm_hash", AsString);
      Some(BuildEventDetails(level, percent, status, command, args, stdout, stderr, success, error, wasmPath, wasmHash))
  }

  predicate DetailsFinite(d: BuildEventDetails) {
    d.percentComplete.Some? ==> IsFinite(d.percentComplete.value)
  }

  /** Reading back one optional field of the details object. */
  lemma EntryRoundTrip<T>(d: BuildEventDetails, key: string, value: Option<T>, write: T -> Json, read: Json -> Option<T>)
    requires key in DetailFieldNames && DetailEntry(d, key) == Write(value, write)
    requires value.Some? ==> write(value.value) != JNull && read(write(value.value)) == Some(value.value)
    ensures OptionalField(EncodeDetails(d).fields, key, read) == Some(value)
  {
  }

  lemma DetailsRoundTrip(d: BuildEventDetails)
    requires DetailsFinite(d)
    ensures DecodeDetails(EncodeDetails(d)) == Some(d)
  {
    var m := EncodeDetails(d).fields;
    EntryRoundTrip(d, "level", d.level, StringJson, AsString);
    EntryRoundTrip(d, "percent_complete", d.percentComplete, WriteF32, AsNumber);
    EntryRoundTrip(d, "status", d.status, StringJson, AsString);
    EntryRoundTrip(d, "command", d.command, StringJson, AsString);
    if d.args.Some? {
      StringsRoundTrip(d.args.value);
    }
    EntryRoundTrip(d, "args", d.args, WriteStrings, ReadStrings);
    EntryRoundTrip(d, "stdout", d.stdout, StringJson, AsString);
    EntryRoundTrip(d, "stderr", d.stderr, StringJson, AsString);
    EntryRoundTrip(d, "success", d.success, BoolJson, AsBool);
    EntryRoundTrip(d, "error", d.error, StringJson, AsString);
    EntryRoundTrip(d, "wasm_path", d.wasmPath, StringJson, AsString);
    EntryRoundTrip(d, "wasm_hash", d.wasmHash, StringJson, AsString);
    DetailsFromFields(d, m);
  }

  lemma DetailsFromFields(d: BuildEventDetails, m: map<string, Json>)
    requires OptionalField(m, "level", AsString) == Some(d.level)
    requires OptionalField(m, "percent_complete", AsNumber) == Some(d.percentComplete)
    requires OptionalField(m, "status", AsString) == Some(d.status)
    requires OptionalField(m, "command", AsString) == Some(d.command)
    requires OptionalField(m, "args", ReadStrings) == Some(d.args)
    requires OptionalField(m, "stdout", AsString) == Some(d.stdout)
    requires OptionalField(m, "stderr", AsString) == Some(d.stderr)
    requires OptionalField(m, "success", AsBool) == Some(d.success)
    requires OptionalField(m, "error", AsString) == Some(d.error)
    requires OptionalField(m, "wasm_path", AsString) == Some(d.wasmPath)
    requires OptionalField(m, "wasm_hash", AsString) == Some(d.wasmHash)
    ensures DecodeDetails(JObject(m)) == Some(d)
  {
  }

  // ----- FrontendMessage -----

  function EncodeMessage(msg: FrontendMessage): (j: Json)
    ensures IsVariant(j, FrontendMessageTag(msg))
  {
    Variant(FrontendMessageTag(msg), JObject(MessageFields(msg)))
  }

  /** The fields of each message variant, keyed by the Rust field names. */
  function MessageFields(msg: FrontendMessage): map<string, Json> {
    match msg
    case Status(running, ops) => map[
      "child_running" := JBool(running),
      "active_operations" := JArray(EncodeSummaries(ops))]
    case OperationStarted(id, t, desc) => map[
      "operation_id" := JString(id),
      "operation_type" := EncodeOperationType(t),
      "description" := JString(desc)]
    case OperationCompleted(id, ok, text) => map[
      "operation_id" := JString(id),
      "success" := JBool(ok),
      "message" := JString(text)]
    case OperationProgress(id, desc, percent) => map[
      "operation_id" := JString(id),
      "description" := JString(desc),
      "percent_complete" := WriteF32(percent)]
    case ChildStarted(id) => map["child_id" := JString(id)]
    case ChildStopped(id) => map["child_id" := JString(id)]
    case Log(level, text) => map["level" := JString(level), "message" := JString(text)]
    case Error(code, text) => map["code" := JString(code), "message" := JString(text)]
    case BuildEvent(id, t, text, details) => map[
      "operation_id" := JString(id),
      "event_type" := EncodeBuildEventType(t),
      "message" := JString(text),
      "details" := EncodeDetails(details)]
  }

  /** A decoded message is the one whose tag the document carries. */
  function DecodeMessage(j: Json): (r: Option<FrontendMessage>)
    ensures r.Some? ==> IsVariant(j, FrontendMessageTag(r.value))
  {
    if !j.JObject? || |j.fields| != 1 then None
    else if "Status" in j.fields then DecodeFields(j, "Status", DecodeStatus)
    else if "OperationStarted" in j.fields then DecodeFields(j, "OperationStarted", DecodeOperationStarted)
    else if "OperationCompleted" in j.fields then DecodeFields(j, "OperationCompleted", DecodeOperationCompleted)
    else if "OperationProgress" in j.fields then DecodeFields(j, "OperationProgress", DecodeOperationProgress)
    else if "ChildStarted" in j.fields then DecodeFields(j, "ChildStarted", DecodeChildStarted)
    else if "ChildStopped" in j.fields then DecodeFields(j, "ChildStopped", DecodeChildStopped)
    else if "Log" in j.fields then DecodeFields(j, "Log", DecodeLog)
    else if "Error" in j.fields then DecodeFields(j, "Error", DecodeError)
    else if "BuildEvent" in j.fields then DecodeFields(j, "BuildEvent", DecodeBuildEvent)
    else None
  }

  /** The variant `tag` of `j`, whose content must be an object of fields
      that `decode` accepts as a message with that tag. */
  function DecodeFields(j: Json, tag: string, decode: map<string, Json> -> Option<FrontendMessage>): (r: Option<FrontendMessage>)
    requires IsVariant(j, tag)
    ensures r.Some? ==> Content(j, tag).JObject? && r == decode(Content(j, tag).fields)
  {
    var c := Content(j, tag);
    if c.JObject? then decode(c.fields) else None
  }

  function DecodeStatus(m: map<string, Json>): (r: Option<FrontendMessage>)
    ensures r.Some? ==> r.value.Status?
  {
    var running :- Field(m, "child_running", AsBool);
    var ops :- Field(m, "active_operations", ReadSummaries);
    Some(Status(running, ops))
  }

  function ReadSummaries(a: Json): Option<seq<OperationSummary>> {
    if a.JArray? then DecodeSummaries(a.items) else None
  }

  function DecodeOperationStarted(m: map<string, Json>): (r: Option<FrontendMessage>)
    ensures r.Some? ==> r.value.OperationStarted?
  {
    var id :- Field(m, "operation_id", AsString);
    var t :- Field(m, "operation_type", DecodeOperationType);
    var desc :- Field(m, "description", AsString);
    Some(OperationStarted(id, t, desc))
  }

  function DecodeOperationCompleted(m: map<string, Json>): (r: Option<FrontendMessage>)
    ensures r.Some? ==> r.value.OperationCompleted?
  {
    var id :- Field(m, "operation_id", AsString);
    var ok :- Field(m, "success", AsBool);
    var text :- Field(m, "message", AsString);
    Some(OperationCompleted(id, ok, text))
  }

  function DecodeOperationProgress(m: map<string, Json>): (r: Option<FrontendMessage>)
    ensures r.Some? ==> r.value.OperationProgress?
  {
    var id :- Field(m, "operation_id", AsString);
    var desc :- Field(m, "description", AsString);
    var percent :- Field(m, "percent_complete", AsNumber);
    Some(OperationProgress(id, desc, percent))
  }

  function DecodeChildStarted(m: map<string, Json>): (r: Option<FrontendMessage>)
    ensures r.Some? ==> r.value.ChildStarted?
  {
    var id :- Field(m, "child_id", AsString);
    Some(ChildStarted(id))
  }

  function DecodeChildStopped(m: map<string, Json>): (r: Option<FrontendMessage>)
    ensures r.Some? ==> r.value.ChildStopped?
  {
    var id :- Field(m, "child_id", AsString);
    Some(ChildStopped(id))
  }

  function DecodeLog(m: map<string, Json>): (r: Option<FrontendMessage>)
    ensures r.Some? ==> r.value.Log?
  {
    var level :- Field(m, "level", AsString);
    var text :- Field(m, "message", AsString);
    Some(FrontendMessage.Log(level, text))
  }

  function DecodeError(m: map<string, Json>): (r: Option<FrontendMessage>)
    ensures r.Some? ==> r.value.Error?
  {
    var code :- Field(m, "code", AsString);
    var text :- Field(m, "message", AsString);
    Some(FrontendMessage.Error(code, text))
  }

  function DecodeBuildEvent(m: map<string, Json>): (r: Option<FrontendMessage>)
    ensures r.Some? ==> r.value.BuildEvent?
  {
    var id :- Field(m, "operation_id", AsString);
    var t :- Field(m, "event_type", DecodeBuildEventType);
    var text :- Field(m, "message", AsString);
    var details :- Field(m, "details", DecodeDetails);
    Some(BuildEvent(id, t, text, details))
  }

  /** The message carries no NaN or infinite `f32`. */
  predicate FloatsFinite(msg: FrontendMessage) {
    match msg
    case OperationProgress(_, _, percent) => IsFinite(percent)
    case BuildEvent(_, _, _, details) => DetailsFinite(details)
    case _ => true
  }

  /** Every message whose numbers are finite survives a round trip. */
  lemma MessageRoundTrip(msg: FrontendMessage)
    requires FloatsFinite(msg)
    ensures DecodeMessage(EncodeMessage(msg)) == Some(msg)
  {
    var m := MessageFields(msg);
    DecodeMessageDispatch(msg);
    match msg
    case Status(_, ops) =>
      SummariesRoundTrip(ops);
      assert DecodeStatus(m) == Some(msg);
    case OperationStarted(_, _, _) =>
      assert DecodeOperationStarted(m) == Some(msg);
    case OperationCompleted(_, _, _) =>
      assert DecodeOperationCompleted(m) == Some(msg);
    case OperationProgress(_, _, _) =>
      assert DecodeOperationProgress(m) == Some(msg);
    case ChildStarted(_) =>
      assert DecodeChildStarted(m) == Some(msg);
    case ChildStopped(_) =>
      assert DecodeChildStopped(m) == Some(msg);
    case Log(_, _) =>
      assert DecodeLog(m) == Some(msg);
    case Error(_, _) =>
      assert DecodeError(m) == Some(msg);
    case BuildEvent(_, _, _, details) =>
      DetailsRoundTrip(details);
      assert DecodeBuildEvent(m) == Some(msg);
  }

  /** Decoding a message document hands its fields to the decoder of the
      variant named by its tag. */
  lemma DecodeMessageDispatch(msg: FrontendMessage)
    ensures DecodeMessage(EncodeMessage(msg)) == FieldDecoder(msg)(MessageFields(msg))
  {
    var c := JObject(MessageFields(msg));
    var tag := FrontendMessageTag(msg);
    OnlyKey(tag, c);
    var j := Variant(tag, c);
    match msg
    case Status(_, _) =>
      assert "Status" in j.fields;
    case OperationStarted(_, _, _) =>
      assert "Status" !in j.fields;
    case OperationCompleted(_, _, _) =>
      assert "Status" !in j.fields && "OperationStarted" !in j.fields;
    case OperationProgress(_, _, _) =>
      assert "Status" !in j.fields && "OperationStarted" !in j.fields && "OperationCompleted" !in j.fields;
    case ChildStarted(_) =>
      assert "Status" !in j.fields && "OperationStarted" !in j.fields && "OperationCompleted" !in j.fields && "OperationProgress" !in j.fields;
    case ChildStopped(_) =>
      assert "Status" !in j.fields && "OperationStarted" !in j.fields && "OperationCompleted" !in j.fields && "OperationProgress" !in j.fields && "ChildStarted" !in j.fields;
    case Log(_, _) =>
      assert "Status" !in j.fields && "OperationStarted" !in j.fields && "OperationCompleted" !in j.fields && "OperationProgress" !in j.fields && "ChildStarted" !in j.fields && "ChildStopped" !in j.fields;
    case Error(_, _) =>
      assert "Status" !in j.fields && "OperationStarted" !in j.fields && "OperationCompleted" !in j.fields && "OperationProgress" !in j.fields && "ChildStarted" !in j.fields && "ChildStopped" !in j.fields && "Log" !in j.fields;
    case BuildEvent(_, _, _, _) =>
      assert "Status" !in j.fields && "OperationStarted" !in j.fields && "OperationCompleted" !in j.fields && "OperationProgress" !in j.fields && "ChildStarted" !in j.fields && "ChildStopped" !in j.fields && "Log" !in j.fields && "Error" !in j.fields;
  }

  /** A variant's object has its tag as its only key. */
  lemma OnlyKey(tag: string, content: Json)
    ensures forall t :: t in Variant(tag, content).fields <==> t == tag
  {
  }

  function FieldDecoder(msg: FrontendMessage): map<string, Json> -> Option<FrontendMessage> {
    match msg
    case Status(_, _) => DecodeStatus
    case OperationStarted(_, _, _) => DecodeOperationStarted
    case OperationCompleted(_, _, _) => DecodeOperationCompleted
    case OperationProgress(_, _, _) => DecodeOperationProgress
    case ChildStarted(_) => DecodeChildStarted
    case ChildStopped(_) => DecodeChildStopped
    case Log(_, _) => DecodeLog
    case Error(_, _) => DecodeError
    case BuildEvent(_, _, _, _) => DecodeBuildEvent
  }

  /** A progress report whose percentage is NaN or infinite is written with
      `percent_complete: null` and can no longer be read back. */
  lemma NonFiniteProgressIsUnreadable(id: string, desc: string, percent: F32)
    requires !IsFinite(percent)
    ensures DecodeMessage(EncodeMessage(OperationProgress(id, desc, percent))) == None
  {
  }
}
