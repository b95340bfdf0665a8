/**
 The function-call codec and the binder. Decoding prints the parameters of a capability into an HTTP
 operation; binding resolves an operation to a capability and reads the parameters back.
 */
module Codec {
  import opened Wrappers
  import opened Paths
  import opened Templates
  import opened Json

  datatype Method = GET | HEAD | POST | PUT | PATCH | DELETE

  /** A property of an input schema: a text within bounds, or one constant. */
  datatype Property = Text(min: nat, max: Option<nat>) | Const(only: string)

  datatype Capability = Capability(
    id: string, verb: Method, template: seq<Part>, mediaTypes: seq<string>,
    properties: map<string, Property>, required: set<string>, exclusive: Option<(string, string)>)

  type Parameters = map<string, Value>

  datatype Payload = JsonBody(members: Parameters) | TextBody(text: string) | ArtifactRef(artifact: string)

  datatype HttpOperation = HttpOperation(
    verb: Method, target: string, headers: map<string, string>, payload: Option<Payload>)

  datatype Bound = Bound(capability: Capability, parameters: Parameters)

  // ---- The built-in catalog, ordered by identifier ----

  const IDENTIFIER := Text(1, Some(128))
  const FILE_PATH := Text(1, Some(1024))

  const ARTIFACT_CONTENT_READ := Capability("artifact.content.read", GET,
    [Lit("/v1/artifacts/"), Hole("artifact_id"), Lit("/content")],
    ["application/octet-stream"], map["artifact_id" := IDENTIFIER], {"artifact_id"}, None)
  const ARTIFACT_CREATE := Capability("artifact.create", POST,
    [Lit("/v1/artifacts")], ["application/octet-stream"],
    map["content_base64" := Text(0, Some(1398104)), "media_type" := Text(1, Some(255))],
    {"content_base64", "media_type"}, None)
  const ARTIFACT_READ := Capability("artifact.read", GET,
    [Lit("/v1/artifacts/"), Hole("artifact_id")],
    ["application/json"], map["artifact_id" := IDENTIFIER], {"artifact_id"}, None)
  const EXECUTION_PYTHON := Capability("execution.python", POST,
    [Lit("/v1/execution-sessions/"), Hole("session_id"), Lit("/executions")], ["text/plain"],
    map["session_id" := IDENTIFIER, "code" := Text(0, Some(1048576))], {"session_id", "code"}, None)
  const SESSION_CREATE := Capability("execution.session.create", POST,
    [Lit("/v1/execution-sessions")], ["application/json"],
    map["run_id" := IDENTIFIER, "runtime" := Const("python"), "profile_id" := IDENTIFIER],
    {"run_id", "runtime", "profile_id"}, None)
  const SESSION_READ := Capability("execution.session.read", GET,
    [Lit("/v1/execution-sessions/"), Hole("session_id")],
    ["application/json"], map["session_id" := IDENTIFIER], {"session_id"}, None)
  const ECHO := Capability("native.echo", POST,
    [Lit("/v1/integrations/" + "native/operations/echo/invocations")], ["application/json"],
    map["message" := Text(1, Some(100))], {"message"}, None)
  const FILE_READ := Capability("workspace.file.read", GET,
    [Lit("/v1/workspaces/"), Hole("workspace_id"), Lit("/files/"), Hole("file_path")],
    ["application/octet-stream", "text/plain"],
    map["workspace_id" := IDENTIFIER, "file_path" := FILE_PATH], {"workspace_id", "file_path"}, None)
  const FILE_WRITE := Capability("workspace.file.write", PUT,
    [Lit("/v1/workspaces/"), Hole("workspace_id"), Lit("/files/"), Hole("file_path")], ["text/plain"],
    map["workspace_id" := IDENTIFIER, "file_path" := FILE_PATH, "text" := Text(0, Some(1048576)),
        "if_match" := Text(1, None), "if_none_match" := Const("*")],
    {"workspace_id", "file_path", "text"}, Some(("if_match", "if_none_match")))

  const CATALOG: seq<Capability> := [
    ARTIFACT_CONTENT_READ, ARTIFACT_CREATE, ARTIFACT_READ, EXECUTION_PYTHON, SESSION_CREATE, SESSION_READ, ECHO,
    FILE_READ, FILE_WRITE]

  // ---- Schemas ----

  predicate PropertyHolds(p: Property, v: Value) {
    match p
    case Text(min, max) => v.Str? && min <= |v.s| && (max.Some? ==> |v.s| <= max.value)
    case Const(only) => v == Str(only)
  }

  predicate Conforms(c: Capability, args: Parameters) {
    && (forall k :: k in args ==> k in c.properties && PropertyHolds(c.properties[k], args[k]))
    && c.required <= args.Keys
    && (c.exclusive.Some? ==> (c.exclusive.value.0 in args) != (c.exclusive.value.1 in args))
  }

  // ---- Operations ----

  predicate TargetValid(target: string) {
    && 5 <= |target| <= 2048
    && "/v1/" <= target
    && '?' !in target && '#' !in target && '\r' !in target && '\n' !in target && '\\' !in target
    && !Occurs(target, "://")
  }

  predicate HeaderValid(value: string) {
    '\r' !in value && '\n' !in value && |value| <= 8192
  }

  predicate OperationValid(op: HttpOperation) {
    && TargetValid(op.target)
    && (forall h :: h in op.headers ==> HeaderValid(op.headers[h]))
    && (op.payload.Some? && op.payload.value.TextBody? ==> |op.payload.value.text| <= 1048576)
  }

  // ---- Decoding ----

  /** The template as it is written, with its fields in braces. */
  function Written(template: seq<Part>): string {
    if template == [] then ""
    else (match template[0] case Lit(text) => text case Hole(name) => Braced(name)) + Written(template[1..])
  }

  function Fields(template: seq<Part>): seq<string> {
    if template == [] then []
    else (match template[0] case Lit(_) => [] case Hole(name) => [name]) + Fields(template[1..])
  }

  /** Put the path parameters into the target, one field after another, taking each out of the rest. */
  function Fill(target: string, fields: seq<string>, rest: Parameters): Result<(string, Parameters)>
    decreases |fields|
  {
    if fields == [] then Ok((target, rest))
    else
      var name := fields[0];
      if name !in rest || !rest[name].Str? || rest[name].s == "" then Err(ModelOutputInvalid)
      else if name != "file_path" && '/' in rest[name].s then Err(ModelOutputInvalid)
      else Fill(ReplaceAll(target, Braced(name), rest[name].s), fields[1..], rest - {name})
  }

  datatype Content = Content(headers: map<string, string>, payload: Option<Payload>, rest: Parameters)

  /** How the parameters that are not part of the path travel. */
  function BodyOf(c: Capability, rest: Parameters): Result<Content> {
    if c.verb.GET? || c.verb.HEAD? then
      if rest.Keys != {} then Err(ModelOutputInvalid) else Ok(Content(map[], None, rest))
    else if "text/plain" in c.mediaTypes && ("code" in rest || "text" in rest) then
      var field := if "code" in rest then "code" else "text";
      if !rest[field].Str? then Err(ModelOutputInvalid)
      else Ok(Content(map["content-type" := "text/plain"], Some(TextBody(rest[field].s)), rest - {field}))
    else
      Ok(Content(map["content-type" := if c.mediaTypes != [] then c.mediaTypes[0] else "application/json"],
                 Some(JsonBody(rest)), map[]))
  }

  function TextOf(v: Value): string {
    if v.Str? then v.s else ""
  }

  /** The preconditions become headers; anything still left cannot be expressed. */
  function Finish(c: Capability, target: string, content: Content): Result<HttpOperation> {
    var rest := content.rest;
    var matched := if "if_match" in rest then content.headers["if-match" := TextOf(rest["if_match"])]
      else content.headers;
    var headers := if "if_none_match" in rest then matched["if-none-match" := TextOf(rest["if_none_match"])]
      else matched;
    if rest.Keys - {"if_match", "if_none_match"} != {} then Err(ModelOutputInvalid)
    else
      var op := HttpOperation(c.verb, target, headers, content.payload);
      if OperationValid(op) then Ok(op) else Err(ModelOutputInvalid)
  }

  function Decoded(c: Capability, args: Parameters): Result<HttpOperation> {
    if !Conforms(c, args) then Err(ModelOutputInvalid)
    else
      match Fill(Written(c.template), Fields(c.template), args)
      case Err(e) => Err(e)
      case Ok((target, rest)) =>
        match BodyOf(c, rest)
        case Err(e) => Err(e)
        case Ok(content) => Finish(c, target, content)
  }

  /** Decode a function call step by step. */
  method Decode(c: Capability, args: Parameters) returns (r: Result<HttpOperation>)
    ensures r == Decoded(c, args)
  {
    if !Conforms(c, args) { return Err(ModelOutputInvalid); }
    var target, remaining := Written(c.template), args;
    var fields := Fields(c.template);
    var k := 0;
    while k < |fields|
      invariant k <= |fields|
      invariant Fill(Written(c.template), fields, args) == Fill(target, fields[k..], remaining)
    {
      var field := fields[k];
      assert fields[k..][1..] == fields[k + 1..];
      if field !in remaining || !remaining[field].Str? || remaining[field].s == "" { return Err(ModelOutputInvalid); }
      if field != "file_path" && '/' in remaining[field].s { return Err(ModelOutputInvalid); }
      target := ReplaceAll(target, Braced(field), remaining[field].s);
      remaining := remaining - {field};
      k := k + 1;
    }
    var headers: map<string, string> := map[];
    var payload: Option<Payload> := None;
    if c.verb.GET? || c.verb.HEAD? {
      if remaining.Keys != {} { return Err(ModelOutputInvalid); }
    } else if "text/plain" in c.mediaTypes && ("code" in remaining || "text" in remaining) {
      var field := if "code" in remaining then "code" else "text";
      if !remaining[field].Str? { return Err(ModelOutputInvalid); }
      headers, payload := headers["content-type" := "text/plain"], Some(TextBody(remaining[field].s));
      remaining := remaining - {field};
    } else {
      headers := headers["content-type" := if c.mediaTypes != [] then c.mediaTypes[0] else "application/json"];
      payload, remaining := Some(JsonBody(remaining)), map[];
    }
    assert BodyOf(c, Fill(Written(c.template), fields, args).value.1) == Ok(Content(headers, payload, remaining));
    r := Finish(c, target, Content(headers, payload, remaining));
  }

  // ---- Binding ----

  function Resolve(catalog: seq<Capability>, verb: Method, target: string): Option<(Capability, map<string, string>)> {
    if catalog == [] then None
    else if catalog[0].verb == verb && Match(catalog[0].template, target).Some?
    then Some((catalog[0], Match(catalog[0].template, target).value))
    else Resolve(catalog[1..], verb, target)
  }

  function BaseType(value: string): string {
    if value == "" || value[0] == ';' then "" else [value[0]] + BaseType(value[1..])
  }

  function Texts(path: map<string, string>): Parameters {
    map k | k in path :: Str(path[k])
  }

  /** The value a payload stands for, when it is a JSON object. */
  function ObjectOf(payload: Option<Payload>): Option<Parameters> {
    if payload.None? then None
    else match payload.value
      case JsonBody(members) => Some(members)
      case TextBody(_) => None
      case ArtifactRef(artifact) => Some(map["artifact_id" := Str(artifact)])
  }

  function WriteParameters(path: Parameters, op: HttpOperation): Result<Parameters> {
    var hasMatch, hasNone := "if-match" in op.headers, "if-none-match" in op.headers;
    if op.payload.None? || !op.payload.value.TextBody? then Err(SchemaInvalid)
    else if !hasMatch && !hasNone then Err(PreconditionRequired)
    else if hasMatch && hasNone then Err(InvalidOperation)
    else if hasNone && op.headers["if-none-match"] != "*" then Err(PreconditionFailed)
    else
      var named := path["text" := Str(op.payload.value.text)];
      Ok(if hasMatch then named["if_match" := Str(op.headers["if-match"])]
         else named["if_none_match" := Str(op.headers["if-none-match"])])
  }

  function ParametersOf(id: string, path: map<string, string>, op: HttpOperation): Result<Parameters> {
    var normal := if "file_path" in path then NormalizeFilePath(path["file_path"]) else Ok("");
    if normal.Err? then Err(normal.error)
    else
      var texts := Texts(if "file_path" in path then path["file_path" := normal.value] else path);
      var members := ObjectOf(op.payload);
      if id == "workspace.file.write" then WriteParameters(texts, op)
      else if id == "native.echo" || id == "artifact.create" || id == "execution.session.create" then
        if members.Some? then Ok(members.value) else Err(SchemaInvalid)
      else if id == "execution.python" then
        if op.payload.Some? && op.payload.value.TextBody? then Ok(texts["code" := Str(op.payload.value.text)])
          else Err(SchemaInvalid)
      else if op.payload.None? then Ok(texts)
      else if members.None? || texts.Keys * members.value.Keys != {} then Err(SchemaInvalid)
      else Ok(texts + members.value)
  }

  /** No member of an object may be nested deeper than the limit allows below the object itself. */
  predicate Shallow(args: Parameters) {
    forall k :: k in args ==> Depth(args[k]) < 32
  }

  function Bind(granted: set<string>, op: HttpOperation): Result<Bound> {
    match Resolve(CATALOG, op.verb, op.target)
    case None => Err(NotFound)
    case Some((c, path)) =>
      if c.id !in granted then Err(PermissionDenied)
      else if "content-type" in op.headers && BaseType(op.headers["content-type"]) !in c.mediaTypes
        then Err(InvalidOperation)
      else
        match ParametersOf(c.id, path, op)
        case Err(e) => Err(e)
        case Ok(args) => if Shallow(args) && Conforms(c, args) then Ok(Bound(c, args)) else Err(SchemaInvalid)
  }
}
