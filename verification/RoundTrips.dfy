/** Decoding and binding are inverse, for every built-in capability and all parameters: exactly when. */
module RoundTrips {
  import opened Wrappers
  import opened Paths
  import opened Templates
  import opened Json
  import opened Codec

  const SLOT := "{file_path}"

  /**
   What a caller can check before the call: the file path is canonical, and the workspace does not spell the
   field's own slot.
   */
  predicate Faithful(args: Parameters) {
    ("file_path" in args && args["file_path"].Str? && "workspace_id" in args && args["workspace_id"].Str?) ==>
      && NormalizeFilePath(args["file_path"].s).Ok?
      && (!Occurs(args["workspace_id"].s, SLOT) || args["file_path"].s == SLOT)
  }

  /** No other capability of the catalog answers to this method and target. */
  ghost predicate Only(c: Capability, verb: Method, target: string) {
    forall i :: 0 <= i < |CATALOG| && CATALOG[i] != c && CATALOG[i].verb == verb ==>
      Match(CATALOG[i].template, target).None?
  }

  // ---- Printing ----

  lemma PrintOne(prefix: string, name: string, suffix: string, v: string)
    requires '{' !in prefix && '{' !in suffix
    ensures ReplaceAll(prefix + Braced(name) + suffix, Braced(name), v) == prefix + v + suffix
  {
    assert prefix + Braced(name) + suffix == prefix + (Braced(name) + suffix);
    ReplaceSkips(prefix, Braced(name) + suffix, name, v);
    ReplaceHits(suffix, Braced(name), v);
    ReplaceSkips(suffix, "", name, v);
    assert suffix + "" == suffix;
    assert prefix + (v + suffix) == prefix + v + suffix;
  }

  const FILES := "/v1/workspaces/"

  lemma PrintWorkspace(w: string)
    ensures ReplaceAll(FILES + Braced("workspace_id") + "/files/" + SLOT, Braced("workspace_id"), w) ==
              FILES + (w + ("/files/" + SLOT))
  {
    var rest := "/files/" + SLOT;
    assert FILES + Braced("workspace_id") + "/files/" + SLOT == FILES + (Braced("workspace_id") + rest);
    ReplaceSkips(FILES, Braced("workspace_id") + rest, "workspace_id", w);
    ReplaceHits(rest, Braced("workspace_id"), w);
    NoWorkspaceSlot();
    NoOccurrenceStays(rest, Braced("workspace_id"), w);
  }

  lemma PrintAfter(prefix: string, w: string, m: string, name: string, p: string)
    requires '{' !in prefix && '{' !in m && '/' !in name
    ensures ReplaceAll(prefix + (w + ("/" + (m + Braced(name)))), Braced(name), p)
         == prefix + (ReplaceAll(w, Braced(name), p) + ("/" + (m + p)))
  {
    hide ReplaceAll;
    var pattern := Braced(name);
    var tail := "/" + (m + pattern);
    assert tail == "/" + m + pattern + "" && "/" + m + p + "" == "/" + (m + p);
    PrintOne("/" + m, name, "", p);
    ReplaceAroundSlash(w, m + pattern, name, p);
    ReplaceSkips(prefix, w + tail, name, p);
  }

  lemma PrintPath(w: string, p: string)
    ensures ReplaceAll(FILES + (w + ("/files/" + SLOT)), SLOT, p) == FILES + (ReplaceAll(w, SLOT, p) + ("/files/" + p))
  {
    hide ReplaceAll;
    assert "/files/" == "/" + "files/" && Braced("file_path") == SLOT;
    assert "/files/" + SLOT == "/" + ("files/" + Braced("file_path")) && "/files/" + p == "/" + ("files/" + p);
    PrintAfter(FILES, w, "files/", "file_path", p);
  }

  /** The two fields of a file target: the workspace first, then the path, also where the workspace spells its slot. */
  lemma PrintFile(w: string, p: string)
    ensures ReplaceAll(ReplaceAll(FILES + Braced("workspace_id") + "/files/" + SLOT, Braced("workspace_id"), w), SLOT,
                       p)
         == FILES + (ReplaceAll(w, SLOT, p) + ("/files/" + p))
  {
    PrintWorkspace(w);
    PrintPath(w, p);
  }

  lemma NoWorkspaceSlot()
    ensures !Occurs("/files/" + SLOT, Braced("workspace_id"))
  {
    var s, pattern := "/files/" + SLOT, Braced("workspace_id");
    NoOccurrence(s, pattern, 7);
  }

  /** A pattern whose first character is only at `at`, where the second does not agree, does not occur. */
  lemma {:induction false} NoOccurrence(s: string, pattern: string, at: nat)
    requires |pattern| >= 2 && (at < |s| - 1 ==> s[at + 1] != pattern[1])
    requires forall i :: 0 <= i < |s| && i != at ==> s[i] != pattern[0]
    ensures !Occurs(s, pattern)
  {
    if |s| >= |pattern| {
      assert pattern <= s ==> s[0] == pattern[0] && s[1] == pattern[1];
      NoOccurrence(s[1..], pattern, if at == 0 then |s| else at - 1);
    }
  }

  // ---- Decoding, read back ----

  /** Everything a schema of the catalog accepts is text, and so is shallow. */
  lemma ConformingIsShallow(c: Capability, args: Parameters)
    requires Conforms(c, args)
    ensures Shallow(args) && forall k :: k in args ==> args[k].Str?
  {
    forall k | k in args ensures args[k].Str? && Depth(args[k]) < 32 {
      assert PropertyHolds(c.properties[k], args[k]);
      assert Inside(args[k]) == [];
    }
  }

  /** A template with one field prints the text before it, the value, and the text after it. */
  lemma FillOne(a: string, name: string, b: string, args: Parameters)
    requires '{' !in a && '{' !in b && name != "file_path"
    requires Fill(a + Braced(name) + b, [name], args).Ok?
    ensures name in args && args[name].Str? && args[name].s != "" && '/' !in args[name].s
    ensures Fill(a + Braced(name) + b, [name], args).value == (a + args[name].s + b, args - {name})
  {
    PrintOne(a, name, b, args[name].s);
    assert [name][1..] == [];
  }

  /** The first capability of the method whose template matches answers. */
  lemma {:induction false} ResolvesTo(catalog: seq<Capability>, i: nat, verb: Method, target: string)
    requires i < |catalog| && catalog[i].verb == verb && Match(catalog[i].template, target).Some?
    requires forall j :: 0 <= j < i ==> catalog[j].verb != verb || Match(catalog[j].template, target).None?
    ensures Resolve(catalog, verb, target) == Some((catalog[i], Match(catalog[i].template, target).value))
  {
    if i > 0 { ResolvesTo(catalog[1..], i - 1, verb, target); }
  }

  /** What decoding a capability yields, given its target and the parameters that are left. */
  lemma DecodedParts(c: Capability, args: Parameters, op: HttpOperation)
    requires Decoded(c, args) == Ok(op)
    ensures Conforms(c, args) && Fill(Written(c.template), Fields(c.template), args).Ok?
    ensures var (target, rest) := Fill(Written(c.template), Fields(c.template), args).value;
      && BodyOf(c, rest).Ok? && Finish(c, target, BodyOf(c, rest).value) == Ok(op)
      && op.target == target && op.verb == c.verb && op.payload == BodyOf(c, rest).value.payload
  {
    hide Conforms, Fill, BodyOf, OperationValid, Written, Fields;
  }

  /** Where a capability stands in the catalog. */
  predicate AtIndex(c: Capability, i: nat) {
    i < |CATALOG| && CATALOG[i] == c && forall j :: 0 <= j < i ==> CATALOG[j] != c
  }

  lemma Positions()
    ensures AtIndex(ARTIFACT_CONTENT_READ, 0) && AtIndex(ARTIFACT_CREATE, 1) && AtIndex(ARTIFACT_READ, 2)
    ensures AtIndex(EXECUTION_PYTHON, 3) && AtIndex(SESSION_CREATE, 4) && AtIndex(SESSION_READ, 5)
    ensures AtIndex(ECHO, 6) && AtIndex(FILE_READ, 7) && AtIndex(FILE_WRITE, 8)
  {
    forall i, j | 0 <= j < i < |CATALOG| ensures CATALOG[j].id != CATALOG[i].id {
      assert CATALOG[j].id != CATALOG[i].id by { Distinct(i, j); }
    }
  }

  lemma Distinct(i: nat, j: nat)
    requires j < i < |CATALOG|
    ensures CATALOG[j].id != CATALOG[i].id
  {
  }

  predicate Plain(text: string) {
    '{' !in text
  }

  lemma PlainLiterals()
    ensures Plain("/v1/artifacts/") && Plain("/content")
    ensures Plain("/v1/execution-sessions/") && Plain("/executions") && Plain("")
  {
  }

  /** Binding, once the capability is known and its parameters come back. */
  lemma BindsBack(c: Capability, i: nat, args: Parameters, op: HttpOperation, granted: set<string>)
    requires AtIndex(c, i) && c.id in granted && op.verb == c.verb
    requires Match(c.template, op.target).Some? && Only(c, c.verb, op.target)
    requires "content-type" in op.headers ==> BaseType(op.headers["content-type"]) in c.mediaTypes
    requires Conforms(c, args)
    ensures var back := ParametersOf(c.id, Match(c.template, op.target).value, op);
            Bind(granted, op) == Ok(Bound(c, args)) <==> back == Ok(args)
  {
    hide Match, ParametersOf, BaseType;
    ResolvesTo(CATALOG, i, c.verb, op.target);
    ConformingIsShallow(c, args);
  }

  // ---- Reads with one field ----

  /** A read function has no body and no headers. */
  lemma ReadHasNoBody(c: Capability, args: Parameters, op: HttpOperation)
    requires Decoded(c, args) == Ok(op) && c.verb.GET?
    ensures op.payload.None? && op.headers == map[]
    ensures Fill(Written(c.template), Fields(c.template), args).value.1 == map[]
  {
    hide Conforms, Fill, OperationValid, Written, Fields;
    DecodedParts(c, args, op);
  }

  /** The one parameter of a read comes back from the path. */
  lemma OneFieldComesBack(c: Capability, name: string, args: Parameters, op: HttpOperation)
    requires name in args && args[name].Str? && args - {name} == map[] && op.payload.None?
    requires name != "file_path" && c.id in {"artifact.content.read", "artifact.read", "execution.session.read"}
    ensures ParametersOf(c.id, map[name := args[name].s], op) == Ok(args)
  {
    OneKey(args, name);
    assert Texts(map[name := args[name].s]) == args;
  }

  lemma OneKey(args: Parameters, name: string)
    requires name in args && args - {name} == map[]
    ensures args.Keys == {name}
  {
    forall k | k in args ensures k == name {
      assert k != name ==> k in args - {name};
    }
  }

  // ---- Templates of the catalog ----

  lemma WrittenTail(name: string, b: string)
    ensures Written([Hole(name)]) == Braced(name) && Fields([Hole(name)]) == [name]
    ensures Written([Hole(name), Lit(b)]) == Braced(name) + b && Fields([Hole(name), Lit(b)]) == [name]
  {
    assert [Hole(name), Lit(b)][1..] == [Lit(b)];
    assert Written([Lit(b)]) == b && Fields([Lit(b)]) == [];
  }

  /** A template with one field, as it is written. */
  lemma WrittenOut(a: string, name: string, b: string)
    ensures Written([Lit(a), Hole(name)]) == a + Braced(name) + "" && Fields([Lit(a), Hole(name)]) == [name]
    ensures Written([Lit(a), Hole(name), Lit(b)]) == a + Braced(name) + b
    ensures Fields([Lit(a), Hole(name), Lit(b)]) == [name]
  {
    WrittenTail(name, b);
    assert [Lit(a), Hole(name)][1..] == [Hole(name)] && [Lit(a), Hole(name), Lit(b)][1..] == [Hole(name), Lit(b)];
    assert a + (Braced(name) + b) == a + Braced(name) + b;
  }

  lemma MatchesOut(a: string, name: string, b: string, v: string)
    requires name != "file_path" && v != "" && '/' !in v && b != "" && b[0] == '/'
    ensures Match([Lit(a), Hole(name)], a + v) == Some(map[name := v])
    ensures Match([Lit(a), Hole(name), Lit(b)], a + v + b) == Some(map[name := v])
    ensures Match([Lit(a), Hole(name)], a + v + b) == None
    ensures Match([Lit(a), Hole(name), Lit(b)], a + v) == None
  {
    var two, three := [Lit(a), Hole(name)], [Lit(a), Hole(name), Lit(b)];
    assert two[1..] == [Hole(name)] && three[1..] == [Hole(name), Lit(b)] && [Hole(name)][1..] == []
           && [Hole(name), Lit(b)][1..] == [Lit(b)];
    assert a + v + b == a + (v + b) && v + "" == v;
    LiteralMatches(two, v);
    LiteralMatches(three, v);
    LiteralMatches(two, v + b);
    LiteralMatches(three, v + b);
    SegmentMatches([Hole(name)], v, "");
    SegmentMatches([Hole(name), Lit(b)], v, "");
    SegmentMatches([Hole(name)], v, b);
    SegmentMatches([Hole(name), Lit(b)], v, b);
    assert [Lit(b)][1..] == [] && b[|b|..] == "";
    assert map[][name := v] == map[name := v];
  }

  /** A literal that differs from the target somewhere does not match. */
  lemma LiteralDiffers(parts: seq<Part>, target: string, k: nat)
    requires parts != [] && parts[0].Lit? && k < |parts[0].text|
    requires k < |target| ==> parts[0].text[k] != target[k]
    ensures Match(parts, target) == None
  {
  }

  // ---- The capabilities with at most one field ----

  lemma OnlyArtifactContent(v: string)
    requires v != "" && '/' !in v
    ensures Only(ARTIFACT_CONTENT_READ, GET, "/v1/artifacts/" + v + "/content")
  {
    var t := "/v1/artifacts/" + v + "/content";
    assert t[4] == 'a';
    MatchesOut("/v1/artifacts/", "artifact_id", "/content", v);
    LiteralDiffers(SESSION_READ.template, t, 4);
    LiteralDiffers(FILE_READ.template, t, 4);
  }

  lemma OnlyArtifact(v: string)
    requires v != "" && '/' !in v
    ensures Only(ARTIFACT_READ, GET, "/v1/artifacts/" + v)
  {
    var t := "/v1/artifacts/" + v;
    assert t[4] == 'a';
    MatchesOut("/v1/artifacts/", "artifact_id", "/content", v);
    LiteralDiffers(SESSION_READ.template, t, 4);
    LiteralDiffers(FILE_READ.template, t, 4);
  }

  lemma OnlySession(v: string)
    ensures Only(SESSION_READ, GET, "/v1/execution-sessions/" + v)
  {
    var t := "/v1/execution-sessions/" + v;
    assert t[4] == 'e';
    LiteralDiffers(ARTIFACT_CONTENT_READ.template, t, 4);
    LiteralDiffers(ARTIFACT_READ.template, t, 4);
    LiteralDiffers(FILE_READ.template, t, 4);
  }

  lemma OnlyPython(v: string)
    ensures Only(EXECUTION_PYTHON, POST, "/v1/execution-sessions/" + v + "/executions")
  {
    var t := "/v1/execution-sessions/" + v + "/executions";
    assert t[4] == 'e';
    LiteralDiffers(ARTIFACT_CREATE.template, t, 4);
    LiteralDiffers(ECHO.template, t, 4);
    assert t == "/v1/execution-sessions" + ("/" + v + "/executions");
    LiteralMatches(SESSION_CREATE.template, "/" + v + "/executions");
  }

  lemma OnlyArtifacts()
    ensures Only(ARTIFACT_CREATE, POST, "/v1/artifacts")
  {
    LiteralDiffers(EXECUTION_PYTHON.template, "/v1/artifacts", 4);
    LiteralDiffers(SESSION_CREATE.template, "/v1/artifacts", 4);
    LiteralDiffers(ECHO.template, "/v1/artifacts", 4);
  }

  lemma OnlySessions()
    ensures Only(SESSION_CREATE, POST, "/v1/execution-sessions")
  {
    LiteralDiffers(ARTIFACT_CREATE.template, "/v1/execution-sessions", 4);
    LiteralDiffers(EXECUTION_PYTHON.template, "/v1/execution-sessions", 22);
    LiteralDiffers(ECHO.template, "/v1/execution-sessions", 4);
  }

  lemma OnlyEcho()
    ensures Only(ECHO, POST, ECHO.template[0].text)
  {
    assert ECHO.template[0].text[4] == 'i';
    LiteralDiffers(ARTIFACT_CREATE.template, ECHO.template[0].text, 4);
    LiteralDiffers(EXECUTION_PYTHON.template, ECHO.template[0].text, 4);
    LiteralDiffers(SESSION_CREATE.template, ECHO.template[0].text, 4);
  }

  lemma OnlyFile(rest: string)
    ensures Only(FILE_READ, GET, FILES + rest) && Only(FILE_WRITE, PUT, FILES + rest)
  {
    var t := FILES + rest;
    assert t[4] == 'w';
    LiteralDiffers(ARTIFACT_CONTENT_READ.template, t, 4);
    LiteralDiffers(ARTIFACT_READ.template, t, 4);
    LiteralDiffers(SESSION_READ.template, t, 4);
  }

  // ---- Round trips, capability by capability ----

  /** The target of a capability with one field, and the value of that field read back. */
  lemma OneFieldTarget(c: Capability, a: string, name: string, b: string, args: Parameters, op: HttpOperation)
    requires Decoded(c, args) == Ok(op) && Plain(a) && Plain(b) && name != "file_path"
    requires (c.template == [Lit(a), Hole(name)] && b == "")
             || (c.template == [Lit(a), Hole(name), Lit(b)] && b != "" && b[0] == '/')
    ensures name in args && args[name].Str? && args[name].s != "" && '/' !in args[name].s
    ensures op.target == a + args[name].s + b && Match(c.template, op.target) == Some(map[name := args[name].s])
    ensures Fill(Written(c.template), Fields(c.template), args) == Ok((op.target, args - {name}))
  {
    hide Decoded, Fill, Match, Written, Fields, ReplaceAll, Conforms;
    DecodedParts(c, args, op);
    WrittenOut(a, name, b);
    FillOne(a, name, b, args);
    MatchesOut(a, name, if b == "" then "/" else b, args[name].s);
    assert b == "" ==> a + args[name].s + b == a + args[name].s;
  }

  lemma ReadRoundTrip(c: Capability, i: nat, name: string, args: Parameters, op: HttpOperation, granted: set<string>)
    requires Decoded(c, args) == Ok(op) && c.id in granted && c.verb.GET?
    requires AtIndex(c, i) && Only(c, GET, op.target)
    requires c.id in {"artifact.content.read", "artifact.read", "execution.session.read"} && name != "file_path"
    requires name in args && args[name].Str? && Match(c.template, op.target) == Some(map[name := args[name].s])
    requires Fill(Written(c.template), Fields(c.template), args) == Ok((op.target, args - {name}))
    ensures Bind(granted, op) == Ok(Bound(c, args))
  {
    hide Decoded, Fill, Match, Written, Fields, Only, Conforms, Bind, AtIndex;
    DecodedParts(c, args, op);
    ReadHasNoBody(c, args, op);
    BindsBack(c, i, args, op, granted);
    OneFieldComesBack(c, name, args, op);
  }

  lemma ArtifactContentRoundTrip(args: Parameters, op: HttpOperation, granted: set<string>)
    requires Decoded(ARTIFACT_CONTENT_READ, args) == Ok(op) && ARTIFACT_CONTENT_READ.id in granted
    ensures Bind(granted, op) == Ok(Bound(ARTIFACT_CONTENT_READ, args))
    ensures Only(ARTIFACT_CONTENT_READ, op.verb, op.target)
  {
    hide Decoded, Fill, Match, Written, Fields, Only, Conforms, Bind, AtIndex, Plain;
    Positions();
    PlainLiterals();
    OneFieldTarget(ARTIFACT_CONTENT_READ, "/v1/artifacts/", "artifact_id", "/content", args, op);
    OnlyArtifactContent(args["artifact_id"].s);
    DecodedParts(ARTIFACT_CONTENT_READ, args, op);
    ReadRoundTrip(ARTIFACT_CONTENT_READ, 0, "artifact_id", args, op, granted);
  }

  lemma ArtifactRoundTrip(args: Parameters, op: HttpOperation, granted: set<string>)
    requires Decoded(ARTIFACT_READ, args) == Ok(op) && ARTIFACT_READ.id in granted
    ensures Bind(granted, op) == Ok(Bound(ARTIFACT_READ, args)) && Only(ARTIFACT_READ, op.verb, op.target)
  {
    hide Decoded, Fill, Match, Written, Fields, Only, Conforms, Bind, AtIndex, Plain;
    Positions();
    PlainLiterals();
    OneFieldTarget(ARTIFACT_READ, "/v1/artifacts/", "artifact_id", "", args, op);
    OnlyArtifact(args["artifact_id"].s);
    assert op.target == "/v1/artifacts/" + args["artifact_id"].s;
    DecodedParts(ARTIFACT_READ, args, op);
    ReadRoundTrip(ARTIFACT_READ, 2, "artifact_id", args, op, granted);
  }

  lemma SessionRoundTrip(args: Parameters, op: HttpOperation, granted: set<string>)
    requires Decoded(SESSION_READ, args) == Ok(op) && SESSION_READ.id in granted
    ensures Bind(granted, op) == Ok(Bound(SESSION_READ, args)) && Only(SESSION_READ, op.verb, op.target)
  {
    hide Decoded, Fill, Match, Written, Fields, Only, Conforms, Bind, AtIndex, Plain;
    Positions();
    PlainLiterals();
    OneFieldTarget(SESSION_READ, "/v1/execution-sessions/", "session_id", "", args, op);
    OnlySession(args["session_id"].s);
    assert op.target == "/v1/execution-sessions/" + args["session_id"].s;
    DecodedParts(SESSION_READ, args, op);
    ReadRoundTrip(SESSION_READ, 5, "session_id", args, op, granted);
  }

  // ---- JSON bodies ----

  /** A capability without a field sends all its parameters as one JSON object, and gets them back. */
  lemma JsonRoundTrip(c: Capability, i: nat, args: Parameters, op: HttpOperation, granted: set<string>)
    requires Decoded(c, args) == Ok(op) && c.id in granted && c.verb.POST?
    requires AtIndex(c, i)
    requires |c.template| == 1 && c.template[0].Lit? && c.mediaTypes != [] && "text/plain" !in c.mediaTypes
    requires BaseType(c.mediaTypes[0]) == c.mediaTypes[0]
    requires c.id in {"artifact.create", "execution.session.create", "native.echo"}
    requires Only(c, POST, c.template[0].text)
    ensures Bind(granted, op) == Ok(Bound(c, args)) && op.target == c.template[0].text
  {
    assert c.template == [Lit(c.template[0].text)];
    FixedTarget(c.template[0].text, args);
    hide Decoded, Fill, Match, Written, Fields, Only, Conforms, Bind, AtIndex;
    DecodedParts(c, args, op);
    assert c.template == [Lit(c.template[0].text)];
    FixedMatches(c.template[0].text);
    BindsBack(c, i, args, op, granted);
  }

  lemma FixedTarget(text: string, args: Parameters)
    ensures Fill(Written([Lit(text)]), Fields([Lit(text)]), args) == Ok((text, args))
  {
    assert [Lit(text)][1..] == [] && Written([]) == "" && text + "" == text;
  }

  lemma FixedMatches(text: string)
    ensures Match([Lit(text)], text) == Some(map[])
  {
    assert [Lit(text)][1..] == [] && text[|text|..] == "";
  }

  lemma {:induction false} PlainBaseType(value: string)
    requires ';' !in value
    ensures BaseType(value) == value
  {
    if value != "" {
      assert value[0] in value && forall ch :: ch in value[1..] ==> ch in value;
      PlainBaseType(value[1..]);
    }
  }

  lemma ArtifactCreateRoundTrip(args: Parameters, op: HttpOperation, granted: set<string>)
    requires Decoded(ARTIFACT_CREATE, args) == Ok(op) && ARTIFACT_CREATE.id in granted
    ensures Bind(granted, op) == Ok(Bound(ARTIFACT_CREATE, args)) && Only(ARTIFACT_CREATE, op.verb, op.target)
  {
    hide Decoded, Only, Bind, BaseType, AtIndex;
    Positions();
    PlainBaseType(ARTIFACT_CREATE.mediaTypes[0]);
    OnlyArtifacts();
    DecodedParts(ARTIFACT_CREATE, args, op);
    JsonRoundTrip(ARTIFACT_CREATE, 1, args, op, granted);
  }

  lemma SessionCreateRoundTrip(args: Parameters, op: HttpOperation, granted: set<string>)
    requires Decoded(SESSION_CREATE, args) == Ok(op) && SESSION_CREATE.id in granted
    ensures Bind(granted, op) == Ok(Bound(SESSION_CREATE, args)) && Only(SESSION_CREATE, op.verb, op.target)
  {
    hide Decoded, Only, Bind, BaseType, AtIndex;
    Positions();
    PlainBaseType(SESSION_CREATE.mediaTypes[0]);
    OnlySessions();
    DecodedParts(SESSION_CREATE, args, op);
    JsonRoundTrip(SESSION_CREATE, 4, args, op, granted);
  }

  lemma EchoRoundTrip(args: Parameters, op: HttpOperation, granted: set<string>)
    requires Decoded(ECHO, args) == Ok(op) && ECHO.id in granted
    ensures Bind(granted, op) == Ok(Bound(ECHO, args)) && Only(ECHO, op.verb, op.target)
  {
    hide Decoded, Only, Bind, BaseType, AtIndex;
    Positions();
    PlainBaseType(ECHO.mediaTypes[0]);
    OnlyEcho();
    DecodedParts(ECHO, args, op);
    JsonRoundTrip(ECHO, 6, args, op, granted);
  }

  // ---- Text bodies ----

  lemma PythonParts(args: Parameters, op: HttpOperation)
    requires Decoded(EXECUTION_PYTHON, args) == Ok(op)
    requires Fill(Written(EXECUTION_PYTHON.template), Fields(EXECUTION_PYTHON.template), args).Ok?
    requires Fill(Written(EXECUTION_PYTHON.template), Fields(EXECUTION_PYTHON.template), args).value.1 ==
               args - {"session_id"}
    ensures args.Keys == {"session_id", "code"} && args["session_id"].Str? && args["code"].Str?
    ensures op.payload == Some(TextBody(args["code"].s)) && op.headers == map["content-type" := "text/plain"]
  {
    hide Fill, Written, Fields, OperationValid;
    DecodedParts(EXECUTION_PYTHON, args, op);
    assert args.Keys == {"session_id", "code"};
    assert PropertyHolds(EXECUTION_PYTHON.properties["code"], args["code"]);
    assert PropertyHolds(EXECUTION_PYTHON.properties["session_id"], args["session_id"]);
  }

  lemma PythonRoundTrip(args: Parameters, op: HttpOperation, granted: set<string>)
    requires Decoded(EXECUTION_PYTHON, args) == Ok(op) && EXECUTION_PYTHON.id in granted
    ensures Bind(granted, op) == Ok(Bound(EXECUTION_PYTHON, args)) && Only(EXECUTION_PYTHON, op.verb, op.target)
  {
    hide Decoded, Fill, Match, Written, Fields, Only, Conforms, Bind, BaseType, AtIndex, Plain;
    Positions();
    PlainLiterals();
    var c := EXECUTION_PYTHON;
    OneFieldTarget(c, "/v1/execution-sessions/", "session_id", "/executions", args, op);
    PythonParts(args, op);
    DecodedParts(c, args, op);
    OnlyPython(args["session_id"].s);
    PlainBaseType("text/plain");
    PythonComesBack(args, op);
    BindsBack(c, 3, args, op, granted);
  }

  lemma PythonComesBack(args: Parameters, op: HttpOperation)
    requires args.Keys == {"session_id", "code"} && args["session_id"].Str? && args["code"].Str?
    requires op.payload == Some(TextBody(args["code"].s))
    ensures ParametersOf("execution.python", map["session_id" := args["session_id"].s], op) == Ok(args)
  {
    assert Texts(map["session_id" := args["session_id"].s])["code" := Str(args["code"].s)] == args;
  }

  // ---- Files ----

  /** The target of a file capability: the workspace as it comes out of the second replacement, and the path. */
  lemma FileTarget(c: Capability, args: Parameters, op: HttpOperation)
    requires c.template == FILE_READ.template && Decoded(c, args) == Ok(op)
    ensures "workspace_id" in args && args["workspace_id"].Str?
    ensures args["workspace_id"].s != "" && '/' !in args["workspace_id"].s
    ensures "file_path" in args && args["file_path"].Str? && args["file_path"].s != ""
    ensures var w, p := args["workspace_id"].s, args["file_path"].s;
      && op.target == FILES + (ReplaceAll(w, SLOT, p) + ("/files/" + p))
      && Fill(Written(c.template), Fields(c.template), args) == Ok((op.target, args - {"workspace_id"} - {"file_path"}))
  {
    hide Decoded, Conforms, ReplaceAll, Written, Fields;
    DecodedParts(c, args, op);
    WrittenFile();
    FillTwo(FILES + Braced("workspace_id") + "/files/" + SLOT, args);
    PrintFile(args["workspace_id"].s, args["file_path"].s);
  }

  lemma WrittenTwo(a: string, n: string, b: string, m: string)
    ensures Written([Lit(a), Hole(n), Lit(b), Hole(m)]) == a + Braced(n) + b + Braced(m)
    ensures Fields([Lit(a), Hole(n), Lit(b), Hole(m)]) == [n, m]
  {
    var t := [Lit(a), Hole(n), Lit(b), Hole(m)];
    hide Braced;
    WrittenTail(m, "");
    assert [Lit(b), Hole(m)][1..] == [Hole(m)];
    assert Written([Lit(b), Hole(m)]) == b + Braced(m) && Fields([Lit(b), Hole(m)]) == [m];
    assert t[1..] == [Hole(n), Lit(b), Hole(m)] && t[1..][1..] == [Lit(b), Hole(m)];
    assert Written(t[1..]) == Braced(n) + (b + Braced(m)) && Fields(t[1..]) == [n] + [m];
    assert a + (Braced(n) + (b + Braced(m))) == a + Braced(n) + b + Braced(m);
  }

  lemma WrittenFile()
    ensures Written(FILE_READ.template) == FILES + Braced("workspace_id") + "/files/" + SLOT
    ensures Fields(FILE_READ.template) == ["workspace_id", "file_path"]
  {
    hide Written, Fields;
    assert Braced("file_path") == SLOT;
    WrittenTwo(FILES, "workspace_id", "/files/", "file_path");
  }

  lemma FillTwo(target: string, args: Parameters)
    requires Fill(target, ["workspace_id", "file_path"], args).Ok?
    ensures "workspace_id" in args && args["workspace_id"].Str?
    ensures args["workspace_id"].s != "" && '/' !in args["workspace_id"].s
    ensures "file_path" in args && args["file_path"].Str? && args["file_path"].s != ""
    ensures Fill(target, ["workspace_id", "file_path"], args).value
         == (ReplaceAll(ReplaceAll(target, Braced("workspace_id"), args["workspace_id"].s), SLOT, args["file_path"].s),
             args - {"workspace_id"} - {"file_path"})
  {
    hide ReplaceAll;
    assert ["workspace_id", "file_path"][1..] == ["file_path"] && ["file_path"][1..] == [];
    assert Braced("file_path") == SLOT;
  }

  /** The template reads back workspace and path exactly if the second replacement left the workspace alone. */
  lemma FileMatchIff(w: string, p: string, w': string)
    requires w != "" && '/' !in w && p != ""
    ensures w' == w <==>
              Match(FILE_READ.template, FILES + (w' + ("/files/" + p))) ==
              Some(map["workspace_id" := w, "file_path" := p])
  {
    hide Match;
    var target := FILES + (w' + ("/files/" + p));
    assert FILE_READ.template == [Lit(FILES), Hole("workspace_id"), Lit("/files/"), Hole("file_path")];
    if w' == w {
      assert target == FILES + w + "/files/" + p;
      MatchesTwo(FILES, "workspace_id", "/files/", w, p);
    }
    if Match(FILE_READ.template, target) == Some(map["workspace_id" := w, "file_path" := p]) {
      MatchPrintsBack(FILES, "workspace_id", "/files/", "file_path", target);
      SameMiddle(FILES, w, w', "/files/" + p, target);
    }
  }

  lemma SameMiddle(a: string, w: string, w': string, b: string, target: string)
    requires target == a + (w' + b) && |target| == |a| + |w| + |b| && target[..|a| + |w|] == a + w
    ensures w == w'
  {
    assert target[|a|..][..|w'|] == w';
    assert (a + w)[|a|..] == w;
  }

  predicate Canonical(args: Parameters)
    requires "file_path" in args && args["file_path"].Str?
  {
    NormalizeFilePath(args["file_path"].s).Ok?
  }

  /** What the binder makes of a read whose template read back some workspace and path. */
  lemma FileReadComesBackIff(args: Parameters, path: map<string, string>, op: HttpOperation)
    requires args.Keys == {"workspace_id", "file_path"} && args["workspace_id"].Str? && args["file_path"].Str?
    requires path.Keys == {"workspace_id", "file_path"} && op.payload.None?
    ensures ParametersOf("workspace.file.read", path, op) == Ok(args)
       <==> path == map["workspace_id" := args["workspace_id"].s, "file_path" := args["file_path"].s] && Canonical(args)
  {
    NormalizeKeepsOrRefuses(path["file_path"]);
    hide NormalizeFilePath;
    if NormalizeFilePath(path["file_path"]).Ok? {
      assert path["file_path" := path["file_path"]] == path;
      TextsIff(path, args);
    }
  }

  lemma TextsIff(path: map<string, string>, args: Parameters)
    requires args.Keys == {"workspace_id", "file_path"} && args["workspace_id"].Str? && args["file_path"].Str?
    requires path.Keys == {"workspace_id", "file_path"}
    ensures Texts(path) == args <==>
              path == map["workspace_id" := args["workspace_id"].s, "file_path" := args["file_path"].s]
  {
    if Texts(path) == args {
      assert Texts(path)["workspace_id"] == args["workspace_id"] && Texts(path)["file_path"] == args["file_path"];
    }
  }

  /** No capability answers: binding fails. */
  lemma {:induction false} ResolvesToNone(catalog: seq<Capability>, verb: Method, target: string)
    requires forall j :: 0 <= j < |catalog| ==> catalog[j].verb != verb || Match(catalog[j].template, target).None?
    ensures Resolve(catalog, verb, target) == None
  {
    if catalog != [] { ResolvesToNone(catalog[1..], verb, target); }
  }

  /** Binding a file operation, whichever way its target reads back. */
  lemma FileBindsIff(c: Capability, i: nat, args: Parameters, op: HttpOperation, granted: set<string>)
    requires AtIndex(c, i) && c.id in granted && op.verb == c.verb && Only(c, c.verb, op.target) && Conforms(c, args)
    requires "content-type" in op.headers ==> BaseType(op.headers["content-type"]) in c.mediaTypes
    ensures Bind(granted, op) == Ok(Bound(c, args))
       <==> Match(c.template, op.target).Some? && ParametersOf(c.id, Match(c.template, op.target).value, op) == Ok(args)
  {
    hide Match, ParametersOf, BaseType, Conforms;
    if Match(c.template, op.target).Some? {
      BindsBack(c, i, args, op, granted);
    } else {
      ResolvesToNone(CATALOG, c.verb, op.target);
    }
  }

  /** Whatever a file target reads back as, it has both fields. */
  lemma FileMatchFields(target: string)
    requires Match(FILE_READ.template, target).Some?
    ensures Match(FILE_READ.template, target).value.Keys == {"workspace_id", "file_path"}
  {
    hide Match;
    assert FILE_READ.template == [Lit(FILES), Hole("workspace_id"), Lit("/files/"), Hole("file_path")];
    MatchPrintsBack(FILES, "workspace_id", "/files/", "file_path", target);
  }

  /** What is common to file reads and writes: binding gives the parameters back exactly if they are faithful. */
  lemma FileRoundTripIff(c: Capability, i: nat, args: Parameters, op: HttpOperation, granted: set<string>)
    requires c.template == FILE_READ.template && AtIndex(c, i) && c.id in granted && Decoded(c, args) == Ok(op)
    requires Only(c, c.verb, op.target)
    requires "content-type" in op.headers ==> BaseType(op.headers["content-type"]) in c.mediaTypes
    requires "workspace_id" in args && args["workspace_id"].Str? && "file_path" in args && args["file_path"].Str?
    requires forall path: map<string, string> :: path.Keys == {"workspace_id", "file_path"} ==>
      (ParametersOf(c.id, path, op) == Ok(args)
       <==> path == map["workspace_id" := args["workspace_id"].s, "file_path" := args["file_path"].s]
            && Canonical(args))
    ensures Bind(granted, op) == Ok(Bound(c, args)) <==> Faithful(args)
  {
    hide Decoded, Match, ParametersOf, BaseType, Conforms, Only, Bind, Fill, ReplaceAll, Written, Fields, Occurs,
         NormalizeFilePath, AtIndex;
    var w, p := args["workspace_id"].s, args["file_path"].s;
    FileTarget(c, args, op);
    DecodedParts(c, args, op);
    FileBindsIff(c, i, args, op, granted);
    FileMatchIff(w, p, ReplaceAll(w, SLOT, p));
    ReplaceStaysIff(w, SLOT, p);
    if Match(c.template, op.target).Some? { FileMatchFields(op.target); }
  }

  lemma FileReadRoundTripIff(args: Parameters, op: HttpOperation, granted: set<string>)
    requires Decoded(FILE_READ, args) == Ok(op) && FILE_READ.id in granted
    ensures Bind(granted, op) == Ok(Bound(FILE_READ, args)) <==> Faithful(args)
    ensures Only(FILE_READ, op.verb, op.target)
  {
    hide Decoded, ParametersOf, BaseType, Only, Bind, Fill, ReplaceAll, Written, Fields, Faithful, AtIndex, Conforms;
    FileTarget(FILE_READ, args, op);
    ReadHasNoBody(FILE_READ, args, op);
    DecodedParts(FILE_READ, args, op);
    OnlyFile(ReplaceAll(args["workspace_id"].s, SLOT, args["file_path"].s) + ("/files/" + args["file_path"].s));
    Positions();
    TwoKeys(args);
    forall path: map<string, string> | path.Keys == {"workspace_id", "file_path"}
      ensures ParametersOf(FILE_READ.id, path, op) == Ok(args)
         <==> path == map["workspace_id" := args["workspace_id"].s, "file_path" := args["file_path"].s]
              && Canonical(args)
    {
      FileReadComesBackIff(args, path, op);
    }
    FileRoundTripIff(FILE_READ, 7, args, op, granted);
  }

  lemma TwoKeys(args: Parameters)
    requires "workspace_id" in args && "file_path" in args && args - {"workspace_id"} - {"file_path"} == map[]
    ensures args.Keys == {"workspace_id", "file_path"}
  {
    forall k | k in args ensures k in {"workspace_id", "file_path"} {
      assert k !in {"workspace_id", "file_path"} ==> k in args - {"workspace_id"} - {"file_path"};
    }
  }

  // ---- Writes ----

  /** The one precondition a write carries. */
  function PreconditionOf(args: Parameters): string {
    if "if_match" in args then "if_match" else "if_none_match"
  }

  /** The parameters of a write, by its schema. */
  predicate WriteArgs(args: Parameters) {
    && "workspace_id" in args && args["workspace_id"].Str? && "file_path" in args && args["file_path"].Str?
    && "text" in args && args["text"].Str?
    && PreconditionOf(args) in args && args[PreconditionOf(args)].Str?
    && args.Keys == {"workspace_id", "file_path", "text", PreconditionOf(args)}
    && ("if_none_match" in args ==> args["if_none_match"] == Str("*"))
  }

  /** The text travels as the body, the precondition as a header. */
  predicate WriteShape(args: Parameters, op: HttpOperation)
    requires WriteArgs(args)
  {
    && op.payload == Some(TextBody(args["text"].s))
    && op.headers == map["content-type" := "text/plain"][(if "if_match" in args then "if-match"
                                                          else "if-none-match") := args[PreconditionOf(args)].s]
  }

  lemma WriteConforms(args: Parameters)
    requires Conforms(FILE_WRITE, args)
    ensures WriteArgs(args)
  {
    ConformingIsShallow(FILE_WRITE, args);
    assert "if_none_match" in args ==> PropertyHolds(FILE_WRITE.properties["if_none_match"], args["if_none_match"]);
  }

  lemma WriteBody(args: Parameters, rest: Parameters)
    requires WriteArgs(args) && rest == args - {"workspace_id"} - {"file_path"}
    ensures BodyOf(FILE_WRITE, rest)
         == Ok(Content(map["content-type" := "text/plain"], Some(TextBody(args["text"].s)), rest - {"text"}))
  {
    assert "text" in rest && "code" !in rest;
  }

  lemma WriteParts(args: Parameters, op: HttpOperation)
    requires Decoded(FILE_WRITE, args) == Ok(op)
    requires Fill(Written(FILE_WRITE.template), Fields(FILE_WRITE.template), args).Ok?
    requires Fill(Written(FILE_WRITE.template), Fields(FILE_WRITE.template), args).value.1 ==
               args - {"workspace_id"} - {"file_path"}
    ensures WriteArgs(args) && WriteShape(args, op)
  {
    hide Decoded, Fill, Written, Fields, OperationValid, Conforms, BodyOf;
    DecodedParts(FILE_WRITE, args, op);
    WriteConforms(args);
    WriteBody(args, args - {"workspace_id"} - {"file_path"});
  }

  lemma WriteComesBackIff(args: Parameters, path: map<string, string>, op: HttpOperation)
    requires WriteArgs(args) && WriteShape(args, op) && path.Keys == {"workspace_id", "file_path"}
    ensures ParametersOf("workspace.file.write", path, op) == Ok(args)
       <==> path == map["workspace_id" := args["workspace_id"].s, "file_path" := args["file_path"].s] && Canonical(args)
  {
    NormalizeKeepsOrRefuses(path["file_path"]);
    hide NormalizeFilePath;
    if NormalizeFilePath(path["file_path"]).Ok? {
      assert path["file_path" := path["file_path"]] == path;
      WriteTextsIff(path, args);
    }
  }

  lemma WriteTextsIff(path: map<string, string>, args: Parameters)
    requires WriteArgs(args) && path.Keys == {"workspace_id", "file_path"}
    ensures Texts(path)["text" := args["text"]][PreconditionOf(args) := args[PreconditionOf(args)]] == args
       <==> path == map["workspace_id" := args["workspace_id"].s, "file_path" := args["file_path"].s]
  {
    var all := Texts(path)["text" := args["text"]][PreconditionOf(args) := args[PreconditionOf(args)]];
    assert all.Keys == args.Keys;
    if all == args {
      assert all["workspace_id"] == Str(path["workspace_id"]) && all["file_path"] == Str(path["file_path"]);
    }
  }

  lemma WriteBinds(args: Parameters, op: HttpOperation)
    requires Decoded(FILE_WRITE, args) == Ok(op)
    ensures Only(FILE_WRITE, op.verb, op.target) && WriteArgs(args) && WriteShape(args, op)
    ensures op.headers["content-type"] == "text/plain"
  {
    hide Decoded, Only, Fill, ReplaceAll, Written, Fields, Conforms;
    FileTarget(FILE_WRITE, args, op);
    WriteParts(args, op);
    DecodedParts(FILE_WRITE, args, op);
    OnlyFile(ReplaceAll(args["workspace_id"].s, SLOT, args["file_path"].s) + ("/files/" + args["file_path"].s));
  }

  lemma FileWriteRoundTripIff(args: Parameters, op: HttpOperation, granted: set<string>)
    requires Decoded(FILE_WRITE, args) == Ok(op) && FILE_WRITE.id in granted
    ensures Bind(granted, op) == Ok(Bound(FILE_WRITE, args)) <==> Faithful(args)
    ensures Only(FILE_WRITE, op.verb, op.target)
  {
    hide ParametersOf, BaseType, Only, Bind, Faithful, AtIndex, WriteShape, NormalizeFilePath, Fill, BodyOf, Finish,
         Conforms;
    WriteBinds(args, op);
    Positions();
    PlainBaseType("text/plain");
    forall path: map<string, string> | path.Keys == {"workspace_id", "file_path"}
      ensures ParametersOf(FILE_WRITE.id, path, op) == Ok(args)
         <==> path == map["workspace_id" := args["workspace_id"].s, "file_path" := args["file_path"].s]
              && Canonical(args)
    {
      WriteComesBackIff(args, path, op);
    }
    DecodedParts(FILE_WRITE, args, op);
    hide Decoded;
    FileRoundTripIff(FILE_WRITE, 8, args, op, granted);
  }

  // ---- All of them ----

  /**
   Round trip. Whatever the decoder accepts for a built-in capability, the binder resolves to that
   capability and gives back exactly the same parameters if and only if they are faithful; and no other
   capability of the catalog answers to that method and target.
   */
  lemma DecodeThenBind(c: Capability, args: Parameters, op: HttpOperation, granted: set<string>)
    requires c in CATALOG && c.id in granted && Decoded(c, args) == Ok(op)
    ensures Bind(granted, op) == Ok(Bound(c, args)) <==> Faithful(args)
    ensures Only(c, op.verb, op.target)
  {
    hide Decoded, Bind, Faithful, Only;
    if c == FILE_READ {
      FileReadRoundTripIff(args, op, granted);
    } else if c == FILE_WRITE {
      FileWriteRoundTripIff(args, op, granted);
    } else {
      NoFileField(c, args, op);
      OtherRoundTrip(c, args, op, granted);
    }
  }

  lemma NoFileField(c: Capability, args: Parameters, op: HttpOperation)
    requires c in CATALOG && c != FILE_READ && c != FILE_WRITE && Decoded(c, args) == Ok(op)
    ensures Faithful(args)
  {
    hide Fill, BodyOf, Finish, Written, Fields;
    DecodedParts(c, args, op);
    assert "file_path" !in c.properties;
  }

  lemma OtherRoundTrip(c: Capability, args: Parameters, op: HttpOperation, granted: set<string>)
    requires c in CATALOG && c != FILE_READ && c != FILE_WRITE && c.id in granted && Decoded(c, args) == Ok(op)
    ensures Bind(granted, op) == Ok(Bound(c, args)) && Only(c, op.verb, op.target)
  {
    hide Decoded, Bind, Only;
    if c == ARTIFACT_CONTENT_READ { ArtifactContentRoundTrip(args, op, granted); }
    else if c == ARTIFACT_CREATE { ArtifactCreateRoundTrip(args, op, granted); }
    else if c == ARTIFACT_READ { ArtifactRoundTrip(args, op, granted); }
    else if c == EXECUTION_PYTHON { PythonRoundTrip(args, op, granted); }
    else if c == SESSION_CREATE { SessionCreateRoundTrip(args, op, granted); }
    else if c == SESSION_READ { SessionRoundTrip(args, op, granted); }
    else { EchoRoundTrip(args, op, granted); }
  }

  // ---- Parameters that are not faithful ----

  function FileArgs(w: string, p: string): Parameters {
    map["workspace_id" := Str(w), "file_path" := Str(p)]
  }

  /** The read of path `p` in a workspace whose name spells the path's slot. */
  lemma SpelledSlotDecodes(p: string)
    requires p != "" && '/' !in p && TargetValid(FILES + (p + ("/files/" + p))) && |p| <= 128
    ensures Decoded(FILE_READ, FileArgs(SLOT, p)) == Ok(HttpOperation(GET, FILES + (p + ("/files/" + p)), map[], None))
  {
    hide ReplaceAll, Written, Fields, TargetValid;
    var args := FileArgs(SLOT, p);
    assert PropertyHolds(IDENTIFIER, Str(SLOT)) && PropertyHolds(FILE_PATH, Str(p));
    assert args.Keys == {"workspace_id", "file_path"};
    WrittenFile();
    PrintFile(SLOT, p);
    ReplaceHits("", SLOT, p);
    ShortStays("", SLOT, p);
    assert SLOT + "" == SLOT && p + "" == p;
    assert ["workspace_id", "file_path"][1..] == ["file_path"] && ["file_path"][1..] == [];
    assert Braced("file_path") == SLOT;
    assert args - {"workspace_id"} - {"file_path"} == map[];
  }

  /** It is bound as a read of workspace `p`: a different file. So the condition of the round trip is needed. */
  lemma SpelledSlotReadsAnotherWorkspace(p: string, granted: set<string>)
    requires p != "" && '/' !in p && TargetValid(FILES + (p + ("/files/" + p))) && |p| <= 128
    requires NormalizeFilePath(p).Ok? && FILE_READ.id in granted && p != SLOT
    ensures Decoded(FILE_READ, FileArgs(SLOT, p)).Ok?
    ensures Bind(granted, Decoded(FILE_READ, FileArgs(SLOT, p)).value) == Ok(Bound(FILE_READ, FileArgs(p, p)))
    ensures FileArgs(p, p) != FileArgs(SLOT, p)
  {
    hide Decoded, Match, Only, TargetValid, NormalizeFilePath, AtIndex;
    SpelledSlotDecodes(p);
    var op := HttpOperation(GET, FILES + (p + ("/files/" + p)), map[], None);
    var args := FileArgs(p, p);
    assert PropertyHolds(IDENTIFIER, Str(p)) && PropertyHolds(FILE_PATH, Str(p));
    FileMatchIff(p, p, p);
    OnlyFile(p + ("/files/" + p));
    Positions();
    FileReadComesBackIff(args, map["workspace_id" := p, "file_path" := p], op);
    BindsBack(FILE_READ, 7, args, op, granted);
    assert args["workspace_id"] != FileArgs(SLOT, p)["workspace_id"];
  }
}
