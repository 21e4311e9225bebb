/**
 Assembly of the engine's flat rows into linked entities. The random identifier
 of an entity is replaced by a tag that names where it comes from, which is all
 its freshness is used for. Exceptions that the source catches are `Refused`;
 the ones it does not catch are `Escapes`, and abort the record.
 */
module Normalizer {
  import opened Values
  import opened Mappings
  import opened Engine

  datatype Tag = Tag(line: Option<nat>, entity: string, index: nat)

  datatype Session = Session(
    id: Tag, source: int, externalId: string, agentName: Option<string>, columns: map<string, Value>)

  datatype ModelCall = ModelCall(
    id: Tag, session: Tag, index: int, status: string,
    model: Option<string>, provider: Option<string>, columns: map<string, Value>)

  datatype ToolCall = ToolCall(
    id: Tag, session: Tag, index: int, status: string, tool: string, columns: map<string, Value>)

  /** A name to resolve, with the extra key components its kind needs. */
  datatype Request = Request(kind: string, name: string, context: seq<(string, string)>)

  datatype NormResult = NormResult(
    sessions: seq<Session>,
    modelCalls: seq<ModelCall>,
    toolCalls: seq<ToolCall>,
    issues: seq<Issue>,
    requests: seq<Request>)

  datatype Built<+T> = Built(value: T) | Refused | Escapes

  // ------------------------------------------------------------------ names

  datatype Naming = Named(name: string) | Unnamed | NotAName

  /** `reference_name`. */
  function ReferenceName(rt: Runtime, v: Value): Naming {
    if v.Null? then Unnamed
    else if !v.Str? && !v.Int? && !v.Float? then NotAName
    else if rt.Blank(rt.TextOf(v)) then Unnamed
    else Named(rt.TextOf(v))
  }

  /** `_name`: a name, or the issue that stops the row. */
  function NameFrom(rt: Runtime, target: string, field: string, data: map<string, Value>, line: Option<nat>, blankIsError: bool)
    : (Option<string>, seq<Issue>)
  {
    var invalid := [Issue(Rejected, NameInvalid, FieldOf(target, field), line)];
    match ReferenceName(rt, Get(data, field))
    case NotAName => (None, invalid)
    case Named(name) => (Some(name), [])
    case Unnamed => if blankIsError && !Get(data, field).Null? then (None, invalid) else (None, [])
  }

  // ----------------------------------------------------------- constructors

  function Columns(data: map<string, Value>, names: set<string>): map<string, Value> {
    map f | f in data && f in names :: data[f]
  }

  const SESSION_COLUMNS := {"started_at", "ended_at", "duration_ms", "outcome"}
  const MODEL_CALL_COLUMNS := {"input_tokens", "output_tokens", "cache_read_tokens", "cache_creation_tokens",
                               "started_at", "duration_ms", "stop_reason", "error_code"}
  const TOOL_CALL_COLUMNS := {"duration_ms", "error_message", "started_at"}

  /** Membership of a value in a frozen set of texts: TypeError when unhashable. */
  function Among(v: Value, allowed: set<string>): Built<string> {
    if Unhashable(v) then Escapes
    else if v.Str? && v.s in allowed then Built(v.s)
    else Refused
  }

  function MakeSession(rt: Runtime, id: Tag, source: int, agent: Option<string>, data: map<string, Value>): Built<Session> {
    if "external_id" !in data then Refused
    else
      var outcome := Get(data, "outcome");
      var checked := if outcome.Null? then Built("") else Among(outcome, {"completed", "error", "aborted", "unknown"});
      if checked.Refused? then Refused
      else if checked.Escapes? then Escapes
      else Built(Session(id, source, rt.TextOf(data["external_id"]), agent, Columns(data, SESSION_COLUMNS)))
  }

  /** `int(v)`: ValueError is caught by the caller, TypeError and OverflowError are not. */
  function IntOf(rt: Runtime, v: Value): Built<int> {
    match v
    case Int(n) => Built(n)
    case Bool(b) => Built(if b then 1 else 0)
    case Float(Finite(r)) => Built(if r < 0.0 then -((-r).Floor) else r.Floor)
    case Float(Infinite(_)) => Escapes
    case Float(NaN) => Refused
    case Str(_) => IntOfText(rt, v)
    case Bytes(_) => IntOfText(rt, v)
    case _ => Escapes
  }

  function IntOfText(rt: Runtime, v: Value): Built<int> {
    match rt.toInt(v)
    case Converted(n) => Built(n)
    case Malformed => Refused
    case Overflowed => Escapes
  }

  function StatusOf(data: map<string, Value>): Built<string> {
    Among(if "status" in data then data["status"] else Str("unknown"), {"ok", "error", "unknown"})
  }

  function MakeModelCall(rt: Runtime, id: Tag, session: Tag, model: Option<string>, provider: Option<string>,
                         data: map<string, Value>): Built<ModelCall>
  {
    match IntOf(rt, Get(data, "sequence_index"))
    case Refused => Refused
    case Escapes => Escapes
    case Built(index) =>
      match StatusOf(data)
      case Refused => Refused
      case Escapes => Escapes
      case Built(status) =>
        Built(ModelCall(id, session, index, status, model, provider, Columns(data, MODEL_CALL_COLUMNS)))
  }

  function MakeToolCall(rt: Runtime, id: Tag, session: Tag, tool: string, data: map<string, Value>): Built<ToolCall> {
    match IntOf(rt, Get(data, "sequence_index"))
    case Refused => Refused
    case Escapes => Escapes
    case Built(index) =>
      match StatusOf(data)
      case Refused => Refused
      case Escapes => Escapes
      case Built(status) => Built(ToolCall(id, session, index, status, tool, Columns(data, TOOL_CALL_COLUMNS)))
  }

  // ------------------------------------------------------------ row by row

  function MissingKeys(keys: seq<string>, data: map<string, Value>): seq<string> {
    if keys == [] then []
    else (if Get(data, keys[0]).Null? then [keys[0]] else []) + MissingKeys(keys[1..], data)
  }

  /** What rows contribute: entities, issues, requests; or the record aborts. */
  datatype Part<+T> = Part(entities: seq<T>, issues: seq<Issue>, requests: seq<Request>) | Aborted

  function Join<T>(a: Part<T>, b: Part<T>): Part<T> {
    if a.Aborted? || b.Aborted? then Aborted
    else Part(a.entities + b.entities, a.issues + b.issues, a.requests + b.requests)
  }

  function Rejection<T>(reason: Reason, line: Option<nat>): Part<T> {
    Part([], [Issue(Rejected, reason, Nowhere, line)], [])
  }

  /** The row's data with a sequence index: its own, or its source position. */
  function Numbered(row: EntityRow): map<string, Value> {
    if "sequence_index" in row.data then row.data else row.data["sequence_index" := Int(row.sourceIndex)]
  }

  function ProviderContext(provider: Option<string>): seq<(string, string)> {
    if provider.Some? && provider.value != "" then [("provider_name", provider.value)] else []
  }

  function ModelRequests(model: Option<string>, provider: Option<string>): seq<Request> {
    (if provider.Some? && provider.value != "" then [Request("provider", provider.value, [])] else []) +
    (if model.Some? && model.value != "" then [Request("model", model.value, ProviderContext(provider))] else [])
  }

  /** One turn of the loop of `_build_model_calls`. */
  function ModelCallPart(rt: Runtime, entity: EntityMapping, session: Tag, line: Option<nat>, row: EntityRow, k: nat)
    : Part<ModelCall>
  {
    var data := Numbered(row);
    var missing := MissingKeys(entity.naturalKey, data);
    if missing != [] then Rejection(MissingNaturalKey(missing), line)
    else
      var (model, modelIssues) := NameFrom(rt, entity.target, "model_name", data, line, false);
      var (provider, providerIssues) := NameFrom(rt, entity.target, "provider_name", data, line, false);
      if modelIssues + providerIssues != [] then Part([], modelIssues + providerIssues, [])
      else
        match MakeModelCall(rt, Tag(line, "model_call", k), session, model, provider, data)
        case Refused => Rejection(ConstructionFailed, line)
        case Escapes => Aborted
        case Built(call) => Part([call], [], ModelRequests(model, provider))
  }

  function ModelCallParts(rt: Runtime, entity: EntityMapping, session: Tag, line: Option<nat>, rows: seq<EntityRow>)
    : Part<ModelCall>
  {
    if rows == [] then Part([], [], [])
    else
      var n := |rows| - 1;
      Join(ModelCallParts(rt, entity, session, line, rows[..n]), ModelCallPart(rt, entity, session, line, rows[n], n))
  }

  /** One turn of the loop of `_build_tool_calls`. */
  function ToolCallPart(rt: Runtime, entity: EntityMapping, session: Tag, line: Option<nat>, row: EntityRow, k: nat)
    : Part<ToolCall>
  {
    var data := Numbered(row);
    var missing := MissingKeys(entity.naturalKey, data);
    if missing != [] then Rejection(MissingNaturalKey(missing), line)
    else
      var (tool, issues) := NameFrom(rt, entity.target, "tool_name", data, line, true);
      if issues != [] then Part([], issues, [])
      else if tool.None? then Rejection(ConstructionFailed, line)
      else
        match MakeToolCall(rt, Tag(line, "tool_call", k), session, tool.value, data)
        case Refused => Rejection(ConstructionFailed, line)
        case Escapes => Aborted
        case Built(call) => Part([call], [], [Request("tool", tool.value, [])])
  }

  function ToolCallParts(rt: Runtime, entity: EntityMapping, session: Tag, line: Option<nat>, rows: seq<EntityRow>)
    : Part<ToolCall>
  {
    if rows == [] then Part([], [], [])
    else
      var n := |rows| - 1;
      Join(ToolCallParts(rt, entity, session, line, rows[..n]), ToolCallPart(rt, entity, session, line, rows[n], n))
  }

  /** Calls without a session to attach to: one issue counts them all. */
  function Orphans<T>(rows: seq<EntityRow>, line: Option<nat>): Part<T> {
    if rows == [] then Part([], [], []) else Rejection(ParentMissing(|rows|), line)
  }

  /** The session built from the data of one row. */
  function SessionMade(rt: Runtime, entity: EntityMapping, data: map<string, Value>, source: int, line: Option<nat>)
    : Part<Session>
  {
    var missing := MissingKeys(entity.naturalKey, data);
    if missing != [] then Rejection(MissingNaturalKey(missing), line)
    else
      var (agent, issues) := NameFrom(rt, entity.target, "agent_name", data, line, false);
      if issues != [] then Part([], issues, [])
      else
        match MakeSession(rt, Tag(line, "session", 0), source, agent, data)
        case Refused => Rejection(ConstructionFailed, line)
        case Escapes => Aborted
        case Built(session) =>
          Part([session], [],
               if agent.Some? && agent.value != "" then [Request("agent", agent.value, [])] else [])
  }

  /** `_build_session`: the first row is the session, the others are ignored aloud. */
  function SessionPart(rt: Runtime, entity: EntityMapping, rows: seq<EntityRow>, source: int, line: Option<nat>)
    : Part<Session>
    requires rows != []
  {
    var ignored := if |rows| > 1 then [Issue(Warning, SessionsIgnored(|rows|), Nowhere, line)] else [];
    Join(Part([], ignored, []), SessionMade(rt, entity, rows[0].data, source, line))
  }

  // ---------------------------------------------------------------- records

  /** The last entity mapping with this target is the one looked up. */
  function ByTarget(mapping: Mapping, target: string): Option<EntityMapping> {
    if mapping == [] then None
    else if mapping[|mapping| - 1].target == target then Some(mapping[|mapping| - 1])
    else ByTarget(mapping[..|mapping| - 1], target)
  }

  function Entries(results: seq<EntityRow>, target: string): seq<EntityRow> {
    if results == [] then []
    else
      var n := |results| - 1;
      Entries(results[..n], target) + (if results[n].entity == target then [results[n]] else [])
  }

  function SessionsOf(rt: Runtime, mapping: Mapping, results: seq<EntityRow>, source: int, line: Option<nat>): Part<Session> {
    var rows, entity := Entries(results, "session"), ByTarget(mapping, "session");
    if rows == [] || entity.None? then Part([], [], []) else SessionPart(rt, entity.value, rows, source, line)
  }

  function ModelCallsOf(rt: Runtime, mapping: Mapping, results: seq<EntityRow>, sessions: seq<Session>, line: Option<nat>)
    : Part<ModelCall>
  {
    var rows, entity := Entries(results, "model_call"), ByTarget(mapping, "model_call");
    if entity.None? then Part([], [], [])
    else if sessions == [] then Orphans(rows, line)
    else ModelCallParts(rt, entity.value, sessions[0].id, line, rows)
  }

  function ToolCallsOf(rt: Runtime, mapping: Mapping, results: seq<EntityRow>, sessions: seq<Session>, line: Option<nat>)
    : Part<ToolCall>
  {
    var rows, entity := Entries(results, "tool_call"), ByTarget(mapping, "tool_call");
    if entity.None? then Part([], [], [])
    else if sessions == [] then Orphans(rows, line)
    else ToolCallParts(rt, entity.value, sessions[0].id, line, rows)
  }

  /** The whole of `normalize`, None when an exception escapes. */
  function Assembled(rt: Runtime, mapping: Mapping, applied: Applied, source: int, line: Option<nat>): Option<NormResult> {
    var sessions := SessionsOf(rt, mapping, applied.results, source, line);
    if sessions.Aborted? then None
    else
      var models := ModelCallsOf(rt, mapping, applied.results, sessions.entities, line);
      if models.Aborted? then None
      else
        var tools := ToolCallsOf(rt, mapping, applied.results, sessions.entities, line);
        if tools.Aborted? then None
        else Some(NormResult(sessions.entities, models.entities, tools.entities,
                             applied.issues + sessions.issues + models.issues + tools.issues,
                             sessions.requests + models.requests + tools.requests))
  }

  function Normalized(rt: Runtime, mapping: Mapping, record: Value, source: int, line: Option<nat>): Option<NormResult> {
    Assembled(rt, mapping, MappingApplied(rt, mapping, record, line), source, line)
  }

  // ---------------------------------------------------------------- methods

  /** `_build_model_calls`. */
  method BuildModelCalls(rt: Runtime, entity: EntityMapping, rows: seq<EntityRow>, sessions: seq<Session>, line: Option<nat>)
    returns (r: Part<ModelCall>)
    ensures r == if sessions == [] then Orphans(rows, line)
                 else ModelCallParts(rt, entity, sessions[0].id, line, rows)
  {
    if sessions == [] {
      return Orphans(rows, line);
    }
    var calls: seq<ModelCall>, issues: seq<Issue>, requests: seq<Request> := [], [], [];
    hide ModelCallPart;
    for i := 0 to |rows|
      invariant Part(calls, issues, requests) == ModelCallParts(rt, entity, sessions[0].id, line, rows[..i])
    {
      assert rows[..i + 1][..i] == rows[..i];
      var turn := ModelCallPart(rt, entity, sessions[0].id, line, rows[i], i);
      if turn.Aborted? {
        ModelCallsAbort(rt, entity, sessions[0].id, line, rows, i + 1);
        return Aborted;
      }
      calls, issues, requests := calls + turn.entities, issues + turn.issues, requests + turn.requests;
    }
    assert rows[..|rows|] == rows;
    return Part(calls, issues, requests);
  }

  lemma ModelCallsAbort(rt: Runtime, entity: EntityMapping, session: Tag, line: Option<nat>, rows: seq<EntityRow>, i: nat)
    requires i <= |rows| && ModelCallParts(rt, entity, session, line, rows[..i]).Aborted?
    ensures ModelCallParts(rt, entity, session, line, rows).Aborted?
    decreases |rows| - i
  {
    hide ModelCallPart;
    if i < |rows| {
      assert rows[..i + 1][..i] == rows[..i];
      ModelCallsAbort(rt, entity, session, line, rows, i + 1);
    } else {
      assert rows[..i] == rows;
    }
  }

  /** `_build_tool_calls`. */
  method BuildToolCalls(rt: Runtime, entity: EntityMapping, rows: seq<EntityRow>, sessions: seq<Session>, line: Option<nat>)
    returns (r: Part<ToolCall>)
    ensures r == if sessions == [] then Orphans(rows, line)
                 else ToolCallParts(rt, entity, sessions[0].id, line, rows)
  {
    if sessions == [] {
      return Orphans(rows, line);
    }
    var calls: seq<ToolCall>, issues: seq<Issue>, requests: seq<Request> := [], [], [];
    hide ToolCallPart;
    for i := 0 to |rows|
      invariant Part(calls, issues, requests) == ToolCallParts(rt, entity, sessions[0].id, line, rows[..i])
    {
      assert rows[..i + 1][..i] == rows[..i];
      var turn := ToolCallPart(rt, entity, sessions[0].id, line, rows[i], i);
      if turn.Aborted? {
        ToolCallsAbort(rt, entity, sessions[0].id, line, rows, i + 1);
        return Aborted;
      }
      calls, issues, requests := calls + turn.entities, issues + turn.issues, requests + turn.requests;
    }
    assert rows[..|rows|] == rows;
    return Part(calls, issues, requests);
  }

  lemma ToolCallsAbort(rt: Runtime, entity: EntityMapping, session: Tag, line: Option<nat>, rows: seq<EntityRow>, i: nat)
    requires i <= |rows| && ToolCallParts(rt, entity, session, line, rows[..i]).Aborted?
    ensures ToolCallParts(rt, entity, session, line, rows).Aborted?
    decreases |rows| - i
  {
    hide ToolCallPart;
    if i < |rows| {
      assert rows[..i + 1][..i] == rows[..i];
      ToolCallsAbort(rt, entity, session, line, rows, i + 1);
    } else {
      assert rows[..i] == rows;
    }
  }

  /** `normalize`: entities, issues and requests of one raw record. */
  method Normalize(rt: Runtime, mapping: Mapping, record: Value, source: int, line: Option<nat>)
    returns (r: Option<NormResult>)
    ensures r == Normalized(rt, mapping, record, source, line)
  {
    hide MappingApplied;
    var results, issues := Apply(rt, mapping, record, line);
    hide SessionPart, ModelCallParts, ToolCallParts, ByTarget, Entries, Orphans;

    var rows, entity := Entries(results, "session"), ByTarget(mapping, "session");
    var sessions: Part<Session> := Part([], [], []);
    if rows != [] && entity.Some? {
      sessions := SessionPart(rt, entity.value, rows, source, line);
    }
    assert sessions == SessionsOf(rt, mapping, results, source, line);
    if sessions.Aborted? {
      return None;
    }
    issues := issues + sessions.issues;

    entity := ByTarget(mapping, "model_call");
    var models: Part<ModelCall> := Part([], [], []);
    if entity.Some? {
      models := BuildModelCalls(rt, entity.value, Entries(results, "model_call"), sessions.entities, line);
    }
    assert models == ModelCallsOf(rt, mapping, results, sessions.entities, line);
    if models.Aborted? {
      return None;
    }
    issues := issues + models.issues;

    entity := ByTarget(mapping, "tool_call");
    var tools: Part<ToolCall> := Part([], [], []);
    if entity.Some? {
      tools := BuildToolCalls(rt, entity.value, Entries(results, "tool_call"), sessions.entities, line);
    }
    assert tools == ToolCallsOf(rt, mapping, results, sessions.entities, line);
    if tools.Aborted? {
      return None;
    }
    issues := issues + tools.issues;

    return Some(NormResult(sessions.entities, models.entities, tools.entities, issues,
                           sessions.requests + models.requests + tools.requests));
  }
}
