/**
 What the issues of a record say: which one each rule, each walk and each refused
 row gives, where it points, and under which code it is known.
 */
module IssueMeanings {
  import opened Values
  import opened JsonPath
  import opened PathIssues
  import opened Mappings
  import opened Engine
  import opened EngineLaws
  import opened Normalizer
  import opened EntityMeanings

  // -------------------------------------------------------------- the schema

  /** The fields of each type, target by target. */
  predicate TypedAs(target: string, field: string, expected: TargetType) {
    match expected
    case Text =>
      || (target == "session" && field in {"external_id", "agent_name", "outcome"})
      || (target == "model_call" && field in {"model_name", "provider_name", "stop_reason", "status", "error_code"})
      || (target == "tool_call" && field in {"tool_name", "status", "error_message"})
    case Whole =>
      || (target == "session" && field == "duration_ms")
      || (target in {"model_call", "tool_call"} && field in {"sequence_index", "duration_ms"})
      || (target == "model_call" && field in {"input_tokens", "output_tokens", "cache_read_tokens", "cache_creation_tokens"})
    case Instant =>
      || (target in {"session", "model_call", "tool_call"} && field == "started_at")
      || (target == "session" && field == "ended_at")
  }

  lemma TargetNames()
    ensures "session" != "model_call" && "session" != "tool_call" && "model_call" != "tool_call"
  {
    assert "session"[0] != "model_call"[0] && "session"[0] != "tool_call"[0] && "model_call"[0] != "tool_call"[0];
  }

  /** The schema has these fields, one type for each, and no other. */
  lemma {:induction false} SchemaExact(target: string, field: string, expected: TargetType)
    ensures FieldType(target, field) == Some(expected) <==> TypedAs(target, field, expected)
  {
    TargetNames();
    FieldNamesDiffer();
  }

  const FIELDS := {"external_id", "agent_name", "outcome", "started_at", "ended_at", "duration_ms", "model_name", "provider_name",
                   "stop_reason", "status", "error_code", "sequence_index", "input_tokens", "output_tokens", "cache_read_tokens",
                   "cache_creation_tokens", "tool_name", "error_message"}

  lemma FieldNamesDiffer()
    ensures forall a, b :: a in FIELDS && b in FIELDS && a != b ==> |a| != |b| || a[0] != b[0] || a[1] != b[1]
  {
  }

  /** A type takes the values of its kind, and a boolean is no number. */
  lemma {:induction false} TypesMean(target: string, field: string, v: Value, expected: TargetType)
    requires FieldType(target, field) == Some(expected)
    ensures HasTargetType(target, field, v) <==>
            (expected.Text? && v.Str?) || (expected.Whole? && v.Int?) || (expected.Instant? && v.DateTime?)
  {
    hide FieldType;
  }

  // ------------------------------------------------------------------- codes

  /** The codes of an issue, each with all of its reasons. */
  lemma {:induction false} CodesMean(reason: Reason)
    ensures Code(reason) == "MAPPING_UNSUPPORTED_PATH" <==>
            reason.IterateUnsupported? || (reason.Operation? && reason.failure.UnsupportedPath?)
    ensures Code(reason) == "CAST_FAILED" <==> reason.Operation? && (reason.failure.CastFailed? || reason.failure.UnknownCastTarget?)
    ensures Code(reason) == "DATETIME_PARSE_FAILED" <==>
            reason.Operation? && (reason.failure.DatetimeUnreadable? || reason.failure == BadParameter("format"))
    ensures Code(reason) == "REGEX_EXTRACTOR_NOT_CONFIGURED" <==> reason.Operation? && reason.failure.ExtractorMissing?
    ensures Code(reason) == "INVALID_OPERATOR_PARAM" <==> reason.Operation? && reason.failure.ExtractorRefused?
    ensures Code(reason) == "OPERATOR_FAILED" <==>
            && reason.Operation?
            && var f := reason.failure;
               || f.UnknownOperator? || f.MissingParameter? || f.UnknownUnits? || f.UnknownAlgorithm? || f.OperatorFailed?
               || (f.BadParameter? && f.parameter != "format")
    ensures Code(reason) == "ITERATE_NOT_A_LIST" <==> reason.IterateNotAList?
    ensures Code(reason) == "TYPE_MISMATCH" <==> reason.TypeMismatch?
    ensures Code(reason) == "MISSING_REQUIRED_FIELD" <==> reason.MissingRequiredField?
    ensures Code(reason) == "MAPPING_MISSING_NATURAL_KEY" <==> reason.MissingNaturalKey?
    ensures Code(reason) == "REFERENCE_NAME_INVALID" <==> reason.NameInvalid?
    ensures Code(reason) == "ENTITY_CONSTRUCTION_FAILED" <==> reason.ConstructionFailed?
    ensures Code(reason) == "PARENT_SESSION_MISSING" <==> reason.ParentMissing? || reason.CallsUnlinked?
    ensures Code(reason) == "MULTIPLE_SESSIONS_IGNORED" <==> reason.SessionsIgnored?
    ensures Code(reason) == "REFERENCE_UNRESOLVED" <==> reason.ReferenceUnresolved?
    ensures Code(reason) == "ALREADY_IMPORTED" <==> reason.AlreadyImported?
  {
    CodesDiffer();
  }

  const CODES := {"MAPPING_UNSUPPORTED_PATH", "CAST_FAILED", "DATETIME_PARSE_FAILED", "REGEX_EXTRACTOR_NOT_CONFIGURED",
                  "INVALID_OPERATOR_PARAM", "OPERATOR_FAILED", "ITERATE_NOT_A_LIST", "TYPE_MISMATCH", "MISSING_REQUIRED_FIELD",
                  "MAPPING_MISSING_NATURAL_KEY", "REFERENCE_NAME_INVALID", "ENTITY_CONSTRUCTION_FAILED", "PARENT_SESSION_MISSING",
                  "MULTIPLE_SESSIONS_IGNORED", "REFERENCE_UNRESOLVED", "ALREADY_IMPORTED"}

  lemma CodesDiffer()
    ensures forall a, b :: a in CODES && b in CODES && a != b ==> |a| != |b| || a[0] != b[0] || a[1] != b[1]
  {
  }

  // -------------------------------------------------------------------- rows

  /** What one rule reports: at its source when the path is refused, at its field
      when an operator fails, a required value is missing, or the field does not
      take the value. Only what fails before the gate is told apart by whether
      the rule is required. */
  predicate Reports(rt: Runtime, rule: FieldRule, target: string, scope: Scope, line: Option<nat>, issues: seq<Issue>) {
    var severity := if rule.required then Rejected else Warning;
    var field := FieldOf(target, rule.target);
    match SourcePath(rule.source, scope.prefix)
    case Err(e) => issues == [Issue(severity, Operation(UnsupportedPath(e)), SourceOf(target, rule.target), line)]
    case Ok(path) =>
      match ApplyOperators(rt, rule.operators, Resolved(scope.row, path), scope)
      case Failed(f) => issues == [Issue(severity, Operation(f), field, line)]
      case Done(v) =>
        if v == Null then issues == if rule.required then [Issue(Rejected, MissingRequiredField, field, line)] else []
        else issues == if Coerced(rt, target, rule.target, v).Some? then [] else [Issue(Rejected, TypeMismatch, field, line)]
  }

  lemma RuleMeans(rt: Runtime, target: string, scope: Scope, line: Option<nat>, before: RowState, rule: FieldRule) returns (own: seq<Issue>)
    ensures AfterField(rt, target, scope, line, before, rule).issues == before.issues + own
    ensures Reports(rt, rule, target, scope, line, own)
  {
    FieldMeans(rt, rule, target, scope, line);
    hide FieldOutcome, SourcePath, Resolved, ApplyOperators, Coerced, HasTargetType;
    var (value, raised) := FieldOutcome(rt, rule, target, scope, line);
    own := if value.Null? && rule.required && raised == [] then [Issue(Rejected, MissingRequiredField, FieldOf(target, rule.target), line)]
           else if !value.Null? && Coerced(rt, target, rule.target, value).None? then [Issue(Rejected, TypeMismatch, FieldOf(target, rule.target), line)]
           else raised;
    assert before.issues + raised + [] == before.issues + raised;
    assert raised == [] ==> before.issues + raised == before.issues && before.issues + [] == before.issues;
    assert !value.Null? ==> raised == [];
  }

  /** The issues of a row are those of its rules, one rule after the other. */
  lemma {:induction false} RowReports(rt: Runtime, target: string, scope: Scope, line: Option<nat>, rules: seq<FieldRule>, rule: FieldRule)
    returns (own: seq<Issue>)
    ensures AfterFields(rt, target, scope, line, []).issues == []
    ensures AfterFields(rt, target, scope, line, rules + [rule]).issues == AfterFields(rt, target, scope, line, rules).issues + own
    ensures Reports(rt, rule, target, scope, line, own)
  {
    NoFields(rt, target, scope, line);
    LastField(rt, target, scope, line, rules + [rule]);
    assert (rules + [rule])[..|rules|] == rules;
    hide AfterFields, AfterField, Reports;
    own := RuleMeans(rt, target, scope, line, AfterFields(rt, target, scope, line, rules), rule);
  }

  // -------------------------------------------------------------- extraction

  /** What a mapping reaches in a record. Without an `iterate` it is the record
      alone; an unreadable one reaches nothing, and is rejected; a readable one
      reaches the rows of its path, and is rejected too when something on the
      way does not fit, with exactly what did not. */
  lemma {:induction false} ExtractionMeans(entity: EntityMapping, record: Value, line: Option<nat>, m: Mismatch)
    ensures var (rows, prefix, issues) := Extracted(entity, record, line);
            if entity.iterate.None? || entity.iterate.value == "" then rows == [record] && prefix == [] && issues == []
            else
              match IteratePath(entity.iterate.value)
              case Err(e) => rows == [] && prefix == [] && issues == [Issue(Rejected, IterateUnsupported(e), IterateOf(entity.target), line)]
              case Ok(path) =>
                && rows == Rows([record], path) && prefix == path && |issues| <= 1
                && (issues != [] ==>
                      && issues[0].severity == Rejected && issues[0].place == IterateOf(entity.target) && issues[0].line == line
                      && issues[0].reason.IterateNotAList? && issues[0].reason.wrong != [])
                && ((exists n: nat :: n < |path| && Arises([record], path, n, m)) <==>
                      issues != [] && m in issues[0].reason.wrong)
  {
    hide IteratePath, Rows, Wrong, Arises;
    if entity.Iterated() && IteratePath(entity.iterate.value).Ok? {
      MismatchesMean([], [record], IteratePath(entity.iterate.value).value, m);
    }
  }

  /** The issues of a record are those of its entities in turn, and of an entity
      those of its walk and then of its rows in turn. */
  lemma {:induction false} IssuesInOrder(rt: Runtime, mapping: Mapping, entity: EntityMapping, record: Value, line: Option<nat>,
                                         prefix: Path, rows: seq<Value>, row: Value)
    ensures MappingApplied(rt, mapping + [entity], record, line).issues ==
            MappingApplied(rt, mapping, record, line).issues + EntityApplied(rt, entity, record, line).issues
    ensures EntityApplied(rt, entity, record, line).issues ==
            var (reached, path, issues) := Extracted(entity, record, line); issues + RowsApplied(rt, entity, path, line, reached).issues
    ensures RowsApplied(rt, entity, prefix, line, rows + [row]).issues ==
            RowsApplied(rt, entity, prefix, line, rows).issues + AfterFields(rt, entity.target, Scope(row, prefix), line, entity.fields).issues
    ensures MappingApplied(rt, [], record, line).issues == [] && RowsApplied(rt, entity, prefix, line, []).issues == []
  {
    hide AfterFields, Extracted;
    assert (mapping + [entity])[..|mapping|] == mapping;
    assert (rows + [row])[..|rows|] == rows;
  }

  // ------------------------------------------------------------ refused rows

  predicate MissingKey(data: map<string, Value>, key: string) {
    key !in data || data[key] == Null
  }

  /** The missing parts of a natural key, in the order the key names them. */
  predicate MissingAre(keys: seq<string>, data: map<string, Value>, numbered: bool, missing: seq<string>) {
    if keys == [] then missing == []
    else
      var last := keys[|keys| - 1];
      if !(numbered && last == "sequence_index") && MissingKey(data, last)
      then missing != [] && missing[|missing| - 1] == last && MissingAre(keys[..|keys| - 1], data, numbered, missing[..|missing| - 1])
      else MissingAre(keys[..|keys| - 1], data, numbered, missing)
  }

  lemma {:induction false} MissingConcat(a: seq<string>, b: seq<string>, data: map<string, Value>)
    ensures MissingKeys(a + b, data) == MissingKeys(a, data) + MissingKeys(b, data)
  {
    if a == [] {
      assert a + b == b;
    } else {
      assert (a + b)[1..] == a[1..] + b;
      MissingConcat(a[1..], b, data);
    }
  }

  lemma LastMissing(key: string, data: map<string, Value>)
    ensures MissingKeys([key], data) == if MissingKey(data, key) then [key] else []
  {
    assert [key][1..] == [] && MissingKeys([], data) == [];
  }

  lemma {:induction false} MissingMean(keys: seq<string>, data: map<string, Value>)
    ensures MissingAre(keys, data, false, MissingKeys(keys, data))
  {
    if keys != [] {
      var n := |keys| - 1;
      MissingMean(keys[..n], data);
      assert keys == keys[..n] + [keys[n]];
      MissingConcat(keys[..n], [keys[n]], data);
      LastMissing(keys[n], data);
      hide MissingKeys;
      var before := MissingKeys(keys[..n], data);
      assert before + [] == before && (before + [keys[n]])[..|before|] == before;
    }
  }

  lemma {:induction false} NumberedMissing(keys: seq<string>, row: EntityRow, missing: seq<string>)
    requires MissingAre(keys, Numbered(row), false, missing) && Indexed(row.data)
    ensures MissingAre(keys, row.data, true, missing)
  {
    if keys != [] {
      NumberedMissing(keys[..|keys| - 1], row, if MissingKey(Numbered(row), keys[|keys| - 1]) then missing[..|missing| - 1] else missing);
    }
  }

  /** The one issue of a row that lacks a part of its natural key. */
  predicate KeyRefused(keys: seq<string>, data: map<string, Value>, numbered: bool, line: Option<nat>, issues: seq<Issue>) {
    && |issues| == 1 && issues[0].reason.MissingNaturalKey? && issues[0] == Issue(Rejected, issues[0].reason, Nowhere, line)
    && issues[0].reason.keys != [] && MissingAre(keys, data, numbered, issues[0].reason.keys)
  }

  predicate NameRefused(target: string, field: string, line: Option<nat>, issue: Issue) {
    issue == Issue(Rejected, NameInvalid, FieldOf(target, field), line)
  }

  predicate BuildRefused(line: Option<nat>, issues: seq<Issue>) {
    issues == [Issue(Rejected, ConstructionFailed, Nowhere, line)]
  }

  lemma NameIssues(rt: Runtime, target: string, field: string, data: map<string, Value>, line: Option<nat>)
    ensures var issues := NameFrom(rt, target, field, data, line, false).1;
            if Nameable(data, field) then issues == [] else |issues| == 1 && NameRefused(target, field, line, issues[0])
  {
  }

  /** Why a model call is refused: for its key, and if that is there for its
      names, and if those are names for its status; a model call that is built
      has no issue. */
  lemma {:induction false} ModelCallRefused(rt: Runtime, entity: EntityMapping, session: Tag, line: Option<nat>, row: EntityRow, k: nat)
    requires Indexed(row.data) && ("status" in row.data ==> row.data["status"].Str?)
    ensures var issues := ModelCallPart(rt, entity, session, line, row, k).issues;
            if !KeyIsThere(entity.naturalKey, row.data, true) then KeyRefused(entity.naturalKey, row.data, true, line, issues)
            else if !Nameable(row.data, "model_name") && !Nameable(row.data, "provider_name") then
              |issues| == 2 && NameRefused(entity.target, "model_name", line, issues[0]) && NameRefused(entity.target, "provider_name", line, issues[1])
            else if !Nameable(row.data, "model_name") then |issues| == 1 && NameRefused(entity.target, "model_name", line, issues[0])
            else if !Nameable(row.data, "provider_name") then |issues| == 1 && NameRefused(entity.target, "provider_name", line, issues[0])
            else if !StatusFits(row.data) then BuildRefused(line, issues)
            else issues == []
  {
    FieldNames();
    RowIs(row);
    IndexMeans(rt, row.data, row.sourceIndex);
    CallKeysMean(entity.naturalKey, row);
    StatusMeans(row);
    MissingMean(entity.naturalKey, Numbered(row));
    NumberedMissing(entity.naturalKey, row, MissingKeys(entity.naturalKey, Numbered(row)));
    NameIssues(rt, entity.target, "model_name", Numbered(row), line);
    NameIssues(rt, entity.target, "provider_name", Numbered(row), line);
    NumberedSame(row, "model_name");
    NumberedSame(row, "provider_name");
    hide NameFrom, MissingKeys, IntOf, Columns, Numbered, StatusOf, Nameable, KeyIsThere, StatusFits, IndexIs, Indexed, MissingAre;
  }

  lemma ToolNameIssues(rt: Runtime, target: string, data: map<string, Value>, line: Option<nat>)
    ensures var (name, issues) := NameFrom(rt, target, "tool_name", data, line, true);
            && (issues != [] <==> "tool_name" in data && data["tool_name"] != Null && name.None?)
            && (issues != [] ==> |issues| == 1 && NameRefused(target, "tool_name", line, issues[0]))
            && (name.Some? <==> exists n :: NameIs(rt, data, "tool_name", Some(n)))
  {
    ToolNameMeans(rt, target, data, line, data);
    hide Runtime.Blank, NameIs;
  }

  lemma SameName(rt: Runtime, row: EntityRow, n: string)
    ensures NameIs(rt, Numbered(row), "tool_name", Some(n)) <==> NameIs(rt, row.data, "tool_name", Some(n))
  {
    FieldNames();
    NumberedSame(row, "tool_name");
    hide Numbered, NameText;
  }

  /** Why a tool call is refused: for its key, a name that says nothing or is
      none, no name at all, or its status. */
  lemma {:induction false} ToolCallRefused(rt: Runtime, entity: EntityMapping, session: Tag, line: Option<nat>, row: EntityRow, k: nat)
    requires Indexed(row.data) && ("status" in row.data ==> row.data["status"].Str?)
    ensures var issues := ToolCallPart(rt, entity, session, line, row, k).issues;
            if !KeyIsThere(entity.naturalKey, row.data, true) then KeyRefused(entity.naturalKey, row.data, true, line, issues)
            else if "tool_name" !in row.data || row.data["tool_name"] == Null then BuildRefused(line, issues)
            else if forall n :: !NameIs(rt, row.data, "tool_name", Some(n)) then
              |issues| == 1 && NameRefused(entity.target, "tool_name", line, issues[0])
            else if !StatusFits(row.data) then BuildRefused(line, issues)
            else issues == []
  {
    FieldNames();
    RowIs(row);
    IndexMeans(rt, row.data, row.sourceIndex);
    CallKeysMean(entity.naturalKey, row);
    StatusMeans(row);
    MissingMean(entity.naturalKey, Numbered(row));
    NumberedMissing(entity.naturalKey, row, MissingKeys(entity.naturalKey, Numbered(row)));
    ToolNameIssues(rt, entity.target, Numbered(row), line);
    NumberedSame(row, "tool_name");
    forall n ensures NameIs(rt, Numbered(row), "tool_name", Some(n)) <==> NameIs(rt, row.data, "tool_name", Some(n)) {
      SameName(rt, row, n);
    }
    hide NameFrom, MissingKeys, IntOf, Columns, Numbered, StatusOf, KeyIsThere, StatusFits, IndexIs, Indexed, MissingAre, NameIs;
  }

  /** Why a session is refused. */
  lemma {:induction false} SessionRefused(rt: Runtime, entity: EntityMapping, data: map<string, Value>, source: int, line: Option<nat>)
    requires "outcome" in data ==> data["outcome"].Str?
    ensures var issues := SessionMade(rt, entity, data, source, line).issues;
            if !KeyIsThere(entity.naturalKey, data, false) then KeyRefused(entity.naturalKey, data, false, line, issues)
            else if !Nameable(data, "agent_name") then |issues| == 1 && NameRefused(entity.target, "agent_name", line, issues[0])
            else if "external_id" !in data || ("outcome" in data && data["outcome"] !in {Str("completed"), Str("error"), Str("aborted"), Str("unknown")})
              then BuildRefused(line, issues)
            else issues == []
  {
    KeysMean(entity.naturalKey, data);
    MissingMean(entity.naturalKey, data);
    NameIssues(rt, entity.target, "agent_name", data, line);
    hide NameFrom, MissingKeys, KeyIsThere, Nameable, MissingAre;
  }

  /** Rows that stay without an entity because of others: the sessions after the
      first, with one warning that counts all rows, and calls that have no
      session, with one rejection that counts them. */
  lemma {:induction false} LeftOutMeans(rt: Runtime, entity: EntityMapping, rows: seq<EntityRow>, source: int, line: Option<nat>)
    requires rows != [] && SessionMade(rt, entity, rows[0].data, source, line).Part?
    ensures var made, part := SessionMade(rt, entity, rows[0].data, source, line), SessionPart(rt, entity, rows, source, line);
            && part.Part? && part.entities == made.entities && part.requests == made.requests
            && part.issues == (if |rows| >= 2 then [Issue(Warning, SessionsIgnored(|rows|), Nowhere, line)] else []) + made.issues
    ensures Orphans<ModelCall>(rows, line) == Part([], [Issue(Rejected, ParentMissing(|rows|), Nowhere, line)], [])
    ensures Orphans<ToolCall>([], line) == Part([], [], [])
  {
    hide SessionMade;
    var made := SessionMade(rt, entity, rows[0].data, source, line);
    assert [] + made.entities == made.entities && [] + made.requests == made.requests;
  }

  /** The mapping whose natural key and target a row is built by is the last one
      of the row's target. */
  lemma {:induction false} LastMappingRules(mapping: Mapping, target: string, e: nat)
    requires e < |mapping| && mapping[e].target == target && forall later :: e < later < |mapping| ==> mapping[later].target != target
    ensures ByTarget(mapping, target) == Some(mapping[e])
  {
    if e < |mapping| - 1 {
      LastMappingRules(mapping[..|mapping| - 1], target, e);
    }
  }

  /** The calls of a record are built row by row: entities, issues and requests
      of one more row come after those of the rows before it. */
  lemma {:induction false} CallsInOrder(rt: Runtime, entity: EntityMapping, session: Tag, line: Option<nat>, rows: seq<EntityRow>, row: EntityRow)
    ensures ModelCallParts(rt, entity, session, line, []) == Part([], [], []) && ToolCallParts(rt, entity, session, line, []) == Part([], [], [])
    ensures var before, own, after := ModelCallParts(rt, entity, session, line, rows), ModelCallPart(rt, entity, session, line, row, |rows|),
                                      ModelCallParts(rt, entity, session, line, rows + [row]);
            before.Part? && own.Part? ==>
              after == Part(before.entities + own.entities, before.issues + own.issues, before.requests + own.requests)
    ensures var before, own, after := ToolCallParts(rt, entity, session, line, rows), ToolCallPart(rt, entity, session, line, row, |rows|),
                                      ToolCallParts(rt, entity, session, line, rows + [row]);
            before.Part? && own.Part? ==>
              after == Part(before.entities + own.entities, before.issues + own.issues, before.requests + own.requests)
  {
    hide ModelCallPart, ToolCallPart;
    assert (rows + [row])[..|rows|] == rows;
  }
}
