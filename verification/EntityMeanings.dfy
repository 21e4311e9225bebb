/**
 What an entity holds, said of the row it comes from: its names, its position,
 its status, its columns, and when it is built at all; and what a row holds, said
 of the rules of its mapping.
 */
module EntityMeanings {
  import opened Values
  import opened JsonPath
  import opened Mappings
  import opened Engine
  import opened EngineLaws
  import opened Normalizer
  import opened NormalizerLaws
  import opened RowFates
  import opened RowLedger
  import opened OperatorMeanings

  // ------------------------------------------------------------------- rows

  /** A rule gives a field: its source is read, its operators run, and what
      comes out is something the field takes. */
  predicate Gives(rt: Runtime, rule: FieldRule, target: string, scope: Scope, v: Value) {
    && SourcePath(rule.source, scope.prefix).Ok?
    && var found := ApplyOperators(rt, rule.operators, Resolved(scope.row, SourcePath(rule.source, scope.prefix).value), scope);
       && found.Done? && found.value != Null
       && Coerced(rt, target, rule.target, found.value) == Some(v)
  }

  predicate Given(rt: Runtime, rule: FieldRule, target: string, scope: Scope) {
    && FieldOutcome(rt, rule, target, scope, None).0 != Null
    && Coerced(rt, target, rule.target, FieldOutcome(rt, rule, target, scope, None).0).Some?
  }

  lemma GivenMeans(rt: Runtime, rule: FieldRule, target: string, scope: Scope, line: Option<nat>)
    ensures FieldOutcome(rt, rule, target, scope, line).0 == FieldOutcome(rt, rule, target, scope, None).0
    ensures Given(rt, rule, target, scope) ==>
              Gives(rt, rule, target, scope, Coerced(rt, target, rule.target, FieldOutcome(rt, rule, target, scope, line).0).value)
    ensures !Given(rt, rule, target, scope) ==> forall v :: !Gives(rt, rule, target, scope, v)
  {
    hide SourcePath, Resolved, ApplyOperators, Coerced;
  }

  /** Some rule gives the field. */
  predicate SomeGives(rt: Runtime, rules: seq<FieldRule>, target: string, scope: Scope, field: string) {
    exists r :: 0 <= r < |rules| && rules[r].target == field && Given(rt, rules[r], target, scope)
  }

  /** The last rule that gives the field gives the value. */
  predicate LastGives(rt: Runtime, rules: seq<FieldRule>, target: string, scope: Scope, field: string, v: Value) {
    exists r :: 0 <= r < |rules| && rules[r].target == field && Gives(rt, rules[r], target, scope, v)
                && forall later :: r < later < |rules| && rules[later].target == field ==> !Given(rt, rules[later], target, scope)
  }

  lemma OneMoreRule(rt: Runtime, rules: seq<FieldRule>, target: string, scope: Scope, field: string)
    requires rules != []
    ensures var n := |rules| - 1;
            SomeGives(rt, rules, target, scope, field) <==>
            (rules[n].target == field && Given(rt, rules[n], target, scope)) || SomeGives(rt, rules[..n], target, scope, field)
  {
    hide Given;
    var n := |rules| - 1;
    assert forall r :: 0 <= r < n ==> rules[..n][r] == rules[r];
  }

  lemma OwnRuleGives(rt: Runtime, rules: seq<FieldRule>, target: string, scope: Scope, field: string, v: Value)
    requires rules != [] && rules[|rules| - 1].target == field && Gives(rt, rules[|rules| - 1], target, scope, v)
    ensures LastGives(rt, rules, target, scope, field, v)
  {
    hide Given, Gives;
  }

  lemma EarlierRuleGives(rt: Runtime, rules: seq<FieldRule>, target: string, scope: Scope, field: string, v: Value)
    requires rules != [] && !(rules[|rules| - 1].target == field && Given(rt, rules[|rules| - 1], target, scope))
    requires LastGives(rt, rules[..|rules| - 1], target, scope, field, v)
    ensures LastGives(rt, rules, target, scope, field, v)
  {
    hide Given, Gives;
    var n := |rules| - 1;
    var r :| 0 <= r < n && rules[..n][r].target == field && Gives(rt, rules[..n][r], target, scope, v)
             && forall later :: r < later < n && rules[..n][later].target == field ==> !Given(rt, rules[..n][later], target, scope);
    forall later | r < later < |rules| && rules[later].target == field ensures !Given(rt, rules[later], target, scope) {
      if later < n {
        assert rules[..n][later] == rules[later];
      }
    }
    assert rules[r].target == field && Gives(rt, rules[r], target, scope, v);
  }

  /** A row holds, for each field, what the last rule that gives it gives. */
  lemma {:induction false} RowMeans(rt: Runtime, target: string, scope: Scope, line: Option<nat>, rules: seq<FieldRule>, field: string)
    ensures var data := AfterFields(rt, target, scope, line, rules).data;
            && (field in data <==> SomeGives(rt, rules, target, scope, field))
            && (field in data ==> LastGives(rt, rules, target, scope, field, data[field]))
  {
    hide FieldOutcome, Coerced, Given, Gives, AfterFields, AfterField, LastGives;
    if rules == [] {
      NoFields(rt, target, scope, line);
    } else {
      hide SomeGives;
      var n := |rules| - 1;
      RowMeans(rt, target, scope, line, rules[..n], field);
      LastField(rt, target, scope, line, rules);
      GivenMeans(rt, rules[n], target, scope, line);
      FieldSets(rt, target, scope, line, AfterFields(rt, target, scope, line, rules[..n]), rules[n]);
      OneMoreRule(rt, rules, target, scope, field);
      var data := AfterFields(rt, target, scope, line, rules).data;
      if rules[n].target == field && Given(rt, rules[n], target, scope) {
        OwnRuleGives(rt, rules, target, scope, field, data[field]);
      } else if field in data {
        EarlierRuleGives(rt, rules, target, scope, field, data[field]);
      }
    }
  }

  lemma FieldSets(rt: Runtime, target: string, scope: Scope, line: Option<nat>, before: RowState, rule: FieldRule)
    ensures AfterField(rt, target, scope, line, before, rule).data ==
            if Given(rt, rule, target, scope)
            then before.data[rule.target := Coerced(rt, target, rule.target, FieldOutcome(rt, rule, target, scope, line).0).value]
            else before.data
  {
    GivenMeans(rt, rule, target, scope, line);
    hide FieldOutcome, Coerced;
  }

  /** The issue of a field: at its source when the path is refused, at the field
      when an operator fails, and rejected exactly when the field is required. */
  lemma {:induction false} FieldMeans(rt: Runtime, rule: FieldRule, target: string, scope: Scope, line: Option<nat>)
    ensures var severity := if rule.required then Rejected else Warning;
            FieldOutcome(rt, rule, target, scope, line) ==
            match SourcePath(rule.source, scope.prefix)
            case Err(e) => (Null, [Issue(severity, Operation(UnsupportedPath(e)), SourceOf(target, rule.target), line)])
            case Ok(path) =>
              match ApplyOperators(rt, rule.operators, Resolved(scope.row, path), scope)
              case Failed(f) => (Null, [Issue(severity, Operation(f), FieldOf(target, rule.target), line)])
              case Done(v) => (v, [])
  {
    hide SourcePath, Resolved, ApplyOperators;
  }

  // --------------------------------------------------------------- entities

  /** A name: the text of a number or a text that is not blank. */
  ghost predicate NameIs(rt: Runtime, data: map<string, Value>, field: string, name: Option<string>) {
    match name
    case Some(n) => field in data && NameText(rt, data[field], n) && exists i :: 0 <= i < |n| && !rt.isSpace(n[i])
    case None => field !in data || data[field] == Null || exists n :: NameText(rt, data[field], n) && forall i :: 0 <= i < |n| ==> rt.isSpace(n[i])
  }

  predicate NameText(rt: Runtime, v: Value, n: string) {
    (v.Str? || v.Int? || v.Float?) && TextIs(rt, v, n)
  }

  predicate StatusIs(data: map<string, Value>, status: string) {
    && status in {"ok", "error", "unknown"}
    && if "status" in data then data["status"] == Str(status) else status == "unknown"
  }

  /** The position: the row's own index, or its place in the source. */
  predicate IndexIs(data: map<string, Value>, place: nat, index: int) {
    if "sequence_index" in data then data["sequence_index"] == Int(index) else index == place
  }

  /** The columns are the data of those fields, no more and no less. */
  ghost predicate ColumnsAre(data: map<string, Value>, fields: set<string>, columns: map<string, Value>) {
    && (forall f :: f in columns <==> f in data && f in fields)
    && forall f :: f in columns ==> columns[f] == data[f]
  }

  ghost predicate ModelCallIs(rt: Runtime, data: map<string, Value>, place: nat, call: ModelCall) {
    && NameIs(rt, data, "model_name", call.model) && NameIs(rt, data, "provider_name", call.provider)
    && IndexIs(data, place, call.index) && StatusIs(data, call.status)
    && ColumnsAre(data, {"input_tokens", "output_tokens", "cache_read_tokens", "cache_creation_tokens",
                         "started_at", "duration_ms", "stop_reason", "error_code"}, call.columns)
  }

  ghost predicate ToolCallIs(rt: Runtime, data: map<string, Value>, place: nat, call: ToolCall) {
    && NameIs(rt, data, "tool_name", Some(call.tool))
    && IndexIs(data, place, call.index) && StatusIs(data, call.status)
    && ColumnsAre(data, {"duration_ms", "error_message", "started_at"}, call.columns)
  }

  ghost predicate SessionIs(rt: Runtime, data: map<string, Value>, source: int, session: Session) {
    && session.source == source
    && "external_id" in data && TextIs(rt, data["external_id"], session.externalId)
    && NameIs(rt, data, "agent_name", session.agentName)
    && ColumnsAre(data, {"started_at", "ended_at", "duration_ms", "outcome"}, session.columns)
    && ("outcome" in data && data["outcome"] != Null ==> data["outcome"] in {Str("completed"), Str("error"), Str("aborted"), Str("unknown")})
  }

  lemma NameMeans(rt: Runtime, target: string, field: string, data: map<string, Value>, line: Option<nat>, blankIsError: bool)
    ensures var (name, issues) := NameFrom(rt, target, field, data, line, blankIsError);
            issues == [] ==> NameIs(rt, data, field, name)
  {
    var v := Get(data, field);
    BlankMeans(rt, rt.TextOf(v));
    hide Runtime.Blank;
    assert NameText(rt, v, rt.TextOf(v)) <==> v.Str? || v.Int? || v.Float?;
  }

  lemma IndexMeans(rt: Runtime, data: map<string, Value>, place: nat)
    requires "sequence_index" in data ==> data["sequence_index"].Int?
    ensures var numbered := Numbered(EntityRow("", data, place));
            && IntOf(rt, Get(numbered, "sequence_index")).Built? && IndexIs(data, place, IntOf(rt, Get(numbered, "sequence_index")).value)
            && (forall f :: f != "sequence_index" ==> Get(numbered, f) == Get(data, f) && (f in numbered <==> f in data))
  {
  }

  lemma ColumnsMean(data: map<string, Value>, place: nat, fields: set<string>)
    requires "sequence_index" !in fields
    ensures ColumnsAre(data, fields, Columns(Numbered(EntityRow("", data, place)), fields))
  {
  }

  lemma FieldNames()
    ensures "sequence_index" !in MODEL_CALL_COLUMNS && "sequence_index" !in TOOL_CALL_COLUMNS
    ensures "sequence_index" !in {"model_name", "provider_name", "tool_name", "status"}
  {
    assert "sequence_index"[1] == 'e' && "started_at"[1] == 't' && "stop_reason"[1] == 't' && "status"[1] == 't';
  }

  /** What a numbered row says of its other fields is what the row says. */
  lemma NameKept(rt: Runtime, data: map<string, Value>, place: nat, field: string, name: Option<string>)
    requires field != "sequence_index" && NameIs(rt, Numbered(EntityRow("", data, place)), field, name)
    ensures NameIs(rt, data, field, name)
  {
    hide NameText;
  }

  lemma RowIs(row: EntityRow)
    ensures Numbered(row) == Numbered(EntityRow("", row.data, row.sourceIndex))
  {
  }

  /** The requests of a model call: its provider, and its model with it. */
  ghost predicate RequestsAre(call: ModelCall, requests: seq<Request>) {
    forall q :: q in requests <==>
      || (call.provider.Some? && q == Request("provider", call.provider.value, []))
      || (call.model.Some? && q == Request("model", call.model.value,
                                            if call.provider.Some? then [("provider_name", call.provider.value)] else []))
  }

  lemma RequestsMean(rt: Runtime, data: map<string, Value>, call: ModelCall)
    requires NameIs(rt, data, "model_name", call.model) && NameIs(rt, data, "provider_name", call.provider)
    ensures RequestsAre(call, ModelRequests(call.model, call.provider))
  {
    hide NameText;
  }

  predicate Indexed(data: map<string, Value>) {
    "sequence_index" in data ==> data["sequence_index"].Int?
  }

  lemma {:induction false} ModelCallMeans(rt: Runtime, entity: EntityMapping, session: Tag, line: Option<nat>, row: EntityRow, k: nat)
    requires Indexed(row.data)
    requires ModelCallPart(rt, entity, session, line, row, k).Part? && ModelCallPart(rt, entity, session, line, row, k).entities != []
    ensures var part := ModelCallPart(rt, entity, session, line, row, k);
            var call := part.entities[0];
            && call.id == Tag(line, "model_call", k) && call.session == session
            && ModelCallIs(rt, row.data, row.sourceIndex, call) && RequestsAre(call, part.requests)
  {
    FieldNames();
    RowIs(row);
    IndexMeans(rt, row.data, row.sourceIndex);
    hide NameFrom, MissingKeys, IntOf, Columns, Numbered, NameIs, ColumnsAre, IndexIs, Indexed, ModelRequests, RequestsAre;
    var data := Numbered(row);
    var call := ModelCallPart(rt, entity, session, line, row, k).entities[0];
    NameMeans(rt, entity.target, "model_name", data, line, false);
    NameMeans(rt, entity.target, "provider_name", data, line, false);
    RequestsMean(rt, data, call);
    NameKept(rt, row.data, row.sourceIndex, "model_name", call.model);
    NameKept(rt, row.data, row.sourceIndex, "provider_name", call.provider);
    ColumnsMean(row.data, row.sourceIndex, MODEL_CALL_COLUMNS);
  }

  lemma {:induction false} ToolCallMeans(rt: Runtime, entity: EntityMapping, session: Tag, line: Option<nat>, row: EntityRow, k: nat)
    requires Indexed(row.data)
    requires ToolCallPart(rt, entity, session, line, row, k).Part? && ToolCallPart(rt, entity, session, line, row, k).entities != []
    ensures var part := ToolCallPart(rt, entity, session, line, row, k);
            var call := part.entities[0];
            && call.id == Tag(line, "tool_call", k) && call.session == session
            && ToolCallIs(rt, row.data, row.sourceIndex, call) && part.requests == [Request("tool", call.tool, [])]
  {
    FieldNames();
    RowIs(row);
    IndexMeans(rt, row.data, row.sourceIndex);
    hide NameFrom, MissingKeys, IntOf, Columns, Numbered, NameIs, ColumnsAre, IndexIs, Indexed;
    var data := Numbered(row);
    NameMeans(rt, entity.target, "tool_name", data, line, true);
    NameKept(rt, row.data, row.sourceIndex, "tool_name", Some(ToolCallPart(rt, entity, session, line, row, k).entities[0].tool));
    ColumnsMean(row.data, row.sourceIndex, TOOL_CALL_COLUMNS);
  }

  lemma {:induction false} SessionMeans(rt: Runtime, entity: EntityMapping, data: map<string, Value>, source: int, line: Option<nat>)
    requires SessionMade(rt, entity, data, source, line).Part? && SessionMade(rt, entity, data, source, line).entities != []
    ensures var part := SessionMade(rt, entity, data, source, line);
            var session := part.entities[0];
            && session.id == Tag(line, "session", 0) && SessionIs(rt, data, source, session)
            && part.requests == if session.agentName.Some? then [Request("agent", session.agentName.value, [])] else []
  {
    NameMeans(rt, entity.target, "agent_name", data, line, false);
    NameIsNotEmpty(rt, entity.target, "agent_name", data, line, false);
    hide NameFrom, MissingKeys, NameIs;
  }

  // ------------------------------------------------------- when they are built

  /** The natural key is there; a call always has a position. */
  predicate KeyIsThere(keys: seq<string>, data: map<string, Value>, numbered: bool) {
    forall key :: key in keys && !(numbered && key == "sequence_index") ==> key in data && data[key] != Null
  }

  lemma {:induction false} KeysMean(keys: seq<string>, data: map<string, Value>)
    ensures MissingKeys(keys, data) == [] <==> KeyIsThere(keys, data, false)
  {
    if keys != [] {
      KeysMean(keys[1..], data);
      assert keys == [keys[0]] + keys[1..];
    }
  }

  lemma CallKeysMean(keys: seq<string>, row: EntityRow)
    requires Indexed(row.data)
    ensures MissingKeys(keys, Numbered(row)) == [] <==> KeyIsThere(keys, row.data, true)
  {
    KeysMean(keys, Numbered(row));
    hide MissingKeys;
  }

  /** A field that is no name rejects the row. */
  predicate Nameable(data: map<string, Value>, field: string) {
    field in data && data[field] != Null ==> data[field].Str? || data[field].Int? || data[field].Float?
  }

  predicate StatusFits(data: map<string, Value>) {
    "status" in data ==> data["status"] in {Str("ok"), Str("error"), Str("unknown")}
  }

  lemma NamesMean(rt: Runtime, target: string, field: string, data: map<string, Value>, line: Option<nat>)
    ensures NameFrom(rt, target, field, data, line, false).1 == [] <==> Nameable(data, field)
  {
  }

  lemma NumberedSame(row: EntityRow, field: string)
    requires field != "sequence_index"
    ensures Nameable(Numbered(row), field) <==> Nameable(row.data, field)
    ensures field in Numbered(row) <==> field in row.data
    ensures field in row.data ==> Numbered(row)[field] == row.data[field]
  {
  }

  lemma StatusMeans(row: EntityRow)
    requires "status" in row.data ==> row.data["status"].Str?
    ensures StatusOf(Numbered(row)).Built? <==> StatusFits(row.data)
    ensures !StatusOf(Numbered(row)).Escapes?
  {
    FieldNames();
    NumberedSame(row, "status");
    hide Numbered;
  }

  /** A row of model calls is built exactly when its natural key is there, its
      names are names and its status is one of three. */
  lemma {:induction false} ModelCallExact(rt: Runtime, entity: EntityMapping, session: Tag, line: Option<nat>, row: EntityRow, k: nat)
    requires Indexed(row.data) && ("status" in row.data ==> row.data["status"].Str?)
    ensures var part := ModelCallPart(rt, entity, session, line, row, k);
            && part.Part?
            && (part.entities != [] <==>
                  && KeyIsThere(entity.naturalKey, row.data, true)
                  && Nameable(row.data, "model_name") && Nameable(row.data, "provider_name") && StatusFits(row.data))
  {
    FieldNames();
    RowIs(row);
    IndexMeans(rt, row.data, row.sourceIndex);
    CallKeysMean(entity.naturalKey, row);
    StatusMeans(row);
    NamesMean(rt, entity.target, "model_name", Numbered(row), line);
    NamesMean(rt, entity.target, "provider_name", Numbered(row), line);
    NumberedSame(row, "model_name");
    NumberedSame(row, "provider_name");
    hide NameFrom, MissingKeys, IntOf, Columns, Numbered, StatusOf, Nameable, KeyIsThere, StatusFits, IndexIs, Indexed;
  }

  /** And of tool calls, whose name has to say something. */
  lemma {:induction false} ToolCallExact(rt: Runtime, entity: EntityMapping, session: Tag, line: Option<nat>, row: EntityRow, k: nat)
    requires Indexed(row.data) && ("status" in row.data ==> row.data["status"].Str?)
    ensures var part := ToolCallPart(rt, entity, session, line, row, k);
            && part.Part?
            && (part.entities != [] <==>
                  && KeyIsThere(entity.naturalKey, row.data, true) && StatusFits(row.data)
                  && exists n :: NameIs(rt, row.data, "tool_name", Some(n)))
  {
    FieldNames();
    RowIs(row);
    IndexMeans(rt, row.data, row.sourceIndex);
    CallKeysMean(entity.naturalKey, row);
    StatusMeans(row);
    ToolNameMeans(rt, entity.target, row.data, line, Numbered(row));
    hide NameFrom, MissingKeys, IntOf, Columns, Numbered, StatusOf, NameIs, KeyIsThere, StatusFits, IndexIs, Indexed;
  }

  lemma ToolNameMeans(rt: Runtime, target: string, data: map<string, Value>, line: Option<nat>, numbered: map<string, Value>)
    requires Get(numbered, "tool_name") == Get(data, "tool_name") && ("tool_name" in numbered <==> "tool_name" in data)
    ensures var (name, issues) := NameFrom(rt, target, "tool_name", numbered, line, true);
            issues == [] && name.Some? <==> exists n :: NameIs(rt, data, "tool_name", Some(n))
  {
    var v := Get(data, "tool_name");
    BlankMeans(rt, rt.TextOf(v));
    hide Runtime.Blank;
    var (name, issues) := NameFrom(rt, target, "tool_name", numbered, line, true);
    if issues == [] && name.Some? {
      assert NameIs(rt, data, "tool_name", Some(name.value));
    }
  }

  /** And the session. */
  lemma {:induction false} SessionExact(rt: Runtime, entity: EntityMapping, data: map<string, Value>, source: int, line: Option<nat>)
    requires "outcome" in data ==> data["outcome"].Str?
    ensures var part := SessionMade(rt, entity, data, source, line);
            && part.Part?
            && (part.entities != [] <==>
                  && KeyIsThere(entity.naturalKey, data, false) && Nameable(data, "agent_name") && "external_id" in data
                  && ("outcome" in data ==> data["outcome"] in {Str("completed"), Str("error"), Str("aborted"), Str("unknown")}))
  {
    KeysMean(entity.naturalKey, data);
    NamesMean(rt, entity.target, "agent_name", data, line);
    hide NameFrom, MissingKeys, KeyIsThere, Nameable;
  }
}
