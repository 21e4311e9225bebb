/**
 Laws of the normaliser, over every mapping and every record: no exception
 escapes it, no row is lost in silence, and what it hands to the import is
 closed: every call has its session, every name its request.
 */
module NormalizerLaws {
  import opened Values
  import opened JsonPath
  import opened Mappings
  import opened Engine
  import opened EngineLaws
  import opened Normalizer
  import opened References

  // -------------------------------------------------- the schema, by fact

  lemma Schema()
    ensures FieldType("session", "outcome") == Some(Text)
    ensures FieldType("model_call", "status") == Some(Text)
    ensures FieldType("model_call", "sequence_index") == Some(Whole)
    ensures FieldType("tool_call", "status") == Some(Text)
    ensures FieldType("tool_call", "sequence_index") == Some(Whole)
  {
  }

  predicate AllTyped(rows: seq<EntityRow>) {
    forall i :: 0 <= i < |rows| ==> Typed(rows[i].entity, rows[i].data)
  }

  lemma RowsTyped(rt: Runtime, entity: EntityMapping, prefix: Path, line: Option<nat>, rows: seq<Value>)
    ensures AllTyped(RowsApplied(rt, entity, prefix, line, rows).results)
  {
    hide Typed, FromRules, HasRequired, RowOutcome;
    var results := RowsApplied(rt, entity, prefix, line, rows).results;
    RowPositions(rt, entity, prefix, line, rows);
    forall i | 0 <= i < |results| ensures Typed(results[i].entity, results[i].data) {
      assert results[i] in results;
      TypeGate(rt, entity, Scope(rows[results[i].sourceIndex], prefix), line);
    }
  }

  lemma {:induction false} ResultsTyped(rt: Runtime, mapping: Mapping, record: Value, line: Option<nat>)
    ensures AllTyped(MappingApplied(rt, mapping, record, line).results)
  {
    hide Typed, RowsApplied, Extracted;
    if mapping != [] {
      var n := |mapping| - 1;
      ResultsTyped(rt, mapping[..n], record, line);
      var (rows, prefix, issues) := Extracted(mapping[n], record, line);
      RowsTyped(rt, mapping[n], prefix, line, rows);
    }
  }

  lemma EntriesOf(results: seq<EntityRow>, target: string)
    ensures forall i :: 0 <= i < |Entries(results, target)| ==>
              Entries(results, target)[i] in results && Entries(results, target)[i].entity == target
    ensures AllTyped(results) ==> AllTyped(Entries(results, target))
  {
    hide Typed;
    if results != [] {
      EntriesOf(results[..|results| - 1], target);
    }
  }

  // ------------------------------------------------------------- no escape

  lemma SessionSafe(rt: Runtime, entity: EntityMapping, rows: seq<EntityRow>, source: int, line: Option<nat>)
    requires rows != [] && rows[0].entity == "session" && Typed("session", rows[0].data)
    ensures !SessionPart(rt, entity, rows, source, line).Aborted?
  {
    Schema();
    hide FieldType, NameFrom;
  }

  lemma CallSafe(rt: Runtime, entity: EntityMapping, session: Tag, line: Option<nat>, row: EntityRow, k: nat)
    requires Typed(row.entity, row.data)
    ensures row.entity == "model_call" ==> !ModelCallPart(rt, entity, session, line, row, k).Aborted?
    ensures row.entity == "tool_call" ==> !ToolCallPart(rt, entity, session, line, row, k).Aborted?
  {
    Schema();
    hide FieldType, NameFrom, MissingKeys, Columns;
  }

  lemma CallsSafe(rt: Runtime, entity: EntityMapping, session: Tag, line: Option<nat>, rows: seq<EntityRow>, target: string)
    requires AllTyped(rows) && forall i :: 0 <= i < |rows| ==> rows[i].entity == target
    ensures target == "model_call" ==> !ModelCallParts(rt, entity, session, line, rows).Aborted?
    ensures target == "tool_call" ==> !ToolCallParts(rt, entity, session, line, rows).Aborted?
  {
    hide Typed, ModelCallPart, ToolCallPart;
    if rows != [] {
      var n := |rows| - 1;
      CallsSafe(rt, entity, session, line, rows[..n], target);
      CallSafe(rt, entity, session, line, rows[n], n);
    }
  }

  /** No exception escapes, on any mapping and any record: the type gate keeps
      every value that could raise an uncaught one out of the constructors. */
  lemma {:induction false} NoEscape(rt: Runtime, mapping: Mapping, record: Value, source: int, line: Option<nat>)
    ensures Normalized(rt, mapping, record, source, line).Some?
  {
    var results := MappingApplied(rt, mapping, record, line).results;
    ResultsTyped(rt, mapping, record, line);
    EntriesOf(results, "session");
    EntriesOf(results, "model_call");
    EntriesOf(results, "tool_call");
    hide Typed, SessionPart, ModelCallParts, ToolCallParts, ByTarget, Entries, MappingApplied;
    var rows, entity := Entries(results, "session"), ByTarget(mapping, "session");
    if rows != [] && entity.Some? {
      SessionSafe(rt, entity.value, rows, source, line);
    }
    var sessions := SessionsOf(rt, mapping, results, source, line).entities;
    if sessions != [] {
      var models, tools := ByTarget(mapping, "model_call"), ByTarget(mapping, "tool_call");
      if models.Some? {
        CallsSafe(rt, models.value, sessions[0].id, line, Entries(results, "model_call"), "model_call");
      }
      if tools.Some? {
        CallsSafe(rt, tools.value, sessions[0].id, line, Entries(results, "tool_call"), "tool_call");
      }
    }
  }

  /** Without the gate an exception would escape: a status that is a list, or a
      position that is an infinite float. */
  lemma {:induction false} UngatedEscapes(rt: Runtime, id: Tag, session: Tag)
    ensures MakeModelCall(rt, id, session, None, None, map["sequence_index" := Int(0), "status" := List([])]).Escapes?
    ensures MakeToolCall(rt, id, session, "Bash", map["sequence_index" := Float(Infinite(false))]).Escapes?
  {
    var status: map<string, Value> := map["sequence_index" := Int(0), "status" := List([])];
    assert "sequence_index" != "status";
    assert StatusOf(status) == Escapes;
  }

  // ---------------------------------------------------------------- closure

  predicate LinkedSession(session: Session, line: Option<nat>, requests: seq<Request>) {
    session.id == Tag(line, "session", 0) && Asked(AgentKey(session), requests)
  }

  predicate LinkedModelCall(call: ModelCall, line: Option<nat>, requests: seq<Request>) {
    && call.session == Tag(line, "session", 0)
    && call.id == Tag(line, "model_call", call.id.index)
    && Asked(ModelKey(call), requests)
  }

  predicate LinkedToolCall(call: ToolCall, line: Option<nat>, requests: seq<Request>) {
    && call.session == Tag(line, "session", 0)
    && call.id == Tag(line, "tool_call", call.id.index)
    && Asked(ToolKey(call), requests)
  }

  predicate SessionsLinked(sessions: seq<Session>, requests: seq<Request>, line: Option<nat>) {
    |sessions| <= 1 && (sessions != [] ==> LinkedSession(sessions[0], line, requests))
  }

  predicate ModelCallsLinked(calls: seq<ModelCall>, requests: seq<Request>, line: Option<nat>) {
    && (forall i :: 0 <= i < |calls| ==> LinkedModelCall(calls[i], line, requests))
    && (forall i, j :: 0 <= i < j < |calls| ==> calls[i].id.index < calls[j].id.index)
  }

  predicate ToolCallsLinked(calls: seq<ToolCall>, requests: seq<Request>, line: Option<nat>) {
    && (forall i :: 0 <= i < |calls| ==> LinkedToolCall(calls[i], line, requests))
    && (forall i, j :: 0 <= i < j < |calls| ==> calls[i].id.index < calls[j].id.index)
  }

  /** Every entity of the result is linked: each call to the one session of the
      record, each name to a request the record makes; and no two share a tag. */
  predicate Closed(r: NormResult, line: Option<nat>) {
    && SessionsLinked(r.sessions, r.requests, line)
    && ModelCallsLinked(r.modelCalls, r.requests, line)
    && ToolCallsLinked(r.toolCalls, r.requests, line)
    && (r.modelCalls != [] || r.toolCalls != [] ==> r.sessions != [])
  }

  predicate Asked(key: Option<Request>, requests: seq<Request>) {
    key.Some? ==> key.value in requests
  }

  lemma NameIsNotEmpty(rt: Runtime, target: string, field: string, data: map<string, Value>, line: Option<nat>, blankIsError: bool)
    ensures var (name, issues) := NameFrom(rt, target, field, data, line, blankIsError);
            name.Some? ==> name.value != ""
  {
    assert rt.Blank("");
  }

  lemma ModelCallLinked(rt: Runtime, entity: EntityMapping, line: Option<nat>, row: EntityRow, k: nat)
    ensures var part := ModelCallPart(rt, entity, Tag(line, "session", 0), line, row, k);
            part.Part? ==>
              && |part.entities| <= 1
              && (part.entities != [] ==>
                    LinkedModelCall(part.entities[0], line, part.requests) && part.entities[0].id.index == k)
  {
    var data := Numbered(row);
    NameIsNotEmpty(rt, entity.target, "model_name", data, line, false);
    hide NameFrom, MissingKeys, StatusOf, IntOf, Columns, Numbered;
  }

  lemma ToolCallLinked(rt: Runtime, entity: EntityMapping, line: Option<nat>, row: EntityRow, k: nat)
    ensures var part := ToolCallPart(rt, entity, Tag(line, "session", 0), line, row, k);
            part.Part? ==>
              && |part.entities| <= 1
              && (part.entities != [] ==>
                    LinkedToolCall(part.entities[0], line, part.requests) && part.entities[0].id.index == k)
  {
    hide NameFrom, MissingKeys, StatusOf, IntOf, Columns, Numbered;
  }

  lemma MoreModelRequests(calls: seq<ModelCall>, before: seq<Request>, requests: seq<Request>, after: seq<Request>, line: Option<nat>)
    requires ModelCallsLinked(calls, requests, line)
    ensures ModelCallsLinked(calls, before + requests + after, line)
  {
    hide ModelKey;
  }

  lemma MoreToolRequests(calls: seq<ToolCall>, before: seq<Request>, requests: seq<Request>, after: seq<Request>, line: Option<nat>)
    requires ToolCallsLinked(calls, requests, line)
    ensures ToolCallsLinked(calls, before + requests + after, line)
  {
    hide ToolKey;
  }

  /** Calls that are fine, in the order of their ranks. */
  predicate Ordered<T>(calls: seq<T>, fine: T -> bool, rank: T -> nat, n: nat) {
    && (forall i :: 0 <= i < |calls| ==> fine(calls[i]) && rank(calls[i]) < n)
    && (forall i, j :: 0 <= i < j < |calls| ==> rank(calls[i]) < rank(calls[j]))
  }

  lemma OneMore<T>(calls: seq<T>, more: seq<T>, fine: T -> bool, rank: T -> nat, n: nat)
    requires Ordered(calls, fine, rank, n)
    requires |more| <= 1 && (more != [] ==> fine(more[0]) && rank(more[0]) == n)
    ensures Ordered(calls + more, fine, rank, n + 1)
  {
  }

  lemma ModelCallsAreLinked(rt: Runtime, entity: EntityMapping, line: Option<nat>, rows: seq<EntityRow>)
    requires ModelCallParts(rt, entity, Tag(line, "session", 0), line, rows).Part?
    ensures var part := ModelCallParts(rt, entity, Tag(line, "session", 0), line, rows);
            && ModelCallsLinked(part.entities, part.requests, line)
            && forall i :: 0 <= i < |part.entities| ==> part.entities[i].id.index < |rows|
  {
    hide ModelCallPart, ModelKey;
    if rows != [] {
      var n, session := |rows| - 1, Tag(line, "session", 0);
      ModelCallsAreLinked(rt, entity, line, rows[..n]);
      ModelCallLinked(rt, entity, line, rows[n], n);
      var before, last := ModelCallParts(rt, entity, session, line, rows[..n]), ModelCallPart(rt, entity, session, line, rows[n], n);
      OneMore(before.entities, last.entities, (c: ModelCall) => LinkedModelCall(c, line, before.requests + last.requests), (c: ModelCall) => c.id.index, n);
    }
  }

  lemma ToolCallsAreLinked(rt: Runtime, entity: EntityMapping, line: Option<nat>, rows: seq<EntityRow>)
    requires ToolCallParts(rt, entity, Tag(line, "session", 0), line, rows).Part?
    ensures var part := ToolCallParts(rt, entity, Tag(line, "session", 0), line, rows);
            && ToolCallsLinked(part.entities, part.requests, line)
            && forall i :: 0 <= i < |part.entities| ==> part.entities[i].id.index < |rows|
  {
    hide ToolCallPart, ToolKey;
    if rows != [] {
      var n, session := |rows| - 1, Tag(line, "session", 0);
      ToolCallsAreLinked(rt, entity, line, rows[..n]);
      ToolCallLinked(rt, entity, line, rows[n], n);
      var before, last := ToolCallParts(rt, entity, session, line, rows[..n]), ToolCallPart(rt, entity, session, line, rows[n], n);
      OneMore(before.entities, last.entities, (c: ToolCall) => LinkedToolCall(c, line, before.requests + last.requests), (c: ToolCall) => c.id.index, n);
    }
  }

  lemma SessionIsLinked(rt: Runtime, entity: EntityMapping, rows: seq<EntityRow>, source: int, line: Option<nat>)
    requires rows != []
    ensures var part := SessionPart(rt, entity, rows, source, line);
            part.Part? ==>
              && SessionsLinked(part.entities, part.requests, line)
              && (part.entities != [] ==> part.entities[0].source == source)
  {
    NameIsNotEmpty(rt, entity.target, "agent_name", rows[0].data, line, false);
    hide NameFrom, MissingKeys, Among, Columns;
  }

  lemma SessionsAreLinked(rt: Runtime, mapping: Mapping, results: seq<EntityRow>, source: int, line: Option<nat>)
    ensures var part := SessionsOf(rt, mapping, results, source, line);
            part.Part? ==>
              && SessionsLinked(part.entities, part.requests, line)
              && (part.entities != [] ==> part.entities[0].source == source)
  {
    var rows, entity := Entries(results, "session"), ByTarget(mapping, "session");
    hide SessionPart, ByTarget, Entries, LinkedSession;
    if rows != [] && entity.Some? {
      SessionIsLinked(rt, entity.value, rows, source, line);
    }
  }

  lemma ModelCallsOfLinked(rt: Runtime, mapping: Mapping, results: seq<EntityRow>, sessions: seq<Session>, line: Option<nat>)
    requires sessions != [] ==> sessions[0].id == Tag(line, "session", 0)
    ensures var part := ModelCallsOf(rt, mapping, results, sessions, line);
            part.Part? ==>
              && ModelCallsLinked(part.entities, part.requests, line)
              && (part.entities != [] ==> sessions != [])
  {
    var entity := ByTarget(mapping, "model_call");
    hide ModelCallParts, ByTarget, Entries, LinkedModelCall;
    if sessions != [] && entity.Some? && ModelCallsOf(rt, mapping, results, sessions, line).Part? {
      ModelCallsAreLinked(rt, entity.value, line, Entries(results, "model_call"));
    }
  }

  lemma ToolCallsOfLinked(rt: Runtime, mapping: Mapping, results: seq<EntityRow>, sessions: seq<Session>, line: Option<nat>)
    requires sessions != [] ==> sessions[0].id == Tag(line, "session", 0)
    ensures var part := ToolCallsOf(rt, mapping, results, sessions, line);
            part.Part? ==>
              && ToolCallsLinked(part.entities, part.requests, line)
              && (part.entities != [] ==> sessions != [])
  {
    var entity := ByTarget(mapping, "tool_call");
    hide ToolCallParts, ByTarget, Entries, LinkedToolCall;
    if sessions != [] && entity.Some? && ToolCallsOf(rt, mapping, results, sessions, line).Part? {
      ToolCallsAreLinked(rt, entity.value, line, Entries(results, "tool_call"));
    }
  }

  /** Reference and parent closure, for every mapping and record. */
  lemma {:induction false} Closure(rt: Runtime, mapping: Mapping, applied: Applied, source: int, line: Option<nat>)
    requires Assembled(rt, mapping, applied, source, line).Some?
    ensures Closed(Assembled(rt, mapping, applied, source, line).value, line)
  {
    SessionsAreLinked(rt, mapping, applied.results, source, line);
    var sp := SessionsOf(rt, mapping, applied.results, source, line);
    assert sp.entities != [] ==> LinkedSession(sp.entities[0], line, sp.requests);
    ModelCallsOfLinked(rt, mapping, applied.results, sp.entities, line);
    ToolCallsOfLinked(rt, mapping, applied.results, sp.entities, line);
    var mp := ModelCallsOf(rt, mapping, applied.results, sp.entities, line);
    var tp := ToolCallsOf(rt, mapping, applied.results, sp.entities, line);
    hide SessionsOf, ModelCallsOf, ToolCallsOf, ModelCallsLinked, ToolCallsLinked, AgentKey;
    MoreModelRequests(mp.entities, sp.requests, mp.requests, tp.requests, line);
    MoreToolRequests(tp.entities, sp.requests + mp.requests, tp.requests, [], line);
    assert sp.requests + mp.requests + tp.requests + [] == sp.requests + mp.requests + tp.requests;
  }
}
