/**
 What the entities of a record hold, said of the rows of the document they come
 from; and the names a record asks for, said of its entities.
 */
module RecordMeanings {
  import opened Values
  import opened JsonPath
  import opened Mappings
  import opened Engine
  import opened EngineLaws
  import opened Normalizer
  import opened NormalizerLaws
  import opened Accounting
  import opened RowFates
  import opened RowLedger
  import opened EntityMeanings

  /** The data of a surviving row. */
  function DataOf(rt: Runtime, mapping: Mapping, record: Value, line: Option<nat>, e: nat, k: nat): map<string, Value>
    requires IsRow(mapping, record, line, e, k) && Survives(rt, mapping, record, line, e, k)
  {
    Own(rt, mapping, record, line, e, k).0.value
  }

  predicate RowFor(rt: Runtime, mapping: Mapping, record: Value, line: Option<nat>, target: string, rank: nat, e: nat, k: nat) {
    && IsRow(mapping, record, line, e, k) && mapping[e].target == target
    && Survives(rt, mapping, record, line, e, k) && Rank(rt, mapping, record, line, e, k) == rank
  }

  /** The gate has been passed: positions are numbers, statuses and outcomes texts. */
  lemma RowIsTyped(rt: Runtime, mapping: Mapping, record: Value, line: Option<nat>, e: nat, k: nat)
    requires IsRow(mapping, record, line, e, k) && Survives(rt, mapping, record, line, e, k)
    ensures var data, target := DataOf(rt, mapping, record, line, e, k), mapping[e].target;
            && (target == "model_call" || target == "tool_call" ==> Indexed(data) && ("status" in data ==> data["status"].Str?))
            && (target == "session" ==> ("outcome" in data ==> data["outcome"].Str?))
  {
    var (rows, prefix, _) := Extracted(mapping[e], record, line);
    TypeGate(rt, mapping[e], Scope(rows[k], prefix), line);
    GatedTypes();
    hide RowOutcome, FieldType, Extracted, FromRules, HasRequired;
  }

  lemma GatedTypes()
    ensures FieldType("model_call", "sequence_index") == FieldType("tool_call", "sequence_index") == Some(Whole)
    ensures FieldType("model_call", "status") == FieldType("tool_call", "status") == FieldType("session", "outcome") == Some(Text)
  {
    assert "model_call"[0] != "session"[0] && "tool_call"[0] != "session"[0] && "tool_call"[0] != "model_call"[0];
    assert "sequence_index"[1] == 'e' && "started_at"[1] == 't' && "status"[1] == 't';
  }

  lemma RowOfRank(rt: Runtime, mapping: Mapping, record: Value, line: Option<nat>, target: string, i: nat) returns (e: nat, k: nat)
    requires i < |Entries(MappingApplied(rt, mapping, record, line).results, target)|
    ensures RowFor(rt, mapping, record, line, target, i, e, k)
    ensures Entries(MappingApplied(rt, mapping, record, line).results, target)[i]
         == EntityRow(target, DataOf(rt, mapping, record, line, e, k), k)
  {
    hide MappingApplied, Entries, Own, Rank;
    e, k := RowOfEntry(rt, mapping, record, line, target, i);
    RankedEntry(rt, mapping, record, line, e, k);
  }

  /** Each model call of a record holds what its row of the document says. */
  lemma {:induction false} ModelCallOfRecord(rt: Runtime, mapping: Mapping, record: Value, source: int, line: Option<nat>, i: nat) returns (e: nat, k: nat)
    requires Normalized(rt, mapping, record, source, line).Some?
    requires i < |Normalized(rt, mapping, record, source, line).value.modelCalls|
    ensures var call := Normalized(rt, mapping, record, source, line).value.modelCalls[i];
            && RowFor(rt, mapping, record, line, "model_call", call.id.index, e, k)
            && ModelCallIs(rt, DataOf(rt, mapping, record, line, e, k), k, call)
  {
    ResultParts(rt, mapping, record, source, line);
    SessionTag(rt, mapping, record, source, line);
    hide Normalized, MappingApplied, Entries, ByTarget, SessionsOf, ModelCallParts, ToolCallsOf, ModelCallIs, RequestsAre, Fate, Single,
         Origin, RowFor, DataOf, ModelCallPart, Indexed, Survives, IsRow;
    var r, applied := Normalized(rt, mapping, record, source, line).value, MappingApplied(rt, mapping, record, line);
    var entity, rows := ByTarget(mapping, "model_call").value, Entries(applied.results, "model_call");
    ModelCallFates(rt, entity, r.sessions[0].id, line, rows);
    OriginModel(rt, entity, r.sessions[0].id, line, rows, r.modelCalls[i]);
    var rank := r.modelCalls[i].id.index;
    e, k := RowOfRank(rt, mapping, record, line, "model_call", rank);
    RowForMeans(rt, mapping, record, line, "model_call", rank, e, k);
    RowIsTyped(rt, mapping, record, line, e, k);
    ModelCallMeans(rt, entity, r.sessions[0].id, line, rows[rank], rank);
  }

  lemma RowForMeans(rt: Runtime, mapping: Mapping, record: Value, line: Option<nat>, target: string, rank: nat, e: nat, k: nat)
    requires RowFor(rt, mapping, record, line, target, rank, e, k)
    ensures IsRow(mapping, record, line, e, k) && mapping[e].target == target && Survives(rt, mapping, record, line, e, k)
  {
  }

  lemma OriginModel(rt: Runtime, entity: EntityMapping, session: Tag, line: Option<nat>, rows: seq<EntityRow>, call: ModelCall)
    requires Origin(ModelTurn(rt, entity, session, line), rows, ModelRank, call)
    ensures call.id.index < |rows|
    ensures var part := ModelCallPart(rt, entity, session, line, rows[call.id.index], call.id.index); part.Part? && part.entities == [call]
  {
    hide ModelCallPart;
  }

  lemma OriginTool(rt: Runtime, entity: EntityMapping, session: Tag, line: Option<nat>, rows: seq<EntityRow>, call: ToolCall)
    requires Origin(ToolTurn(rt, entity, session, line), rows, ToolRank, call)
    ensures call.id.index < |rows|
    ensures var part := ToolCallPart(rt, entity, session, line, rows[call.id.index], call.id.index); part.Part? && part.entities == [call]
  {
    hide ToolCallPart;
  }

  /** Each tool call. */
  lemma {:induction false} ToolCallOfRecord(rt: Runtime, mapping: Mapping, record: Value, source: int, line: Option<nat>, i: nat) returns (e: nat, k: nat)
    requires Normalized(rt, mapping, record, source, line).Some?
    requires i < |Normalized(rt, mapping, record, source, line).value.toolCalls|
    ensures var call := Normalized(rt, mapping, record, source, line).value.toolCalls[i];
            && RowFor(rt, mapping, record, line, "tool_call", call.id.index, e, k)
            && ToolCallIs(rt, DataOf(rt, mapping, record, line, e, k), k, call)
  {
    ResultParts(rt, mapping, record, source, line);
    SessionTag(rt, mapping, record, source, line);
    hide Normalized, MappingApplied, Entries, ByTarget, SessionsOf, ModelCallsOf, ToolCallParts, ToolCallIs, Fate, Single,
         Origin, RowFor, DataOf, ToolCallPart, Indexed, Survives, IsRow;
    var r, applied := Normalized(rt, mapping, record, source, line).value, MappingApplied(rt, mapping, record, line);
    var entity, rows := ByTarget(mapping, "tool_call").value, Entries(applied.results, "tool_call");
    ToolCallFates(rt, entity, r.sessions[0].id, line, rows);
    OriginTool(rt, entity, r.sessions[0].id, line, rows, r.toolCalls[i]);
    var rank := r.toolCalls[i].id.index;
    e, k := RowOfRank(rt, mapping, record, line, "tool_call", rank);
    RowForMeans(rt, mapping, record, line, "tool_call", rank, e, k);
    RowIsTyped(rt, mapping, record, line, e, k);
    ToolCallMeans(rt, entity, r.sessions[0].id, line, rows[rank], rank);
  }

  /** And the session, of the first surviving session row. */
  lemma {:induction false} SessionOfRecord(rt: Runtime, mapping: Mapping, record: Value, source: int, line: Option<nat>) returns (e: nat, k: nat)
    requires Normalized(rt, mapping, record, source, line).Some?
    requires Normalized(rt, mapping, record, source, line).value.sessions != []
    ensures var r := Normalized(rt, mapping, record, source, line).value;
            && |r.sessions| == 1
            && RowFor(rt, mapping, record, line, "session", 0, e, k)
            && SessionIs(rt, DataOf(rt, mapping, record, line, e, k), source, r.sessions[0])
  {
    ResultParts(rt, mapping, record, source, line);
    hide Normalized, MappingApplied, Entries, ByTarget, SessionMade, ModelCallsOf, ToolCallsOf, SessionIs, RowFor, DataOf, Survives, IsRow;
    var r, applied := Normalized(rt, mapping, record, source, line).value, MappingApplied(rt, mapping, record, line);
    var rows := Entries(applied.results, "session");
    assert rows != [] && ByTarget(mapping, "session").Some?;
    SessionJoin(rt, mapping, applied.results, source, line);
    SessionMadeFate(rt, ByTarget(mapping, "session").value, rows[0].data, source, line);
    e, k := RowOfRank(rt, mapping, record, line, "session", 0);
    SessionMeans(rt, ByTarget(mapping, "session").value, rows[0].data, source, line);
  }

  // --------------------------------------------------------------- requests

  predicate ModelAsks(call: ModelCall, q: Request) {
    || (call.provider.Some? && q == Request("provider", call.provider.value, []))
    || (call.model.Some? && q == Request("model", call.model.value,
                                         if call.provider.Some? then [("provider_name", call.provider.value)] else []))
  }

  predicate ToolAsks(call: ToolCall, q: Request) {
    q == Request("tool", call.tool, [])
  }

  predicate AgentAsks(session: Session, q: Request) {
    session.agentName.Some? && q == Request("agent", session.agentName.value, [])
  }

  /** What a turn asks for, its entity asks for; a refused turn asks for nothing. */
  ghost predicate Asks<T(!new)>(part: Part<T>, asks: (T, Request) -> bool) {
    part.Part? ==>
      && |part.entities| <= 1
      && forall q :: q in part.requests <==> part.entities != [] && asks(part.entities[0], q)
  }

  ghost predicate AskedByAll<T(!new)>(part: Part<T>, asks: (T, Request) -> bool)
    requires part.Part?
  {
    forall q :: q in part.requests <==> exists i :: 0 <= i < |part.entities| && asks(part.entities[i], q)
  }

  lemma JoinAsks<T(!new)>(before: Part<T>, own: Part<T>, asks: (T, Request) -> bool)
    requires before.Part? && own.Part? && AskedByAll(before, asks) && Asks(own, asks)
    ensures Join(before, own).Part? && AskedByAll(Join(before, own), asks)
  {
    var whole := Join(before, own);
    forall q ensures q in whole.requests <==> exists i :: 0 <= i < |whole.entities| && asks(whole.entities[i], q) {
      if q in before.requests {
        var i :| 0 <= i < |before.entities| && asks(before.entities[i], q);
        assert whole.entities[i] == before.entities[i];
      }
      if q in own.requests {
        assert whole.entities[|before.entities|] == own.entities[0];
      }
      if i :| 0 <= i < |whole.entities| && asks(whole.entities[i], q) {
        assert whole.entities[i] == if i < |before.entities| then before.entities[i] else own.entities[0];
      }
    }
  }

  lemma {:induction false} PartsAsk<T(!new)>(turn: (EntityRow, nat) -> Part<T>, rows: seq<EntityRow>, asks: (T, Request) -> bool)
    requires Parts(turn, rows).Part? && forall k :: 0 <= k < |rows| ==> Asks(turn(rows[k], k), asks)
    ensures AskedByAll(Parts(turn, rows), asks)
  {
    hide Asks, AskedByAll, Join;
    if rows == [] {
      NothingAsked(asks);
    } else {
      var n := |rows| - 1;
      JoinedParts(Parts(turn, rows[..n]), turn(rows[n], n));
      PartsAsk(turn, rows[..n], asks);
      JoinAsks(Parts(turn, rows[..n]), turn(rows[n], n), asks);
    }
  }

  lemma JoinedParts<T>(a: Part<T>, b: Part<T>)
    ensures Join(a, b).Part? ==> a.Part? && b.Part?
  {
  }

  lemma NothingAsked<T(!new)>(asks: (T, Request) -> bool)
    ensures AskedByAll(Part([], [], []), asks)
  {
  }

  lemma ModelTurnAsks(rt: Runtime, entity: EntityMapping, session: Tag, line: Option<nat>, row: EntityRow, k: nat)
    requires Indexed(row.data)
    ensures Asks(ModelCallPart(rt, entity, session, line, row, k), ModelAsks)
  {
    var part := ModelCallPart(rt, entity, session, line, row, k);
    OwnModelCall(rt, entity, session, line, row, k);
    if part.Part? && part.entities != [] {
      ModelCallMeans(rt, entity, session, line, row, k);
    }
    RefusedModelAsks(rt, entity, session, line, row, k);
    hide ModelCallPart, ModelCallIs, Indexed;
  }

  lemma RefusedModelAsks(rt: Runtime, entity: EntityMapping, session: Tag, line: Option<nat>, row: EntityRow, k: nat)
    ensures var part := ModelCallPart(rt, entity, session, line, row, k); part.Part? && part.entities == [] ==> part.requests == []
  {
    hide NameFrom, MissingKeys, Numbered, MakeModelCall, ModelRequests;
  }

  lemma ToolTurnAsks(rt: Runtime, entity: EntityMapping, session: Tag, line: Option<nat>, row: EntityRow, k: nat)
    requires Indexed(row.data)
    ensures Asks(ToolCallPart(rt, entity, session, line, row, k), ToolAsks)
  {
    var part := ToolCallPart(rt, entity, session, line, row, k);
    OwnToolCall(rt, entity, session, line, row, k);
    if part.Part? && part.entities != [] {
      ToolCallMeans(rt, entity, session, line, row, k);
    }
    RefusedToolAsks(rt, entity, session, line, row, k);
    hide ToolCallPart, ToolCallIs, Indexed;
  }

  lemma RefusedToolAsks(rt: Runtime, entity: EntityMapping, session: Tag, line: Option<nat>, row: EntityRow, k: nat)
    ensures var part := ToolCallPart(rt, entity, session, line, row, k); part.Part? && part.entities == [] ==> part.requests == []
  {
    hide NameFrom, MissingKeys, Numbered, MakeToolCall;
  }

  lemma RowIsIndexed(rt: Runtime, mapping: Mapping, record: Value, line: Option<nat>, target: string, rows: seq<EntityRow>, i: nat)
    requires rows == Entries(MappingApplied(rt, mapping, record, line).results, target) && i < |rows|
    requires target == "model_call" || target == "tool_call"
    ensures Indexed(rows[i].data)
  {
    hide MappingApplied, Entries, RowFor, DataOf, Indexed, IsRow, Survives;
    var e, k := RowOfRank(rt, mapping, record, line, target, i);
    RowForMeans(rt, mapping, record, line, target, i, e, k);
    RowIsTyped(rt, mapping, record, line, e, k);
  }

  lemma ModelTurnIs(rt: Runtime, entity: EntityMapping, session: Tag, line: Option<nat>, row: EntityRow, k: nat)
    ensures ModelTurn(rt, entity, session, line)(row, k) == ModelCallPart(rt, entity, session, line, row, k)
  {
    hide ModelCallPart;
  }

  lemma ModelsAsk(rt: Runtime, mapping: Mapping, record: Value, sessions: seq<Session>, line: Option<nat>)
    ensures var part := ModelCallsOf(rt, mapping, MappingApplied(rt, mapping, record, line).results, sessions, line);
            part.Part? ==> AskedByAll(part, ModelAsks)
  {
    hide MappingApplied, Entries, ByTarget, ModelCallPart, ModelCallParts, Parts, Asks, AskedByAll;
    var rows := Entries(MappingApplied(rt, mapping, record, line).results, "model_call");
    if ByTarget(mapping, "model_call").Some? && sessions != [] {
      var entity, tag := ByTarget(mapping, "model_call").value, sessions[0].id;
      ModelCallsAreParts(rt, entity, tag, line, rows);
      if ModelCallParts(rt, entity, tag, line, rows).Part? {
        forall k | 0 <= k < |rows| ensures Asks(ModelTurn(rt, entity, tag, line)(rows[k], k), ModelAsks) {
          RowIsIndexed(rt, mapping, record, line, "model_call", rows, k);
          ModelTurnAsks(rt, entity, tag, line, rows[k], k);
          ModelTurnIs(rt, entity, tag, line, rows[k], k);
        }
        PartsAsk(ModelTurn(rt, entity, tag, line), rows, ModelAsks);
      }
    } else {
      SilentPart<ModelCall>(rows, line, ModelAsks);
    }
  }

  lemma ToolTurnIs(rt: Runtime, entity: EntityMapping, session: Tag, line: Option<nat>, row: EntityRow, k: nat)
    ensures ToolTurn(rt, entity, session, line)(row, k) == ToolCallPart(rt, entity, session, line, row, k)
  {
    hide ToolCallPart;
  }

  lemma ToolsAsk(rt: Runtime, mapping: Mapping, record: Value, sessions: seq<Session>, line: Option<nat>)
    ensures var part := ToolCallsOf(rt, mapping, MappingApplied(rt, mapping, record, line).results, sessions, line);
            part.Part? ==> AskedByAll(part, ToolAsks)
  {
    hide MappingApplied, Entries, ByTarget, ToolCallPart, ToolCallParts, Parts, Asks, AskedByAll;
    var rows := Entries(MappingApplied(rt, mapping, record, line).results, "tool_call");
    if ByTarget(mapping, "tool_call").Some? && sessions != [] {
      var entity, tag := ByTarget(mapping, "tool_call").value, sessions[0].id;
      ToolCallsAreParts(rt, entity, tag, line, rows);
      if ToolCallParts(rt, entity, tag, line, rows).Part? {
        forall k | 0 <= k < |rows| ensures Asks(ToolTurn(rt, entity, tag, line)(rows[k], k), ToolAsks) {
          RowIsIndexed(rt, mapping, record, line, "tool_call", rows, k);
          ToolTurnAsks(rt, entity, tag, line, rows[k], k);
          ToolTurnIs(rt, entity, tag, line, rows[k], k);
        }
        PartsAsk(ToolTurn(rt, entity, tag, line), rows, ToolAsks);
      }
    } else {
      SilentPart<ToolCall>(rows, line, ToolAsks);
    }
  }

  lemma SilentPart<T(!new)>(rows: seq<EntityRow>, line: Option<nat>, asks: (T, Request) -> bool)
    ensures AskedByAll(Part([], [], []), asks)
    ensures Orphans<T>(rows, line).Part? && AskedByAll(Orphans<T>(rows, line), asks)
  {
  }

  lemma SessionAsks(rt: Runtime, mapping: Mapping, results: seq<EntityRow>, source: int, line: Option<nat>)
    requires SessionsOf(rt, mapping, results, source, line).Part?
    ensures AskedByAll(SessionsOf(rt, mapping, results, source, line), AgentAsks)
  {
    hide Entries, ByTarget, SessionMade, SessionIs;
    var rows := Entries(results, "session");
    if rows == [] || ByTarget(mapping, "session").None? {
      NothingAsked(AgentAsks);
    } else {
      var entity := ByTarget(mapping, "session").value;
      var ignored := IgnoredSessions(|rows|, line);
      var made := SessionMade(rt, entity, rows[0].data, source, line);
      assert SessionsOf(rt, mapping, results, source, line) == Join(Part([], ignored, []), made);
      SessionMadeFate(rt, entity, rows[0].data, source, line);
      RefusedSessionAsks(rt, entity, rows[0].data, source, line);
      if made.entities != [] {
        SessionMeans(rt, entity, rows[0].data, source, line);
      }
      hide Join;
      NothingAsked(AgentAsks);
      assert Asks(made, AgentAsks);
      SilentIssues(ignored);
      JoinAsks(Part([], ignored, []), made, AgentAsks);
    }
  }

  lemma SilentIssues(issues: seq<Issue>)
    ensures AskedByAll(Part([], issues, []), AgentAsks)
  {
  }

  lemma RefusedSessionAsks(rt: Runtime, entity: EntityMapping, data: map<string, Value>, source: int, line: Option<nat>)
    ensures var part := SessionMade(rt, entity, data, source, line); part.Part? && part.entities == [] ==> part.requests == []
  {
    hide NameFrom, MissingKeys, MakeSession;
  }

  /** A record asks for the names its entities carry, and for no other. */
  lemma {:induction false} RequestsOfRecord(rt: Runtime, mapping: Mapping, record: Value, source: int, line: Option<nat>, q: Request)
    requires Normalized(rt, mapping, record, source, line).Some?
    ensures var r := Normalized(rt, mapping, record, source, line).value;
            q in r.requests <==>
              || (exists i :: 0 <= i < |r.sessions| && AgentAsks(r.sessions[i], q))
              || (exists i :: 0 <= i < |r.modelCalls| && ModelAsks(r.modelCalls[i], q))
              || (exists i :: 0 <= i < |r.toolCalls| && ToolAsks(r.toolCalls[i], q))
  {
    ResultParts(rt, mapping, record, source, line);
    hide Normalized, MappingApplied, SessionsOf, ModelCallsOf, ToolCallsOf, AgentAsks, ModelAsks, ToolAsks;
    var r, results := Normalized(rt, mapping, record, source, line).value, MappingApplied(rt, mapping, record, line).results;
    SessionAsks(rt, mapping, results, source, line);
    ModelsAsk(rt, mapping, record, r.sessions, line);
    ToolsAsk(rt, mapping, record, r.sessions, line);
  }
}
