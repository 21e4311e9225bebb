/**
 The fate of every row a mapping reaches in a record, one by one: the engine
 drops it for issues of its own, or it is exactly one entity, or the normaliser
 refuses it for issues of its own, or says that it has no session or is not the
 first one. And the position a call takes when no rule maps it.
 */
module RowFates {
  import opened Values
  import opened JsonPath
  import opened Mappings
  import opened Engine
  import opened EngineLaws
  import opened Normalizer
  import opened NormalizerLaws
  import opened Accounting

  // ------------------------------------------------------------ row by row

  /** The loops of the two kinds of calls, over the turn they make on a row. */
  function Parts<T>(turn: (EntityRow, nat) -> Part<T>, rows: seq<EntityRow>): Part<T> {
    if rows == [] then Part([], [], [])
    else
      var n := |rows| - 1;
      Join(Parts(turn, rows[..n]), turn(rows[n], n))
  }

  function ModelTurn(rt: Runtime, entity: EntityMapping, session: Tag, line: Option<nat>): (EntityRow, nat) -> Part<ModelCall> {
    (row: EntityRow, k: nat) => ModelCallPart(rt, entity, session, line, row, k)
  }

  function ToolTurn(rt: Runtime, entity: EntityMapping, session: Tag, line: Option<nat>): (EntityRow, nat) -> Part<ToolCall> {
    (row: EntityRow, k: nat) => ToolCallPart(rt, entity, session, line, row, k)
  }

  lemma {:induction false} ModelCallsAreParts(rt: Runtime, entity: EntityMapping, session: Tag, line: Option<nat>, rows: seq<EntityRow>)
    ensures ModelCallParts(rt, entity, session, line, rows) == Parts(ModelTurn(rt, entity, session, line), rows)
  {
    hide ModelCallPart;
    if rows != [] {
      ModelCallsAreParts(rt, entity, session, line, rows[..|rows| - 1]);
    }
  }

  lemma {:induction false} ToolCallsAreParts(rt: Runtime, entity: EntityMapping, session: Tag, line: Option<nat>, rows: seq<EntityRow>)
    ensures ToolCallParts(rt, entity, session, line, rows) == Parts(ToolTurn(rt, entity, session, line), rows)
  {
    hide ToolCallPart;
    if rows != [] {
      ToolCallsAreParts(rt, entity, session, line, rows[..|rows| - 1]);
    }
  }

  /** A turn is one entity, tagged with the rank of its row, or is rejected. */
  predicate Single<T>(own: Part<T>, k: nat, rank: T -> nat) {
    own.Part? ==> if own.entities == [] then SomeRejected(own.issues)
                  else |own.entities| == 1 && own.issues == [] && rank(own.entities[0]) == k
  }

  /** What row `k` yields stands in the whole, right after what the rows before
      it yield: its one entity, or its own rejecting issues. */
  predicate Fate<T(==)>(turn: (EntityRow, nat) -> Part<T>, rows: seq<EntityRow>, whole: Part<T>, k: nat)
    requires k < |rows|
  {
    var before, own := Parts(turn, rows[..k]), turn(rows[k], k);
    && whole.Part? && before.Part? && own.Part?
    && before.entities + own.entities <= whole.entities
    && before.issues + own.issues <= whole.issues
  }

  /** An entity of the whole is what the row its tag names yields. */
  predicate Origin<T(==)>(turn: (EntityRow, nat) -> Part<T>, rows: seq<EntityRow>, rank: T -> nat, x: T) {
    && rank(x) < |rows|
    && turn(rows[rank(x)], rank(x)).Part? && turn(rows[rank(x)], rank(x)).entities == [x]
  }

  lemma {:induction false} PartsPrefix<T>(turn: (EntityRow, nat) -> Part<T>, rows: seq<EntityRow>, k: nat)
    requires k <= |rows| && Parts(turn, rows).Part?
    ensures var before, whole := Parts(turn, rows[..k]), Parts(turn, rows);
            before.Part? && before.entities <= whole.entities && before.issues <= whole.issues
  {
    if k == |rows| {
      assert rows[..k] == rows;
    } else {
      assert rows[..|rows| - 1][..k] == rows[..k];
      PartsPrefix(turn, rows[..|rows| - 1], k);
    }
  }

  lemma {:induction false} RowFate<T>(turn: (EntityRow, nat) -> Part<T>, rows: seq<EntityRow>, k: nat)
    requires k < |rows| && Parts(turn, rows).Part?
    ensures Fate(turn, rows, Parts(turn, rows), k)
  {
    assert rows[..k + 1][..k] == rows[..k];
    PartsPrefix(turn, rows, k + 1);
  }

  lemma {:induction false} Origins<T>(turn: (EntityRow, nat) -> Part<T>, rows: seq<EntityRow>, rank: T -> nat)
    requires Parts(turn, rows).Part?
    requires forall k :: 0 <= k < |rows| ==> Single(turn(rows[k], k), k, rank)
    ensures forall i :: 0 <= i < |Parts(turn, rows).entities| ==> Origin(turn, rows, rank, Parts(turn, rows).entities[i])
  {
    if rows != [] {
      var n := |rows| - 1;
      var before, own := Parts(turn, rows[..n]), turn(rows[n], n);
      Origins(turn, rows[..n], rank);
      assert Single(own, n, rank);
      forall i | 0 <= i < |before.entities + own.entities| ensures Origin(turn, rows, rank, (before.entities + own.entities)[i]) {
        if i < |before.entities| {
          assert Origin(turn, rows[..n], rank, before.entities[i]);
        }
      }
    }
  }

  function ModelRank(call: ModelCall): nat { call.id.index }

  function ToolRank(call: ToolCall): nat { call.id.index }

  lemma NameRejects(rt: Runtime, target: string, field: string, data: map<string, Value>, line: Option<nat>, blankIsError: bool)
    ensures var issues := NameFrom(rt, target, field, data, line, blankIsError).1;
            issues != [] ==> SomeRejected(issues)
  {
    hide ReferenceName;
    var issues := NameFrom(rt, target, field, data, line, blankIsError).1;
    assert issues != [] ==> issues[0].severity.Rejected?;
  }

  lemma OwnModelCall(rt: Runtime, entity: EntityMapping, session: Tag, line: Option<nat>, row: EntityRow, k: nat)
    ensures Single(ModelCallPart(rt, entity, session, line, row, k), k, ModelRank)
  {
    var data := Numbered(row);
    NameRejects(rt, entity.target, "model_name", data, line, false);
    NameRejects(rt, entity.target, "provider_name", data, line, false);
    var model := NameFrom(rt, entity.target, "model_name", data, line, false);
    var provider := NameFrom(rt, entity.target, "provider_name", data, line, false);
    SomeRejectedConcat(model.1, provider.1);
    var keys := Rejection<ModelCall>(MissingNaturalKey(MissingKeys(entity.naturalKey, data)), line);
    var failed := Rejection<ModelCall>(ConstructionFailed, line);
    assert keys.issues[0].severity.Rejected? && failed.issues[0].severity.Rejected?;
    hide NameFrom, MissingKeys, Numbered, IntOf, StatusOf, ModelRequests;
  }

  lemma OwnToolCall(rt: Runtime, entity: EntityMapping, session: Tag, line: Option<nat>, row: EntityRow, k: nat)
    ensures Single(ToolCallPart(rt, entity, session, line, row, k), k, ToolRank)
  {
    var data := Numbered(row);
    NameRejects(rt, entity.target, "tool_name", data, line, true);
    var keys := Rejection<ToolCall>(MissingNaturalKey(MissingKeys(entity.naturalKey, data)), line);
    var failed := Rejection<ToolCall>(ConstructionFailed, line);
    assert keys.issues[0].severity.Rejected? && failed.issues[0].severity.Rejected?;
    hide NameFrom, MissingKeys, Numbered, IntOf, StatusOf;
  }

  /** Each row of the calls is exactly one call, in its place and tagged with its
      rank, or is rejected by issues of its own; and each call is one of them. */
  lemma {:induction false} ModelCallFates(rt: Runtime, entity: EntityMapping, session: Tag, line: Option<nat>, rows: seq<EntityRow>)
    requires ModelCallParts(rt, entity, session, line, rows).Part?
    ensures var turn, whole := ModelTurn(rt, entity, session, line), ModelCallParts(rt, entity, session, line, rows);
            && (forall k :: 0 <= k < |rows| ==> Fate(turn, rows, whole, k) && Single(turn(rows[k], k), k, ModelRank))
            && (forall i :: 0 <= i < |whole.entities| ==> Origin(turn, rows, ModelRank, whole.entities[i]))
  {
    hide ModelCallPart, Parts, Fate, Single, Origin;
    var turn := ModelTurn(rt, entity, session, line);
    ModelCallsAreParts(rt, entity, session, line, rows);
    forall k | 0 <= k < |rows| ensures Fate(turn, rows, Parts(turn, rows), k) && Single(turn(rows[k], k), k, ModelRank) {
      RowFate(turn, rows, k);
      OwnModelCall(rt, entity, session, line, rows[k], k);
    }
    Origins(turn, rows, ModelRank);
  }

  lemma {:induction false} ToolCallFates(rt: Runtime, entity: EntityMapping, session: Tag, line: Option<nat>, rows: seq<EntityRow>)
    requires ToolCallParts(rt, entity, session, line, rows).Part?
    ensures var turn, whole := ToolTurn(rt, entity, session, line), ToolCallParts(rt, entity, session, line, rows);
            && (forall k :: 0 <= k < |rows| ==> Fate(turn, rows, whole, k) && Single(turn(rows[k], k), k, ToolRank))
            && (forall i :: 0 <= i < |whole.entities| ==> Origin(turn, rows, ToolRank, whole.entities[i]))
  {
    hide ToolCallPart, Parts, Fate, Single, Origin;
    var turn := ToolTurn(rt, entity, session, line);
    ToolCallsAreParts(rt, entity, session, line, rows);
    forall k | 0 <= k < |rows| ensures Fate(turn, rows, Parts(turn, rows), k) && Single(turn(rows[k], k), k, ToolRank) {
      RowFate(turn, rows, k);
      OwnToolCall(rt, entity, session, line, rows[k], k);
    }
    Origins(turn, rows, ToolRank);
  }

  // -------------------------------------------------------------- positions

  /** The engine's rows of an entity that maps no sequence index have none. */
  lemma UnmappedIndex(rt: Runtime, entity: EntityMapping, record: Value, line: Option<nat>)
    requires !Mapped(entity.fields, "sequence_index")
    ensures var results := EntityApplied(rt, entity, record, line).results;
            && Increasing(results)
            && forall i :: 0 <= i < |results| ==>
                 "sequence_index" !in results[i].data && results[i].sourceIndex < |Extracted(entity, record, line).0|
  {
    var (rows, prefix, issues) := Extracted(entity, record, line);
    var results := EntityApplied(rt, entity, record, line).results;
    assert results == RowsApplied(rt, entity, prefix, line, rows).results;
    RowPositions(rt, entity, prefix, line, rows);
    forall i | 0 <= i < |results| ensures "sequence_index" !in results[i].data && results[i].sourceIndex < |rows| {
      assert results[i] in results;
      TypeGate(rt, entity, Scope(rows[results[i].sourceIndex], prefix), line);
    }
  }

  lemma PositionOfModelCall(rt: Runtime, entity: EntityMapping, session: Tag, line: Option<nat>, row: EntityRow, k: nat)
    requires "sequence_index" !in row.data
    ensures var own := ModelCallPart(rt, entity, session, line, row, k);
            own.Part? && own.entities != [] ==> own.entities[0].index == row.sourceIndex
  {
    hide NameFrom, MissingKeys, StatusOf, Columns;
  }

  lemma PositionOfToolCall(rt: Runtime, entity: EntityMapping, session: Tag, line: Option<nat>, row: EntityRow, k: nat)
    requires "sequence_index" !in row.data
    ensures var own := ToolCallPart(rt, entity, session, line, row, k);
            own.Part? && own.entities != [] ==> own.entities[0].index == row.sourceIndex
  {
    hide NameFrom, MissingKeys, StatusOf, Columns;
  }

  /** Entities whose turn places them at the source position of their row. */
  lemma PositionsOf<T>(turn: (EntityRow, nat) -> Part<T>, rows: seq<EntityRow>, rank: T -> nat, place: T -> int, calls: seq<T>, bound: nat)
    requires Increasing(rows) && forall k :: 0 <= k < |rows| ==> rows[k].sourceIndex < bound
    requires forall k :: 0 <= k < |rows| && turn(rows[k], k).Part? && turn(rows[k], k).entities != [] ==>
               place(turn(rows[k], k).entities[0]) == rows[k].sourceIndex
    requires forall i :: 0 <= i < |calls| ==> Origin(turn, rows, rank, calls[i])
    requires forall i, j :: 0 <= i < j < |calls| ==> rank(calls[i]) < rank(calls[j])
    ensures forall i :: 0 <= i < |calls| ==> 0 <= place(calls[i]) < bound
    ensures forall i, j :: 0 <= i < j < |calls| ==> place(calls[i]) < place(calls[j])
  {
    forall i | 0 <= i < |calls| ensures rank(calls[i]) < |rows| && place(calls[i]) == rows[rank(calls[i])].sourceIndex {
      assert Origin(turn, rows, rank, calls[i]);
    }
  }

  function ModelPlace(call: ModelCall): int { call.index }

  function ToolPlace(call: ToolCall): int { call.index }

  /** When the only mapping of model calls maps no sequence index, the calls of
      one record stand at pairwise distinct positions, in source order, among the
      rows the mapping reaches in that record. */
  lemma {:induction false} DistinctModelPositions(rt: Runtime, mapping: Mapping, record: Value, source: int, line: Option<nat>, e: nat)
    requires OnlyOne(mapping, "model_call", e) && !Mapped(mapping[e].fields, "sequence_index")
    ensures Normalized(rt, mapping, record, source, line).Some?
    ensures var calls := Normalized(rt, mapping, record, source, line).value.modelCalls;
            && (forall i, j :: 0 <= i < j < |calls| ==> calls[i].index < calls[j].index)
            && (forall i :: 0 <= i < |calls| ==> 0 <= calls[i].index < |Extracted(mapping[e], record, line).0|)
  {
    NoEscape(rt, mapping, record, source, line);
    var results := MappingApplied(rt, mapping, record, line).results;
    var r := Normalized(rt, mapping, record, source, line).value;
    var rows := Entries(results, "model_call");
    EntriesOfOnly(rt, mapping, record, line, e);
    UnmappedIndex(rt, mapping[e], record, line);
    SessionsAreLinked(rt, mapping, results, source, line);
    hide MappingApplied, EntityApplied, Extracted, Entries, SessionsOf, ToolCallsOf, ByTarget, ModelCallParts, Mapped;
    if r.sessions != [] {
      var part := ModelCallParts(rt, mapping[e], r.sessions[0].id, line, rows);
      assert part.Part? && r.modelCalls == part.entities;
      ModelCallFates(rt, mapping[e], r.sessions[0].id, line, rows);
      ModelCallsAreLinked(rt, mapping[e], line, rows);
      var turn := ModelTurn(rt, mapping[e], r.sessions[0].id, line);
      forall k | 0 <= k < |rows| && turn(rows[k], k).Part? && turn(rows[k], k).entities != []
        ensures ModelPlace(turn(rows[k], k).entities[0]) == rows[k].sourceIndex
      {
        PositionOfModelCall(rt, mapping[e], r.sessions[0].id, line, rows[k], k);
      }
      PositionsOf(turn, rows, ModelRank, ModelPlace, r.modelCalls, |Extracted(mapping[e], record, line).0|);
    }
  }

  /** The same for tool calls. */
  lemma {:induction false} DistinctToolPositions(rt: Runtime, mapping: Mapping, record: Value, source: int, line: Option<nat>, e: nat)
    requires OnlyOne(mapping, "tool_call", e) && !Mapped(mapping[e].fields, "sequence_index")
    ensures Normalized(rt, mapping, record, source, line).Some?
    ensures var calls := Normalized(rt, mapping, record, source, line).value.toolCalls;
            && (forall i, j :: 0 <= i < j < |calls| ==> calls[i].index < calls[j].index)
            && (forall i :: 0 <= i < |calls| ==> 0 <= calls[i].index < |Extracted(mapping[e], record, line).0|)
  {
    NoEscape(rt, mapping, record, source, line);
    var results := MappingApplied(rt, mapping, record, line).results;
    var r := Normalized(rt, mapping, record, source, line).value;
    var rows := Entries(results, "tool_call");
    EntriesOfOnly(rt, mapping, record, line, e);
    UnmappedIndex(rt, mapping[e], record, line);
    SessionsAreLinked(rt, mapping, results, source, line);
    hide MappingApplied, EntityApplied, Extracted, Entries, SessionsOf, ModelCallsOf, ByTarget, ToolCallParts, Mapped;
    if r.sessions != [] {
      var part := ToolCallParts(rt, mapping[e], r.sessions[0].id, line, rows);
      assert part.Part? && r.toolCalls == part.entities;
      ToolCallFates(rt, mapping[e], r.sessions[0].id, line, rows);
      ToolCallsAreLinked(rt, mapping[e], line, rows);
      var turn := ToolTurn(rt, mapping[e], r.sessions[0].id, line);
      forall k | 0 <= k < |rows| && turn(rows[k], k).Part? && turn(rows[k], k).entities != []
        ensures ToolPlace(turn(rows[k], k).entities[0]) == rows[k].sourceIndex
      {
        PositionOfToolCall(rt, mapping[e], r.sessions[0].id, line, rows[k], k);
      }
      PositionsOf(turn, rows, ToolRank, ToolPlace, r.toolCalls, |Extracted(mapping[e], record, line).0|);
    }
  }
}
