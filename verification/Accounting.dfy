/**
 Accounting for rows: every row an entity mapping reaches in a record becomes
 one entity, or is spoken for by an issue of that record.
 */
module Accounting {
  import opened Values
  import opened JsonPath
  import opened Mappings
  import opened Engine
  import opened EngineLaws
  import opened Normalizer
  import opened NormalizerLaws

  // --------------------------------------------------- what an issue covers

  /** How many rows an issue speaks for. The warning on several sessions counts
      the rows produced, of which it discards all but the first. */
  function RowsCovered(issue: Issue): nat {
    match issue.reason
    case SessionsIgnored(rows) => if rows > 0 then rows - 1 else 0
    case ParentMissing(rows) => rows
    case _ => if issue.severity.Rejected? then 1 else 0
  }

  function Covered(issues: seq<Issue>): nat {
    if issues == [] then 0 else Covered(issues[..|issues| - 1]) + RowsCovered(issues[|issues| - 1])
  }

  lemma CoveredConcat(a: seq<Issue>, b: seq<Issue>)
    ensures Covered(a + b) == Covered(a) + Covered(b)
  {
    if b == [] {
      assert a + b == a;
    } else {
      assert (a + b)[..|a + b| - 1] == a + b[..|b| - 1];
      CoveredConcat(a, b[..|b| - 1]);
    }
  }

  lemma RejectedIsCovered(issues: seq<Issue>)
    requires SomeRejected(issues) && forall i :: 0 <= i < |issues| ==> !issues[i].reason.SessionsIgnored? && !issues[i].reason.ParentMissing?
    ensures Covered(issues) >= 1
  {
    if !issues[|issues| - 1].severity.Rejected? {
      var i :| 0 <= i < |issues| && issues[i].severity.Rejected?;
      assert issues[..|issues| - 1][i] == issues[i];
      RejectedIsCovered(issues[..|issues| - 1]);
    }
  }

  // -------------------------------------------------------------- the engine

  predicate FieldLevel(issues: seq<Issue>, line: Option<nat>) {
    forall i :: 0 <= i < |issues| ==>
      !issues[i].reason.SessionsIgnored? && !issues[i].reason.ParentMissing? && issues[i].line == line
  }

  lemma FieldLevelConcat(a: seq<Issue>, b: seq<Issue>, line: Option<nat>)
    ensures FieldLevel(a, line) && FieldLevel(b, line) ==> FieldLevel(a + b, line)
  {
  }

  lemma RowIssues(rt: Runtime, target: string, scope: Scope, line: Option<nat>, rules: seq<FieldRule>)
    ensures FieldLevel(AfterFields(rt, target, scope, line, rules).issues, line)
  {
    hide ApplyOperators, Coerced, SourcePath;
    if rules != [] {
      RowIssues(rt, target, scope, line, rules[..|rules| - 1]);
    }
  }

  lemma RowAccounted(rt: Runtime, entity: EntityMapping, prefix: Path, line: Option<nat>, row: Value, index: nat)
    ensures var applied := RowApplied(rt, entity, prefix, line, row, index);
            && |applied.results| <= 1 <= |applied.results| + Covered(applied.issues)
            && FieldLevel(applied.issues, line)
            && (applied.results != [] ==> applied.results[0].entity == entity.target)
  {
    var scope := Scope(row, prefix);
    DroppedIffRejected(rt, entity, scope, line);
    RowIssues(rt, entity.target, scope, line, entity.fields);
    var (data, issues) := RowOutcome(rt, entity, scope, line);
    if data.None? {
      RejectedIsCovered(issues);
    }
    hide AfterFields, Covered, SomeRejected;
  }

  /** Each row gives one result, or at least one issue that rejects it. */
  lemma {:induction false} RowsAccounted(rt: Runtime, entity: EntityMapping, prefix: Path, line: Option<nat>, rows: seq<Value>)
    ensures var applied := RowsApplied(rt, entity, prefix, line, rows);
            && |applied.results| <= |rows| <= |applied.results| + Covered(applied.issues)
            && FieldLevel(applied.issues, line)
            && forall i :: 0 <= i < |applied.results| ==> applied.results[i].entity == entity.target
  {
    if rows == [] {
      hide RowApplied;
      assert RowsApplied(rt, entity, prefix, line, rows) == Applied([], []);
    } else {
      var n := |rows| - 1;
      var before, last := RowsApplied(rt, entity, prefix, line, rows[..n]), RowApplied(rt, entity, prefix, line, rows[n], n);
      RowsAccounted(rt, entity, prefix, line, rows[..n]);
      RowAccounted(rt, entity, prefix, line, rows[n], n);
      LastRow(rt, entity, prefix, line, rows);
      CoveredConcat(before.issues, last.issues);
      FieldLevelConcat(before.issues, last.issues, line);
      hide *;
    }
  }

  /** The rows a mapping reaches in a record: one per record for an entity that
      is not iterated, one per list element otherwise. */
  function Reached(mapping: Mapping, record: Value): nat {
    if mapping == [] then 0
    else Reached(mapping[..|mapping| - 1], record) + |Extracted(mapping[|mapping| - 1], record, None).0|
  }

  predicate KnownTargets(mapping: Mapping) {
    forall e :: 0 <= e < |mapping| ==> KnownTarget(mapping[e].target)
  }

  lemma ExtractedRows(entity: EntityMapping, record: Value, line: Option<nat>)
    ensures Extracted(entity, record, line).0 == Extracted(entity, record, None).0
    ensures FieldLevel(Extracted(entity, record, line).2, line)
  {
    hide IteratePath, Wrong, Rows;
  }

  lemma EntityAccounted(rt: Runtime, entity: EntityMapping, record: Value, line: Option<nat>)
    ensures var applied := EntityApplied(rt, entity, record, line);
            && |applied.results| <= |Extracted(entity, record, None).0| <= |applied.results| + Covered(applied.issues)
            && FieldLevel(applied.issues, line)
            && forall i :: 0 <= i < |applied.results| ==> applied.results[i].entity == entity.target
  {
    ExtractedRows(entity, record, line);
    var (rows, prefix, issues) := Extracted(entity, record, line);
    RowsAccounted(rt, entity, prefix, line, rows);
    hide Extracted, RowsApplied, Covered;
    CoveredConcat(issues, RowsApplied(rt, entity, prefix, line, rows).issues);
  }

  predicate KnownRows(results: seq<EntityRow>) {
    forall i :: 0 <= i < |results| ==> KnownTarget(results[i].entity)
  }

  lemma {:induction false} ResultsAccounted(rt: Runtime, mapping: Mapping, record: Value, line: Option<nat>)
    ensures var applied := MappingApplied(rt, mapping, record, line);
            && |applied.results| <= Reached(mapping, record) <= |applied.results| + Covered(applied.issues)
            && FieldLevel(applied.issues, line)
  {
    if mapping != [] {
      var n := |mapping| - 1;
      ResultsAccounted(rt, mapping[..n], record, line);
      EntityAccounted(rt, mapping[n], record, line);
      LastEntity(rt, mapping, record, line);
      assert Reached(mapping, record) == Reached(mapping[..n], record) + |Extracted(mapping[n], record, None).0|;
      FieldLevelConcat(MappingApplied(rt, mapping[..n], record, line).issues, EntityApplied(rt, mapping[n], record, line).issues, line);
      CoveredConcat(MappingApplied(rt, mapping[..n], record, line).issues, EntityApplied(rt, mapping[n], record, line).issues);
      hide *;
    }
  }

  lemma {:induction false} ResultsKnown(rt: Runtime, mapping: Mapping, record: Value, line: Option<nat>)
    requires KnownTargets(mapping)
    ensures KnownRows(MappingApplied(rt, mapping, record, line).results)
  {
    if mapping != [] {
      var n := |mapping| - 1;
      assert KnownTargets(mapping[..n]) && KnownTarget(mapping[n].target);
      ResultsKnown(rt, mapping[..n], record, line);
      EntityAccounted(rt, mapping[n], record, line);
      LastEntity(rt, mapping, record, line);
      KnownConcat(MappingApplied(rt, mapping[..n], record, line).results, EntityApplied(rt, mapping[n], record, line).results, mapping[n].target);
      hide *;
    }
  }

  lemma KnownConcat(a: seq<EntityRow>, b: seq<EntityRow>, target: string)
    requires KnownRows(a) && KnownTarget(target) && forall i :: 0 <= i < |b| ==> b[i].entity == target
    ensures KnownRows(a + b)
  {
    hide KnownTarget;
  }

  // ---------------------------------------------------------- the normaliser

  predicate AllAt(issues: seq<Issue>, line: Option<nat>) {
    forall i :: 0 <= i < |issues| ==> issues[i].line == line
  }

  lemma CoveredOne(issue: Issue)
    ensures Covered([issue]) == RowsCovered(issue)
  {
    assert [issue][..0] == [];
  }

  lemma NameIssues(rt: Runtime, target: string, field: string, data: map<string, Value>, line: Option<nat>, blankIsError: bool)
    ensures var issues := NameFrom(rt, target, field, data, line, blankIsError).1;
            && AllAt(issues, line)
            && (issues != [] ==> Covered(issues) >= 1)
  {
    hide ReferenceName;
    CoveredOne(Issue(Rejected, NameInvalid, FieldOf(target, field), line));
  }

  /** A part built from `n` rows loses none of them. */
  predicate Accounted<T>(part: Part<T>, n: nat, line: Option<nat>) {
    part.Part? && |part.entities| <= n <= |part.entities| + Covered(part.issues) && AllAt(part.issues, line)
  }

  lemma JoinAccounted<T>(a: Part<T>, b: Part<T>, n: nat, m: nat, line: Option<nat>)
    requires Accounted(a, n, line) && Accounted(b, m, line)
    ensures Accounted(Join(a, b), n + m, line)
  {
    CoveredConcat(a.issues, b.issues);
  }

  lemma RejectionAccounted<T>(reason: Reason, line: Option<nat>)
    requires !reason.SessionsIgnored? && !reason.ParentMissing?
    ensures Accounted<T>(Rejection(reason, line), 1, line)
  {
    CoveredOne(Issue(Rejected, reason, Nowhere, line));
  }

  lemma ModelCallAccounted(rt: Runtime, entity: EntityMapping, session: Tag, line: Option<nat>, row: EntityRow, k: nat)
    ensures var part := ModelCallPart(rt, entity, session, line, row, k); part.Part? ==> Accounted(part, 1, line)
  {
    var data := Numbered(row);
    NameIssues(rt, entity.target, "model_name", data, line, false);
    NameIssues(rt, entity.target, "provider_name", data, line, false);
    var model := NameFrom(rt, entity.target, "model_name", data, line, false).1;
    var provider := NameFrom(rt, entity.target, "provider_name", data, line, false).1;
    hide NameFrom, MissingKeys, Numbered, MakeModelCall, Covered;
    CoveredConcat(model, provider);
    RejectionAccounted<ModelCall>(MissingNaturalKey(MissingKeys(entity.naturalKey, data)), line);
    RejectionAccounted<ModelCall>(ConstructionFailed, line);
  }

  lemma ToolCallAccounted(rt: Runtime, entity: EntityMapping, session: Tag, line: Option<nat>, row: EntityRow, k: nat)
    ensures var part := ToolCallPart(rt, entity, session, line, row, k); part.Part? ==> Accounted(part, 1, line)
  {
    var data := Numbered(row);
    NameIssues(rt, entity.target, "tool_name", data, line, true);
    hide NameFrom, MissingKeys, Numbered, MakeToolCall, Covered;
    RejectionAccounted<ToolCall>(MissingNaturalKey(MissingKeys(entity.naturalKey, data)), line);
    RejectionAccounted<ToolCall>(ConstructionFailed, line);
  }

  lemma ModelCallsAccounted(rt: Runtime, entity: EntityMapping, session: Tag, line: Option<nat>, rows: seq<EntityRow>)
    ensures var part := ModelCallParts(rt, entity, session, line, rows); part.Part? ==> Accounted(part, |rows|, line)
  {
    if rows != [] {
      hide ModelCallPart, Accounted;
      var n := |rows| - 1;
      ModelCallsAccounted(rt, entity, session, line, rows[..n]);
      ModelCallAccounted(rt, entity, session, line, rows[n], n);
      var before, last := ModelCallParts(rt, entity, session, line, rows[..n]), ModelCallPart(rt, entity, session, line, rows[n], n);
      if before.Part? && last.Part? {
        JoinAccounted(before, last, n, 1, line);
      }
    }
  }

  lemma ToolCallsAccounted(rt: Runtime, entity: EntityMapping, session: Tag, line: Option<nat>, rows: seq<EntityRow>)
    ensures var part := ToolCallParts(rt, entity, session, line, rows); part.Part? ==> Accounted(part, |rows|, line)
  {
    if rows != [] {
      hide ToolCallPart, Accounted;
      var n := |rows| - 1;
      ToolCallsAccounted(rt, entity, session, line, rows[..n]);
      ToolCallAccounted(rt, entity, session, line, rows[n], n);
      var before, last := ToolCallParts(rt, entity, session, line, rows[..n]), ToolCallPart(rt, entity, session, line, rows[n], n);
      if before.Part? && last.Part? {
        JoinAccounted(before, last, n, 1, line);
      }
    }
  }

  lemma OrphansAccounted<T>(rows: seq<EntityRow>, line: Option<nat>)
    ensures Accounted<T>(Orphans(rows, line), |rows|, line)
  {
    CoveredOne(Issue(Rejected, ParentMissing(|rows|), Nowhere, line));
  }

  lemma SessionMadeAccounted(rt: Runtime, entity: EntityMapping, data: map<string, Value>, source: int, line: Option<nat>)
    ensures var part := SessionMade(rt, entity, data, source, line); part.Part? ==> Accounted(part, 1, line)
  {
    NameIssues(rt, entity.target, "agent_name", data, line, false);
    hide NameFrom, MissingKeys, MakeSession, Covered;
    RejectionAccounted<Session>(MissingNaturalKey(MissingKeys(entity.naturalKey, data)), line);
    RejectionAccounted<Session>(ConstructionFailed, line);
  }

  lemma SessionAccounted(rt: Runtime, entity: EntityMapping, rows: seq<EntityRow>, source: int, line: Option<nat>)
    requires rows != []
    ensures var part := SessionPart(rt, entity, rows, source, line); part.Part? ==> Accounted(part, |rows|, line)
  {
    SessionMadeAccounted(rt, entity, rows[0].data, source, line);
    CoveredOne(Issue(Warning, SessionsIgnored(|rows|), Nowhere, line));
    var ignored: seq<Issue> := if |rows| > 1 then [Issue(Warning, SessionsIgnored(|rows|), Nowhere, line)] else [];
    var warned: Part<Session> := Part([], ignored, []);
    assert Accounted(warned, |rows| - 1, line);
    hide SessionMade, Accounted;
    if SessionMade(rt, entity, rows[0].data, source, line).Part? {
      JoinAccounted(warned, SessionMade(rt, entity, rows[0].data, source, line), |rows| - 1, 1, line);
    }
  }

  // -------------------------------------------------------------- the record

  lemma EntriesSplit(results: seq<EntityRow>)
    requires KnownRows(results)
    ensures |results| == |Entries(results, "session")| + |Entries(results, "model_call")| + |Entries(results, "tool_call")|
  {
    if results != [] {
      EntriesSplit(results[..|results| - 1]);
      assert "session" != "model_call" && "session" != "tool_call" && "model_call" != "tool_call";
    }
  }

  lemma EntriesHaveMapping(rt: Runtime, mapping: Mapping, record: Value, line: Option<nat>, target: string)
    requires Entries(MappingApplied(rt, mapping, record, line).results, target) != []
    ensures ByTarget(mapping, target).Some?
  {
    if mapping != [] {
      var n := |mapping| - 1;
      if mapping[n].target != target {
        OtherEntries(rt, mapping, record, line, target);
        EntriesHaveMapping(rt, mapping[..n], record, line, target);
      }
    }
  }

  /** An entity mapping of another target adds no entry for this one. */
  lemma OtherEntries(rt: Runtime, mapping: Mapping, record: Value, line: Option<nat>, target: string)
    requires mapping != [] && mapping[|mapping| - 1].target != target
    ensures Entries(MappingApplied(rt, mapping, record, line).results, target)
         == Entries(MappingApplied(rt, mapping[..|mapping| - 1], record, line).results, target)
  {
    var n := |mapping| - 1;
    EntityAccounted(rt, mapping[n], record, line);
    LastEntity(rt, mapping, record, line);
    var before, last := MappingApplied(rt, mapping[..n], record, line).results, EntityApplied(rt, mapping[n], record, line).results;
    EntriesConcat(before, last, target);
    NoEntries(last, target);
    hide *;
  }

  lemma EntriesConcat(a: seq<EntityRow>, b: seq<EntityRow>, target: string)
    ensures Entries(a + b, target) == Entries(a, target) + Entries(b, target)
  {
    if b == [] {
      assert a + b == a;
    } else {
      assert (a + b)[..|a + b| - 1] == a + b[..|b| - 1];
      EntriesConcat(a, b[..|b| - 1], target);
    }
  }

  lemma NoEntries(rows: seq<EntityRow>, target: string)
    requires forall i :: 0 <= i < |rows| ==> rows[i].entity != target
    ensures Entries(rows, target) == []
  {
  }

  lemma FourConcat(a: seq<Issue>, b: seq<Issue>, c: seq<Issue>, d: seq<Issue>, line: Option<nat>)
    ensures Covered(a + b + c + d) == Covered(a) + Covered(b) + Covered(c) + Covered(d)
    ensures AllAt(a, line) && AllAt(b, line) && AllAt(c, line) && AllAt(d, line) ==> AllAt(a + b + c + d, line)
  {
    hide Covered;
    CoveredConcat(a, b);
    CoveredConcat(a + b, c);
    CoveredConcat(a + b + c, d);
  }

  /** The rows a record is read into, for a mapping with known targets, are all
      accounted for: at least as many as the entities built, and at most the
      entities and the rows its issues speak for. Every issue names the line. */
  lemma {:induction false} RowsCounted(rt: Runtime, mapping: Mapping, record: Value, source: int, line: Option<nat>)
    requires KnownTargets(mapping)
    ensures Normalized(rt, mapping, record, source, line).Some?
    ensures var r := Normalized(rt, mapping, record, source, line).value;
            var entities := |r.sessions| + |r.modelCalls| + |r.toolCalls|;
            && entities <= Reached(mapping, record) <= entities + Covered(r.issues)
            && AllAt(r.issues, line)
  {
    NoEscape(rt, mapping, record, source, line);
    var applied := MappingApplied(rt, mapping, record, line);
    ResultsAccounted(rt, mapping, record, line);
    ResultsKnown(rt, mapping, record, line);
    EntriesSplit(applied.results);
    var sp := SessionsOf(rt, mapping, applied.results, source, line);
    var mp := ModelCallsOf(rt, mapping, applied.results, sp.entities, line);
    var tp := ToolCallsOf(rt, mapping, applied.results, sp.entities, line);
    SessionsOfAccounted(rt, mapping, record, source, line);
    ModelCallsOfAccounted(rt, mapping, record, sp.entities, line);
    ToolCallsOfAccounted(rt, mapping, record, sp.entities, line);
    FourConcat(applied.issues, sp.issues, mp.issues, tp.issues, line);
    hide MappingApplied, SessionsOf, ModelCallsOf, ToolCallsOf, Entries, Covered, Reached, KnownTargets;
  }

  lemma SessionsOfAccounted(rt: Runtime, mapping: Mapping, record: Value, source: int, line: Option<nat>)
    ensures var results := MappingApplied(rt, mapping, record, line).results;
            var part := SessionsOf(rt, mapping, results, source, line);
            part.Part? ==> Accounted(part, |Entries(results, "session")|, line)
  {
    var results := MappingApplied(rt, mapping, record, line).results;
    var rows, entity := Entries(results, "session"), ByTarget(mapping, "session");
    if rows != [] {
      EntriesHaveMapping(rt, mapping, record, line, "session");
      SessionAccounted(rt, entity.value, rows, source, line);
    }
    hide MappingApplied, ByTarget, Entries, SessionPart;
  }

  lemma ModelCallsOfAccounted(rt: Runtime, mapping: Mapping, record: Value, sessions: seq<Session>, line: Option<nat>)
    ensures var results := MappingApplied(rt, mapping, record, line).results;
            var part := ModelCallsOf(rt, mapping, results, sessions, line);
            part.Part? ==> Accounted(part, |Entries(results, "model_call")|, line)
  {
    var results := MappingApplied(rt, mapping, record, line).results;
    var rows, entity := Entries(results, "model_call"), ByTarget(mapping, "model_call");
    OrphansAccounted<ModelCall>(rows, line);
    if rows != [] {
      EntriesHaveMapping(rt, mapping, record, line, "model_call");
    }
    if entity.Some? && sessions != [] {
      ModelCallsAccounted(rt, entity.value, sessions[0].id, line, rows);
    }
    hide MappingApplied, ByTarget, Entries, ModelCallParts, Orphans;
  }

  lemma ToolCallsOfAccounted(rt: Runtime, mapping: Mapping, record: Value, sessions: seq<Session>, line: Option<nat>)
    ensures var results := MappingApplied(rt, mapping, record, line).results;
            var part := ToolCallsOf(rt, mapping, results, sessions, line);
            part.Part? ==> Accounted(part, |Entries(results, "tool_call")|, line)
  {
    var results := MappingApplied(rt, mapping, record, line).results;
    var rows, entity := Entries(results, "tool_call"), ByTarget(mapping, "tool_call");
    OrphansAccounted<ToolCall>(rows, line);
    if rows != [] {
      EntriesHaveMapping(rt, mapping, record, line, "tool_call");
    }
    if entity.Some? && sessions != [] {
      ToolCallsAccounted(rt, entity.value, sessions[0].id, line, rows);
    }
    hide MappingApplied, ByTarget, Entries, ToolCallParts, Orphans;
  }

  // --------------------------------------------------------------- positions

  /** The one entity mapping of a target. */
  predicate OnlyOne(mapping: Mapping, target: string, e: nat) {
    e < |mapping| && mapping[e].target == target &&
    forall i :: 0 <= i < |mapping| && i != e ==> mapping[i].target != target
  }

  lemma EntriesOfOnly(rt: Runtime, mapping: Mapping, record: Value, line: Option<nat>, e: nat)
    requires e < |mapping| && OnlyOne(mapping, mapping[e].target, e)
    ensures ByTarget(mapping, mapping[e].target) == Some(mapping[e])
    ensures Entries(MappingApplied(rt, mapping, record, line).results, mapping[e].target)
         == EntityApplied(rt, mapping[e], record, line).results
  {
    hide MappingApplied, EntityApplied, Entries, Extracted;
    var n, target := |mapping| - 1, mapping[e].target;
    if e == n {
      NoneBefore(rt, mapping[..n], record, line, target);
      EntityAccounted(rt, mapping[n], record, line);
      LastEntity(rt, mapping, record, line);
      var before, last := MappingApplied(rt, mapping[..n], record, line).results, EntityApplied(rt, mapping[n], record, line).results;
      EntriesConcat(before, last, target);
      AllEntries(last, target);
    } else {
      OtherEntries(rt, mapping, record, line, target);
      assert mapping[..n][e] == mapping[e];
      EntriesOfOnly(rt, mapping[..n], record, line, e);
    }
  }

  lemma AllEntries(rows: seq<EntityRow>, target: string)
    requires forall i :: 0 <= i < |rows| ==> rows[i].entity == target
    ensures Entries(rows, target) == rows
  {
    if rows != [] {
      AllEntries(rows[..|rows| - 1], target);
    }
  }

  lemma NoneBefore(rt: Runtime, mapping: Mapping, record: Value, line: Option<nat>, target: string)
    requires forall i :: 0 <= i < |mapping| ==> mapping[i].target != target
    ensures Entries(MappingApplied(rt, mapping, record, line).results, target) == []
  {
    if mapping != [] {
      NoneBefore(rt, mapping[..|mapping| - 1], record, line, target);
      OtherEntries(rt, mapping, record, line, target);
    }
  }
}
