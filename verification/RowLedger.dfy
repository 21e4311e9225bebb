/**
 No row is lost in silence: the ledger of a record. Every row an entity mapping
 reaches is followed from its place in the document to its one entity, or to
 issues of its own in the result; and every entity back to its one row.
 */
module RowLedger {
  import opened Values
  import opened JsonPath
  import opened Mappings
  import opened Engine
  import opened EngineLaws
  import opened Normalizer
  import opened NormalizerLaws
  import opened Accounting
  import opened RowFates

  /** Row `k` of entity mapping `e` is reached in the record. */
  predicate IsRow(mapping: Mapping, record: Value, line: Option<nat>, e: nat, k: nat) {
    e < |mapping| && k < |Extracted(mapping[e], record, line).0|
  }

  /** What the engine makes of it: its data, unless it is rejected, and its issues. */
  function Own(rt: Runtime, mapping: Mapping, record: Value, line: Option<nat>, e: nat, k: nat)
    : (Option<map<string, Value>>, seq<Issue>)
    requires IsRow(mapping, record, line, e, k)
  {
    var (rows, prefix, _) := Extracted(mapping[e], record, line);
    RowOutcome(rt, mapping[e], Scope(rows[k], prefix), line)
  }

  /** The rows that survive before it, and the issues raised before it. */
  function Before(rt: Runtime, mapping: Mapping, record: Value, line: Option<nat>, e: nat, k: nat): Applied
    requires IsRow(mapping, record, line, e, k)
  {
    var (rows, prefix, issues) := Extracted(mapping[e], record, line);
    Append(Append(MappingApplied(rt, mapping[..e], record, line), Applied([], issues)), RowsApplied(rt, mapping[e], prefix, line, rows[..k]))
  }

  /** Its rank among the surviving rows of its target. */
  function Rank(rt: Runtime, mapping: Mapping, record: Value, line: Option<nat>, e: nat, k: nat): nat
    requires IsRow(mapping, record, line, e, k)
  {
    |Entries(Before(rt, mapping, record, line, e, k).results, mapping[e].target)|
  }

  predicate Survives(rt: Runtime, mapping: Mapping, record: Value, line: Option<nat>, e: nat, k: nat)
    requires IsRow(mapping, record, line, e, k)
  {
    Own(rt, mapping, record, line, e, k).0.Some?
  }

  function Row(rt: Runtime, mapping: Mapping, record: Value, line: Option<nat>, e: nat, k: nat): EntityRow
    requires IsRow(mapping, record, line, e, k) && Survives(rt, mapping, record, line, e, k)
  {
    EntityRow(mapping[e].target, Own(rt, mapping, record, line, e, k).0.value, k)
  }

  // ------------------------------------------------------ where a row stands

  predicate Leads(a: Applied, b: Applied) {
    a.results <= b.results && a.issues <= b.issues
  }

  lemma {:induction false} RowsLead(rt: Runtime, entity: EntityMapping, prefix: Path, line: Option<nat>, rows: seq<Value>, k: nat)
    requires k <= |rows|
    ensures Leads(RowsApplied(rt, entity, prefix, line, rows[..k]), RowsApplied(rt, entity, prefix, line, rows))
  {
    hide RowApplied;
    if k == |rows| {
      assert rows[..k] == rows;
    } else {
      assert rows[..|rows| - 1][..k] == rows[..k];
      RowsLead(rt, entity, prefix, line, rows[..|rows| - 1], k);
    }
  }

  lemma {:induction false} MappingsLead(rt: Runtime, mapping: Mapping, record: Value, line: Option<nat>, e: nat)
    requires e <= |mapping|
    ensures Leads(MappingApplied(rt, mapping[..e], record, line), MappingApplied(rt, mapping, record, line))
  {
    hide EntityApplied;
    if e == |mapping| {
      assert mapping[..e] == mapping;
    } else {
      assert mapping[..|mapping| - 1][..e] == mapping[..e];
      MappingsLead(rt, mapping[..|mapping| - 1], record, line, e);
    }
  }

  lemma AppendLeads(a: Applied, b: Applied, c: Applied)
    requires Leads(b, c)
    ensures Leads(Append(a, b), Append(a, c))
  {
  }

  lemma AppendThrice(a: Applied, b: Applied, c: Applied, d: Applied)
    ensures Append(Append(Append(a, b), c), d) == Append(a, Append(b, Append(c, d)))
  {
  }

  lemma LeadsTrans(a: Applied, b: Applied, c: Applied)
    requires Leads(a, b) && Leads(b, c)
    ensures Leads(a, c)
  {
  }

  /** What a row adds: itself when it survives, and its issues. */
  function Added(rt: Runtime, mapping: Mapping, record: Value, line: Option<nat>, e: nat, k: nat): Applied
    requires IsRow(mapping, record, line, e, k)
  {
    var own := Own(rt, mapping, record, line, e, k);
    Applied(if own.0.Some? then [EntityRow(mapping[e].target, own.0.value, k)] else [], own.1)
  }

  lemma EntityParts(rt: Runtime, entity: EntityMapping, record: Value, line: Option<nat>, k: nat)
    requires k < |Extracted(entity, record, line).0|
    ensures var (rows, prefix, issues) := Extracted(entity, record, line);
            var first, own := RowsApplied(rt, entity, prefix, line, rows[..k]), RowApplied(rt, entity, prefix, line, rows[k], k);
            Leads(Append(Applied([], issues), Append(first, own)), EntityApplied(rt, entity, record, line))
  {
    hide RowApplied, Extracted;
    var (rows, prefix, issues) := Extracted(entity, record, line);
    assert rows[..k + 1][..k] == rows[..k];
    RowsLead(rt, entity, prefix, line, rows, k + 1);
    AppendLeads(Applied([], issues), RowsApplied(rt, entity, prefix, line, rows[..k + 1]), RowsApplied(rt, entity, prefix, line, rows));
  }

  /** The row stands in the engine's output right after what comes before it. */
  lemma {:induction false} RowStands(rt: Runtime, mapping: Mapping, record: Value, line: Option<nat>, e: nat, k: nat)
    requires IsRow(mapping, record, line, e, k)
    ensures Leads(Append(Before(rt, mapping, record, line, e, k), Added(rt, mapping, record, line, e, k)), MappingApplied(rt, mapping, record, line))
  {
    hide RowsApplied, RowOutcome, Extracted, Leads, EntityApplied, Append;
    var (rows, prefix, issues) := Extracted(mapping[e], record, line);
    var before, first := MappingApplied(rt, mapping[..e], record, line), RowsApplied(rt, mapping[e], prefix, line, rows[..k]);
    var own := RowApplied(rt, mapping[e], prefix, line, rows[k], k);
    assert own == Added(rt, mapping, record, line, e, k);
    EntityParts(rt, mapping[e], record, line, k);
    AppendThrice(before, Applied([], issues), first, own);
    AppendLeads(before, Append(Applied([], issues), Append(first, own)), EntityApplied(rt, mapping[e], record, line));
    assert mapping[..e + 1][..e] == mapping[..e];
    MappingsLead(rt, mapping, record, line, e + 1);
    LeadsTrans(Append(before, Append(Applied([], issues), Append(first, own))),
               MappingApplied(rt, mapping[..e + 1], record, line), MappingApplied(rt, mapping, record, line));
  }

  lemma EntriesOfPrefix(a: seq<EntityRow>, b: seq<EntityRow>, target: string)
    requires a <= b
    ensures Entries(a, target) <= Entries(b, target)
  {
    assert b == a + b[|a|..];
    EntriesConcat(a, b[|a|..], target);
  }

  lemma EntriesOne(rows: seq<EntityRow>, row: EntityRow)
    ensures Entries(rows + [row], row.entity) == Entries(rows, row.entity) + [row]
  {
    assert (rows + [row])[..|rows|] == rows;
  }

  /** A surviving row is the entry of its rank. */
  lemma {:induction false} RankedEntry(rt: Runtime, mapping: Mapping, record: Value, line: Option<nat>, e: nat, k: nat)
    requires IsRow(mapping, record, line, e, k) && Survives(rt, mapping, record, line, e, k)
    ensures var entries, rank := Entries(MappingApplied(rt, mapping, record, line).results, mapping[e].target), Rank(rt, mapping, record, line, e, k);
            rank < |entries| && entries[rank] == Row(rt, mapping, record, line, e, k)
  {
    RowStands(rt, mapping, record, line, e, k);
    hide MappingApplied, Before, Own, Entries;
    var before, row := Before(rt, mapping, record, line, e, k).results, Row(rt, mapping, record, line, e, k);
    EntriesOfPrefix(before + [row], MappingApplied(rt, mapping, record, line).results, mapping[e].target);
    EntriesOne(before, row);
  }

  /** Rows of one target have different ranks: the later one, the higher. */
  lemma {:induction false} RanksIncrease(rt: Runtime, mapping: Mapping, record: Value, line: Option<nat>, e: nat, k: nat, e': nat, k': nat)
    requires IsRow(mapping, record, line, e, k) && Survives(rt, mapping, record, line, e, k)
    requires IsRow(mapping, record, line, e', k') && mapping[e'].target == mapping[e].target
    requires e < e' || (e == e' && k < k')
    ensures Rank(rt, mapping, record, line, e, k) < Rank(rt, mapping, record, line, e', k')
  {
    var before, row := Before(rt, mapping, record, line, e, k).results, Row(rt, mapping, record, line, e, k);
    EntriesOne(before, row);
    assert before + [row] <= Before(rt, mapping, record, line, e', k').results by {
      if e < e' {
        EarlierMapping(rt, mapping, record, line, e, k, e', k');
      } else {
        EarlierRow(rt, mapping, record, line, e, k, k');
      }
    }
    hide Before, Entries, Own;
    EntriesOfPrefix(before + [row], Before(rt, mapping, record, line, e', k').results, mapping[e].target);
  }

  lemma EarlierMapping(rt: Runtime, mapping: Mapping, record: Value, line: Option<nat>, e: nat, k: nat, e': nat, k': nat)
    requires IsRow(mapping, record, line, e, k) && Survives(rt, mapping, record, line, e, k)
    requires IsRow(mapping, record, line, e', k') && e < e'
    ensures Before(rt, mapping, record, line, e, k).results + [Row(rt, mapping, record, line, e, k)]
         <= Before(rt, mapping, record, line, e', k').results
  {
    hide RowsApplied, RowOutcome, Extracted, MappingApplied;
    assert mapping[..e'][..e] == mapping[..e];
    RowStands(rt, mapping[..e'], record, line, e, k);
  }

  lemma FirstThenOne(before: seq<EntityRow>, first: seq<EntityRow>, row: EntityRow, more: seq<EntityRow>)
    requires first + [row] <= more
    ensures before + first + [row] <= before + more
  {
  }

  lemma EarlierRow(rt: Runtime, mapping: Mapping, record: Value, line: Option<nat>, e: nat, k: nat, k': nat)
    requires IsRow(mapping, record, line, e, k) && Survives(rt, mapping, record, line, e, k)
    requires IsRow(mapping, record, line, e, k') && k < k'
    ensures Before(rt, mapping, record, line, e, k).results + [Row(rt, mapping, record, line, e, k)]
         <= Before(rt, mapping, record, line, e, k').results
  {
    hide RowOutcome, Extracted, MappingApplied, RowsApplied;
    var (rows, prefix, issues) := Extracted(mapping[e], record, line);
    var row, before := Row(rt, mapping, record, line, e, k), MappingApplied(rt, mapping[..e], record, line).results;
    var first, more := RowsApplied(rt, mapping[e], prefix, line, rows[..k]).results, RowsApplied(rt, mapping[e], prefix, line, rows[..k']).results;
    assert rows[..k'][..k + 1] == rows[..k + 1] && rows[..k + 1][..k] == rows[..k];
    RowsLead(rt, mapping[e], prefix, line, rows[..k'], k + 1);
    LastRow(rt, mapping[e], prefix, line, rows[..k + 1]);
    FirstThenOne(before, first, row, more);
    assert before + [] == before;
  }

  // ---------------------------------------------------------------- the fate

  /** A row turned into a call is exactly one of the calls; a refused one is none
      of them, and its own rejecting issues follow those before it. */
  ghost predicate OneCall<T>(own: Part<T>, rank: nat, rankOf: T -> nat, calls: seq<T>, before: seq<Issue>, issues: seq<Issue>) {
    && own.Part?
    && if own.entities == []
       then SomeRejected(own.issues) && before + own.issues <= issues && forall i :: 0 <= i < |calls| ==> rankOf(calls[i]) != rank
       else |own.entities| == 1 && exists i :: IsTheCall(own.entities[0], i, rank, rankOf, calls)
  }

  predicate IsTheCall<T(==)>(call: T, i: nat, rank: nat, rankOf: T -> nat, calls: seq<T>) {
    i < |calls| && calls[i] == call && forall j :: 0 <= j < |calls| ==> (rankOf(calls[j]) == rank <==> j == i)
  }

  lemma FateOfCall<T>(turn: (EntityRow, nat) -> Part<T>, rows: seq<EntityRow>, rankOf: T -> nat, whole: Part<T>, k: nat,
                      earlier: seq<Issue>, issues: seq<Issue>)
    requires k < |rows| && Fate(turn, rows, whole, k) && Single(turn(rows[k], k), k, rankOf)
    requires forall i :: 0 <= i < |whole.entities| ==> Origin(turn, rows, rankOf, whole.entities[i])
    requires forall i, j :: 0 <= i < j < |whole.entities| ==> rankOf(whole.entities[i]) < rankOf(whole.entities[j])
    requires earlier + whole.issues <= issues
    ensures OneCall(turn(rows[k], k), k, rankOf, whole.entities, earlier + Parts(turn, rows[..k]).issues, issues)
  {
    hide Parts;
    var before, own := Parts(turn, rows[..k]), turn(rows[k], k);
    if own.entities == [] {
      forall i | 0 <= i < |whole.entities| ensures rankOf(whole.entities[i]) != k {
        assert Origin(turn, rows, rankOf, whole.entities[i]);
      }
      assert earlier + before.issues + own.issues <= earlier + whole.issues;
    } else {
      var i := |before.entities|;
      assert whole.entities[i] == own.entities[0];
      assert IsTheCall(own.entities[0], i, k, rankOf, whole.entities);
    }
  }

  /** The result of a record, in the parts the normaliser assembles it from. */
  lemma ResultParts(rt: Runtime, mapping: Mapping, record: Value, source: int, line: Option<nat>)
    ensures var applied := MappingApplied(rt, mapping, record, line);
            var r := Normalized(rt, mapping, record, source, line);
            && r.Some?
            && var sp := SessionsOf(rt, mapping, applied.results, source, line);
               var mp := ModelCallsOf(rt, mapping, applied.results, r.value.sessions, line);
               var tp := ToolCallsOf(rt, mapping, applied.results, r.value.sessions, line);
               && sp.Part? && mp.Part? && tp.Part?
               && r.value.sessions == sp.entities && r.value.modelCalls == mp.entities && r.value.toolCalls == tp.entities
               && r.value.issues == applied.issues + sp.issues + mp.issues + tp.issues
               && r.value.requests == sp.requests + mp.requests + tp.requests
  {
    NoEscape(rt, mapping, record, source, line);
    hide MappingApplied, SessionsOf, ModelCallsOf, ToolCallsOf;
  }

  lemma {:induction false} TargetIsMapped(mapping: Mapping, e: nat)
    requires e < |mapping|
    ensures ByTarget(mapping, mapping[e].target).Some?
  {
    if mapping[|mapping| - 1].target != mapping[e].target {
      assert mapping[..|mapping| - 1][e] == mapping[e];
      TargetIsMapped(mapping[..|mapping| - 1], e);
    }
  }

  /** What the normaliser makes of a surviving row of a session. */
  ghost predicate SessionFate(rt: Runtime, mapping: Mapping, record: Value, source: int, line: Option<nat>, row: EntityRow, rank: nat, r: NormResult) {
    var applied, entity := MappingApplied(rt, mapping, record, line), ByTarget(mapping, "session");
    var n := |Entries(applied.results, "session")|;
    && entity.Some? && rank < n
    && if rank > 0 then Issue(Warning, SessionsIgnored(n), Nowhere, line) in r.issues
       else
         var made := SessionMade(rt, entity.value, row.data, source, line);
         && made.Part? && r.sessions == made.entities && |made.entities| <= 1
         && (made.entities == [] ==> SomeRejected(made.issues) && applied.issues + IgnoredSessions(n, line) + made.issues <= r.issues)
  }

  function IgnoredSessions(n: nat, line: Option<nat>): seq<Issue> {
    if n > 1 then [Issue(Warning, SessionsIgnored(n), Nowhere, line)] else []
  }

  function Raised<T>(part: Part<T>): seq<Issue> {
    if part.Part? then part.issues else []
  }

  /** And of a row of calls: without a session, one issue counts them all. */
  ghost predicate CallFate<T>(turn: (EntityRow, nat) -> Part<T>, rankOf: T -> nat, rows: seq<EntityRow>, row: EntityRow, rank: nat,
                              sessions: seq<Session>, calls: seq<T>, before: seq<Issue>, issues: seq<Issue>, line: Option<nat>)
  {
    && rank < |rows|
    && if sessions == [] then calls == [] && Issue(Rejected, ParentMissing(|rows|), Nowhere, line) in issues
       else OneCall(turn(row, rank), rank, rankOf, calls, before + Raised(Parts(turn, rows[..rank])), issues)
  }

  lemma CallsFate<T>(turn: (EntityRow, nat) -> Part<T>, rankOf: T -> nat, rows: seq<EntityRow>, rank: nat, sessions: seq<Session>,
                     whole: Part<T>, before: seq<Issue>, issues: seq<Issue>, line: Option<nat>)
    requires rank < |rows| && whole.Part? && before + whole.issues <= issues
    requires sessions == [] ==> whole == Orphans(rows, line)
    requires sessions != [] ==>
               && Fate(turn, rows, whole, rank) && Single(turn(rows[rank], rank), rank, rankOf)
               && (forall i :: 0 <= i < |whole.entities| ==> Origin(turn, rows, rankOf, whole.entities[i]))
               && (forall i, j :: 0 <= i < j < |whole.entities| ==> rankOf(whole.entities[i]) < rankOf(whole.entities[j]))
    ensures CallFate(turn, rankOf, rows, rows[rank], rank, sessions, whole.entities, before, issues, line)
  {
    if sessions == [] {
      var issue := Issue(Rejected, ParentMissing(|rows|), Nowhere, line);
      assert whole.issues == [issue];
      assert (before + whole.issues)[|before|] == issue;
    } else {
      FateOfCall(turn, rows, rankOf, whole, rank, before, issues);
    }
  }

  lemma Regroup(a: seq<Issue>, b: seq<Issue>, c: seq<Issue>, d: seq<Issue>, e: seq<Issue>)
    ensures a + b + c <= a + (b + c) + d + e
    ensures forall i :: i in b ==> i in a + (b + c) + d + e
  {
  }

  /** The session part of a record that has session rows. */
  lemma SessionJoin(rt: Runtime, mapping: Mapping, results: seq<EntityRow>, source: int, line: Option<nat>)
    requires Entries(results, "session") != [] && ByTarget(mapping, "session").Some?
    requires SessionsOf(rt, mapping, results, source, line).Part?
    ensures var rows, sp := Entries(results, "session"), SessionsOf(rt, mapping, results, source, line);
            var made := SessionMade(rt, ByTarget(mapping, "session").value, rows[0].data, source, line);
            && made.Part? && sp.entities == made.entities && sp.issues == IgnoredSessions(|rows|, line) + made.issues
  {
    hide Entries, ByTarget, SessionMade;
    var rows := Entries(results, "session");
    var made := SessionMade(rt, ByTarget(mapping, "session").value, rows[0].data, source, line);
    assert SessionsOf(rt, mapping, results, source, line) == Join(Part([], IgnoredSessions(|rows|, line), []), made);
    assert made.Part? ==> [] + made.entities == made.entities;
  }

  /** Where its issues stand in the result. */
  lemma SessionIssues(rt: Runtime, mapping: Mapping, record: Value, source: int, line: Option<nat>)
    requires ByTarget(mapping, "session").Some? && Entries(MappingApplied(rt, mapping, record, line).results, "session") != []
    ensures Normalized(rt, mapping, record, source, line).Some?
    ensures var r, applied := Normalized(rt, mapping, record, source, line).value, MappingApplied(rt, mapping, record, line);
            var rows := Entries(applied.results, "session");
            var made := SessionMade(rt, ByTarget(mapping, "session").value, rows[0].data, source, line);
            && made.Part? && r.sessions == made.entities
            && applied.issues + IgnoredSessions(|rows|, line) + made.issues <= r.issues
            && forall i :: i in IgnoredSessions(|rows|, line) ==> i in r.issues
  {
    hide *;
    ResultParts(rt, mapping, record, source, line);
    var r, applied := Normalized(rt, mapping, record, source, line).value, MappingApplied(rt, mapping, record, line);
    SessionJoin(rt, mapping, applied.results, source, line);
    var rows := Entries(applied.results, "session");
    var made := SessionMade(rt, ByTarget(mapping, "session").value, rows[0].data, source, line);
    Regroup(applied.issues, IgnoredSessions(|rows|, line), made.issues,
            ModelCallsOf(rt, mapping, applied.results, r.sessions, line).issues,
            ToolCallsOf(rt, mapping, applied.results, r.sessions, line).issues);
  }

  lemma {:induction false} SessionRowFate(rt: Runtime, mapping: Mapping, record: Value, source: int, line: Option<nat>, e: nat, k: nat)
    requires IsRow(mapping, record, line, e, k) && Survives(rt, mapping, record, line, e, k) && mapping[e].target == "session"
    ensures Normalized(rt, mapping, record, source, line).Some?
    ensures SessionFate(rt, mapping, record, source, line, Row(rt, mapping, record, line, e, k), Rank(rt, mapping, record, line, e, k),
                        Normalized(rt, mapping, record, source, line).value)
  {
    hide Normalized, MappingApplied, Entries, ByTarget, Extracted, Rank, Own, SessionMade, SomeRejected;
    RankedEntry(rt, mapping, record, line, e, k);
    TargetIsMapped(mapping, e);
    SessionIssues(rt, mapping, record, source, line);
    var rows := Entries(MappingApplied(rt, mapping, record, line).results, "session");
    SessionMadeFate(rt, ByTarget(mapping, "session").value, rows[0].data, source, line);
    if |rows| > 1 {
      assert IgnoredSessions(|rows|, line)[0] in IgnoredSessions(|rows|, line);
    }
  }

  lemma SessionMadeFate(rt: Runtime, entity: EntityMapping, data: map<string, Value>, source: int, line: Option<nat>)
    ensures var made := SessionMade(rt, entity, data, source, line);
            made.Part? ==> |made.entities| <= 1 && (made.entities == [] ==> SomeRejected(made.issues))
  {
    NameRejects(rt, entity.target, "agent_name", data, line, false);
    var keys := Rejection<Session>(MissingNaturalKey(MissingKeys(entity.naturalKey, data)), line);
    var failed := Rejection<Session>(ConstructionFailed, line);
    assert keys.issues[0].severity.Rejected? && failed.issues[0].severity.Rejected?;
    hide NameFrom, MissingKeys, MakeSession;
  }

  lemma SessionTag(rt: Runtime, mapping: Mapping, record: Value, source: int, line: Option<nat>)
    ensures Normalized(rt, mapping, record, source, line).Some?
    ensures var sessions := Normalized(rt, mapping, record, source, line).value.sessions;
            sessions != [] ==> sessions[0].id == Tag(line, "session", 0)
  {
    NoEscape(rt, mapping, record, source, line);
    Closure(rt, mapping, MappingApplied(rt, mapping, record, line), source, line);
    hide MappingApplied, ModelCallsLinked, ToolCallsLinked, Assembled;
  }

  function ModelTurnOf(rt: Runtime, mapping: Mapping, line: Option<nat>): (EntityRow, nat) -> Part<ModelCall>
    requires ByTarget(mapping, "model_call").Some?
  {
    ModelTurn(rt, ByTarget(mapping, "model_call").value, Tag(line, "session", 0), line)
  }

  function ToolTurnOf(rt: Runtime, mapping: Mapping, line: Option<nat>): (EntityRow, nat) -> Part<ToolCall>
    requires ByTarget(mapping, "tool_call").Some?
  {
    ToolTurn(rt, ByTarget(mapping, "tool_call").value, Tag(line, "session", 0), line)
  }

  /** The issues of a record up to its model calls, and up to its tool calls. */
  function BeforeModels(rt: Runtime, mapping: Mapping, record: Value, source: int, line: Option<nat>): seq<Issue> {
    var applied := MappingApplied(rt, mapping, record, line);
    applied.issues + Raised(SessionsOf(rt, mapping, applied.results, source, line))
  }

  function BeforeTools(rt: Runtime, mapping: Mapping, record: Value, source: int, line: Option<nat>, sessions: seq<Session>): seq<Issue> {
    BeforeModels(rt, mapping, record, source, line)
    + Raised(ModelCallsOf(rt, mapping, MappingApplied(rt, mapping, record, line).results, sessions, line))
  }

  lemma {:induction false} ModelRowFate(rt: Runtime, mapping: Mapping, record: Value, source: int, line: Option<nat>, rank: nat)
    requires ByTarget(mapping, "model_call").Some?
    requires rank < |Entries(MappingApplied(rt, mapping, record, line).results, "model_call")|
    ensures Normalized(rt, mapping, record, source, line).Some?
    ensures var r, rows := Normalized(rt, mapping, record, source, line).value, Entries(MappingApplied(rt, mapping, record, line).results, "model_call");
            CallFate(ModelTurnOf(rt, mapping, line), ModelRank, rows, rows[rank], rank, r.sessions, r.modelCalls,
                     BeforeModels(rt, mapping, record, source, line), r.issues, line)
  {
    ResultParts(rt, mapping, record, source, line);
    SessionTag(rt, mapping, record, source, line);
    var r := Normalized(rt, mapping, record, source, line).value;
    var applied, entity := MappingApplied(rt, mapping, record, line), ByTarget(mapping, "model_call").value;
    var rows, whole := Entries(applied.results, "model_call"), ModelCallsOf(rt, mapping, applied.results, r.sessions, line);
    hide Normalized, MappingApplied, Entries, ByTarget, SessionsOf, ToolCallsOf, ModelCallParts, Fate, Single, Origin, CallFate, Orphans;
    if r.sessions != [] {
      ModelCallFates(rt, entity, r.sessions[0].id, line, rows);
      ModelCallsAreLinked(rt, entity, line, rows);
    }
    CallsFate(ModelTurnOf(rt, mapping, line), ModelRank, rows, rank, r.sessions, whole,
              BeforeModels(rt, mapping, record, source, line), r.issues, line);
  }

  lemma {:induction false} ToolRowFate(rt: Runtime, mapping: Mapping, record: Value, source: int, line: Option<nat>, rank: nat)
    requires ByTarget(mapping, "tool_call").Some?
    requires rank < |Entries(MappingApplied(rt, mapping, record, line).results, "tool_call")|
    ensures Normalized(rt, mapping, record, source, line).Some?
    ensures var r, rows := Normalized(rt, mapping, record, source, line).value, Entries(MappingApplied(rt, mapping, record, line).results, "tool_call");
            CallFate(ToolTurnOf(rt, mapping, line), ToolRank, rows, rows[rank], rank, r.sessions, r.toolCalls,
                     BeforeTools(rt, mapping, record, source, line, r.sessions), r.issues, line)
  {
    ResultParts(rt, mapping, record, source, line);
    SessionTag(rt, mapping, record, source, line);
    var r := Normalized(rt, mapping, record, source, line).value;
    var applied, entity := MappingApplied(rt, mapping, record, line), ByTarget(mapping, "tool_call").value;
    var rows, whole := Entries(applied.results, "tool_call"), ToolCallsOf(rt, mapping, applied.results, r.sessions, line);
    hide Normalized, MappingApplied, Entries, ByTarget, SessionsOf, ModelCallsOf, ToolCallParts, Fate, Single, Origin, CallFate, Orphans;
    if r.sessions != [] {
      ToolCallFates(rt, entity, r.sessions[0].id, line, rows);
      ToolCallsAreLinked(rt, entity, line, rows);
    }
    CallsFate(ToolTurnOf(rt, mapping, line), ToolRank, rows, rank, r.sessions, whole,
              BeforeTools(rt, mapping, record, source, line, r.sessions), r.issues, line);
  }

  lemma {:induction false} DroppedRowFate(rt: Runtime, mapping: Mapping, record: Value, source: int, line: Option<nat>, e: nat, k: nat)
    requires IsRow(mapping, record, line, e, k) && !Survives(rt, mapping, record, line, e, k)
    ensures Normalized(rt, mapping, record, source, line).Some?
    ensures var own, r := Own(rt, mapping, record, line, e, k), Normalized(rt, mapping, record, source, line).value;
            SomeRejected(own.1) && Before(rt, mapping, record, line, e, k).issues + own.1 <= r.issues
  {
    ResultParts(rt, mapping, record, source, line);
    RowStands(rt, mapping, record, line, e, k);
    var (rows, prefix, _) := Extracted(mapping[e], record, line);
    DroppedIffRejected(rt, mapping[e], Scope(rows[k], prefix), line);
    hide Normalized, MappingApplied, Before, SomeRejected, SessionsOf, ModelCallsOf, ToolCallsOf, Extracted, RowOutcome;
  }

  /** The fate of a row in the result `r` of its record. One the engine drops has
      its own issues in `r`, in their place, and one of them rejects it. Another
      is followed by its rank: it is the session, or one of those ignored aloud;
      exactly one call, or refused by issues of its own, or counted as orphaned. */
  ghost predicate Followed(rt: Runtime, mapping: Mapping, record: Value, source: int, line: Option<nat>, e: nat, k: nat, r: NormResult)
    requires IsRow(mapping, record, line, e, k)
  {
    var target, results := mapping[e].target, MappingApplied(rt, mapping, record, line).results;
    if !Survives(rt, mapping, record, line, e, k) then
      var own := Own(rt, mapping, record, line, e, k);
      SomeRejected(own.1) && Before(rt, mapping, record, line, e, k).issues + own.1 <= r.issues
    else
      var row, rank := Row(rt, mapping, record, line, e, k), Rank(rt, mapping, record, line, e, k);
      if target == "session" then SessionFate(rt, mapping, record, source, line, row, rank, r)
      else if target == "model_call" then
        && ByTarget(mapping, target).Some?
        && CallFate(ModelTurnOf(rt, mapping, line), ModelRank, Entries(results, target), row, rank, r.sessions, r.modelCalls,
                    BeforeModels(rt, mapping, record, source, line), r.issues, line)
      else
        && target == "tool_call" && ByTarget(mapping, target).Some?
        && CallFate(ToolTurnOf(rt, mapping, line), ToolRank, Entries(results, target), row, rank, r.sessions, r.toolCalls,
                    BeforeTools(rt, mapping, record, source, line, r.sessions), r.issues, line)
  }

  /** No row is lost in silence: every row that an entity mapping with a known
      target reaches, in any record, has its fate in the result. */
  lemma {:induction false} NoRowLost(rt: Runtime, mapping: Mapping, record: Value, source: int, line: Option<nat>, e: nat, k: nat)
    requires IsRow(mapping, record, line, e, k) && KnownTarget(mapping[e].target)
    ensures Normalized(rt, mapping, record, source, line).Some?
    ensures Followed(rt, mapping, record, source, line, e, k, Normalized(rt, mapping, record, source, line).value)
  {
    NoEscape(rt, mapping, record, source, line);
    TargetIsMapped(mapping, e);
    hide Normalized, MappingApplied, Before, SomeRejected, SessionFate, CallFate, BeforeModels, BeforeTools, Own, Row, Rank, Entries, ByTarget,
         ModelTurnOf, ToolTurnOf, Survives, IsRow;
    if !Survives(rt, mapping, record, line, e, k) {
      DroppedRowFate(rt, mapping, record, source, line, e, k);
    } else {
      RankedEntry(rt, mapping, record, line, e, k);
      var rank := Rank(rt, mapping, record, line, e, k);
      if mapping[e].target == "session" {
        SessionRowFate(rt, mapping, record, source, line, e, k);
      } else if mapping[e].target == "model_call" {
        ModelRowFate(rt, mapping, record, source, line, rank);
      } else {
        ToolRowFate(rt, mapping, record, source, line, rank);
      }
    }
  }

  // ----------------------------------------------------------- and conversely

  lemma {:induction false} SourceOfResult(rt: Runtime, entity: EntityMapping, prefix: Path, line: Option<nat>, rows: seq<Value>, j: nat)
    requires j < |RowsApplied(rt, entity, prefix, line, rows).results|
    ensures var k := RowsApplied(rt, entity, prefix, line, rows).results[j].sourceIndex;
            && k < |rows| && RowOutcome(rt, entity, Scope(rows[k], prefix), line).0.Some?
            && |RowsApplied(rt, entity, prefix, line, rows[..k]).results| == j
  {
    hide RowOutcome, RowsApplied;
    if rows == [] {
      NoRowsApplied(rt, entity, prefix, line);
    } else {
      var n := |rows| - 1;
      LastRow(rt, entity, prefix, line, rows);
      var before := RowsApplied(rt, entity, prefix, line, rows[..n]).results;
      if j < |before| {
        SourceOfResult(rt, entity, prefix, line, rows[..n], j);
        assert rows[..n][..before[j].sourceIndex] == rows[..before[j].sourceIndex];
      }
    }
  }

  lemma NoRowsApplied(rt: Runtime, entity: EntityMapping, prefix: Path, line: Option<nat>)
    ensures RowsApplied(rt, entity, prefix, line, []) == Applied([], [])
  {
  }

  lemma SameRow(rt: Runtime, mapping: Mapping, record: Value, line: Option<nat>, n: nat, e: nat, k: nat)
    requires n <= |mapping| && IsRow(mapping[..n], record, line, e, k)
    ensures IsRow(mapping, record, line, e, k)
    ensures Own(rt, mapping, record, line, e, k) == Own(rt, mapping[..n], record, line, e, k)
    ensures Rank(rt, mapping, record, line, e, k) == Rank(rt, mapping[..n], record, line, e, k)
  {
    hide RowsApplied, RowOutcome, Extracted, MappingApplied, Entries;
    assert mapping[..n][..e] == mapping[..e] && mapping[..n][e] == mapping[e];
  }

  lemma TargetsOfRows(rt: Runtime, entity: EntityMapping, prefix: Path, line: Option<nat>, rows: seq<Value>)
    ensures Entries(RowsApplied(rt, entity, prefix, line, rows).results, entity.target) == RowsApplied(rt, entity, prefix, line, rows).results
  {
    RowPositions(rt, entity, prefix, line, rows);
    hide RowData, RowsApplied;
    var results := RowsApplied(rt, entity, prefix, line, rows).results;
    forall i | 0 <= i < |results| ensures results[i].entity == entity.target {
      assert results[i] in results;
    }
    AllEntries(results, entity.target);
  }

  lemma RankInMapping(rt: Runtime, mapping: Mapping, record: Value, line: Option<nat>, e: nat, k: nat)
    requires IsRow(mapping, record, line, e, k)
    ensures var (rows, prefix, _) := Extracted(mapping[e], record, line);
            Rank(rt, mapping, record, line, e, k) == |Entries(MappingApplied(rt, mapping[..e], record, line).results, mapping[e].target)|
                                                     + |RowsApplied(rt, mapping[e], prefix, line, rows[..k]).results|
  {
    hide Extracted, RowsApplied, MappingApplied, Entries;
    var (rows, prefix, issues) := Extracted(mapping[e], record, line);
    var before, first := MappingApplied(rt, mapping[..e], record, line).results, RowsApplied(rt, mapping[e], prefix, line, rows[..k]).results;
    TargetsOfRows(rt, mapping[e], prefix, line, rows[..k]);
    EntriesConcat(before, first, mapping[e].target);
    assert before + [] == before;
  }

  lemma EntityResults(rt: Runtime, entity: EntityMapping, record: Value, line: Option<nat>)
    ensures var (rows, prefix, _) := Extracted(entity, record, line);
            EntityApplied(rt, entity, record, line).results == RowsApplied(rt, entity, prefix, line, rows).results
  {
    hide Extracted, RowsApplied;
  }

  lemma RowOfLastMapping(rt: Runtime, mapping: Mapping, record: Value, line: Option<nat>, j: nat) returns (k: nat)
    requires mapping != []
    requires j < |EntityApplied(rt, mapping[|mapping| - 1], record, line).results|
    ensures var n := |mapping| - 1;
            && IsRow(mapping, record, line, n, k) && Survives(rt, mapping, record, line, n, k)
            && Rank(rt, mapping, record, line, n, k) == |Entries(MappingApplied(rt, mapping[..n], record, line).results, mapping[n].target)| + j
  {
    var n := |mapping| - 1;
    var (rows, prefix, _) := Extracted(mapping[n], record, line);
    EntityResults(rt, mapping[n], record, line);
    hide RowOutcome, Extracted, RowsApplied, EntityApplied, MappingApplied, Entries, Rank;
    k := RowsApplied(rt, mapping[n], prefix, line, rows).results[j].sourceIndex;
    SourceOfResult(rt, mapping[n], prefix, line, rows, j);
    RankInMapping(rt, mapping, record, line, n, k);
  }

  /** Every entry comes from one row, of its rank: entities are only made of rows. */
  lemma {:induction false} RowOfEntry(rt: Runtime, mapping: Mapping, record: Value, line: Option<nat>, target: string, i: nat) returns (e: nat, k: nat)
    requires i < |Entries(MappingApplied(rt, mapping, record, line).results, target)|
    ensures IsRow(mapping, record, line, e, k) && mapping[e].target == target
    ensures Survives(rt, mapping, record, line, e, k) && Rank(rt, mapping, record, line, e, k) == i
  {
    hide EntityApplied, Extracted, Entries, Own, Rank;
    if mapping == [] {
      NoEntriesOf(rt, record, line, target);
      assert false;
    } else {
      var n := |mapping| - 1;
      var before := |Entries(MappingApplied(rt, mapping[..n], record, line).results, target)|;
      if i < before {
        e, k := RowOfEntry(rt, mapping[..n], record, line, target, i);
        SameRow(rt, mapping, record, line, n, e, k);
      } else {
        LastEntries(rt, mapping, record, line, target);
        e := n;
        k := RowOfLastMapping(rt, mapping, record, line, i - before);
      }
    }
  }

  lemma NoEntriesOf(rt: Runtime, record: Value, line: Option<nat>, target: string)
    ensures Entries(MappingApplied(rt, [], record, line).results, target) == []
  {
  }

  lemma LastEntries(rt: Runtime, mapping: Mapping, record: Value, line: Option<nat>, target: string)
    requires mapping != []
    ensures var n := |mapping| - 1;
            |Entries(MappingApplied(rt, mapping, record, line).results, target)|
            == |Entries(MappingApplied(rt, mapping[..n], record, line).results, target)|
               + (if mapping[n].target == target then |EntityApplied(rt, mapping[n], record, line).results| else 0)
  {
    var n := |mapping| - 1;
    if mapping[n].target != target {
      OtherEntries(rt, mapping, record, line, target);
    } else {
      LastEntity(rt, mapping, record, line);
      EntityAccounted(rt, mapping[n], record, line);
      hide MappingApplied, EntityApplied, Entries, Extracted;
      AllEntries(EntityApplied(rt, mapping[n], record, line).results, target);
      EntriesConcat(MappingApplied(rt, mapping[..n], record, line).results, EntityApplied(rt, mapping[n], record, line).results, target);
    }
  }
}
