/**
 The import run: a file read in batches, each batch one transaction. What a run
 leaves in the store, and what it reports, is proved equal to the line-by-line
 fold of `Importing`, whatever the batch size.
 */
module RunImport {
  import opened Values
  import opened Mappings
  import Validator
  import ValidatorLaws
  import opened Normalizer
  import opened NormalizerLaws
  import opened Accounting
  import opened References
  import opened Store
  import opened Importing
  import opened Reporting
  import opened Rejections
  import opened ResolveReferences

  // ------------------------------------------------------------- raw records

  /** `raw_records.add_many`: the lines written, none of them stored before. */
  method AddRecords(table: map<RawKey, Value>, run: nat, start: nat, batch: seq<Value>)
    returns (after: map<RawKey, Value>, stored: set<nat>)
    ensures after == InsertAll(table, RawRows(run, start, batch))
    ensures forall line :: line in stored <==> start <= line < start + |batch| && Fresh(table, run, line)
  {
    var rows: seq<Row<RawKey, Value>> := [];
    for i := 0 to |batch|
      invariant rows == RawRows(run, start, batch[..i])
    {
      assert batch[..i + 1][..i] == batch[..i];
      rows := rows + [Row(Tag(Some(start + i), "raw", 0), RawKey(run, start + i), batch[i])];
    }
    assert batch[..|batch|] == batch;
    var candidates := FirstRows(rows);
    var inserted;
    after, inserted := Insert(table, rows, candidates);
    RawRowKeys(run, start, batch);
    hide RawRows, KeysOf, InsertAll;
    stored := set key | key in inserted :: key.line;
    forall line | start <= line < start + |batch| && Fresh(table, run, line) ensures line in stored {
      assert RawKey(run, line) in inserted;
    }
  }

  // ---------------------------------------------------- rows from the results

  /** The normalising loop of `_import_batch`. */
  method NormaliseBatch(rt: Runtime, mapping: Mapping, source: int, batch: seq<Value>, start: nat)
    returns (results: seq<NormResult>, issues: seq<Issue>, pending: seq<Request>)
    ensures results == ResultsOf(rt, mapping, source, start, batch)
    ensures issues == IssuesOf(results) && pending == Requests(results)
  {
    results, issues, pending := [], [], [];
    hide Normalized;
    for i := 0 to |batch|
      invariant results == ResultsOf(rt, mapping, source, start, batch[..i])
      invariant issues == IssuesOf(results) && pending == Requests(results)
    {
      assert batch[..i + 1][..i] == batch[..i];
      var result := Normalize(rt, mapping, batch[i], source, Some(start + i));
      NoEscape(rt, mapping, batch[i], source, Some(start + i));
      assert (results + [result.value])[..i] == results;
      results := results + [result.value];
      issues := issues + result.value.issues;
      pending := pending + result.value.requests;
    }
    assert batch[..|batch|] == batch;
  }

  /** `_resolved_id`: the id of a named reference. */
  function ResolvedId(resolved: map<Request, nat>, key: Option<Request>): Option<nat> {
    if key.Some? && key.value in resolved then Some(resolved[key.value]) else None
  }

  /** Its issue, when a name has no id. */
  function Unresolved(resolved: map<Request, nat>, key: Option<Request>, line: nat, severity: Severity, place: Place): seq<Issue> {
    if key.Some? && key.value !in resolved then [Issue(severity, ReferenceUnresolved, place, Some(line))] else []
  }

  function SessionsWith(resolved: map<Request, nat>, raw: RawKey, sessions: seq<Session>): seq<Row<SessionKey, SessionFact>> {
    if sessions == [] then []
    else
      var n := |sessions| - 1;
      SessionsWith(resolved, raw, sessions[..n]) +
      [Row(sessions[n].id, SessionKeyOf(sessions[n]),
           SessionFact(raw.run, raw, ResolvedId(resolved, AgentKey(sessions[n])), sessions[n].columns))]
  }

  function ModelsWith(resolved: map<Request, nat>, raw: RawKey, calls: seq<ModelCall>): seq<CallRow<ModelFact>> {
    if calls == [] then []
    else
      var n := |calls| - 1;
      ModelsWith(resolved, raw, calls[..n]) +
      [CallRow(calls[n].id, calls[n].session, calls[n].index,
               ModelFact(raw, ResolvedId(resolved, ModelKey(calls[n])), calls[n].status, calls[n].columns))]
  }

  /** A tool call without an id has no row. */
  function ToolsWith(resolved: map<Request, nat>, raw: RawKey, calls: seq<ToolCall>): seq<CallRow<ToolFact>> {
    if calls == [] then []
    else
      var n := |calls| - 1;
      var tool := ResolvedId(resolved, ToolKey(calls[n]));
      ToolsWith(resolved, raw, calls[..n]) +
      if tool.None? then [] else [CallRow(calls[n].id, calls[n].session, calls[n].index,
                                          ToolFact(raw, tool.value, calls[n].status, calls[n].columns))]
  }

  function AgentIssues(resolved: map<Request, nat>, line: nat, sessions: seq<Session>): seq<Issue> {
    if sessions == [] then []
    else
      var n := |sessions| - 1;
      AgentIssues(resolved, line, sessions[..n]) +
      Unresolved(resolved, AgentKey(sessions[n]), line, Warning, FieldOf("session", "agent_name"))
  }

  function ModelIssues(resolved: map<Request, nat>, line: nat, calls: seq<ModelCall>): seq<Issue> {
    if calls == [] then []
    else
      var n := |calls| - 1;
      ModelIssues(resolved, line, calls[..n]) +
      Unresolved(resolved, ModelKey(calls[n]), line, Warning, FieldOf("model_call", "model_name"))
  }

  function ToolIssues(resolved: map<Request, nat>, line: nat, calls: seq<ToolCall>): seq<Issue> {
    if calls == [] then []
    else
      var n := |calls| - 1;
      ToolIssues(resolved, line, calls[..n]) +
      Unresolved(resolved, ToolKey(calls[n]), line, Rejected, FieldOf("tool_call", "tool_name"))
  }

  /** What a batch will write, and what it says of its references. */
  datatype Lot = Lot(sessions: seq<Row<SessionKey, SessionFact>>, models: seq<CallRow<ModelFact>>, tools: seq<CallRow<ToolFact>>,
                     issues: seq<Issue>)
  {
    function Then(more: Lot): Lot {
      Lot(sessions + more.sessions, models + more.models, tools + more.tools, issues + more.issues)
    }
  }

  /** The rows of one record. */
  function LotOf(resolved: map<Request, nat>, raw: RawKey, r: NormResult): Lot {
    Lot(SessionsWith(resolved, raw, r.sessions), ModelsWith(resolved, raw, r.modelCalls), ToolsWith(resolved, raw, r.toolCalls),
        AgentIssues(resolved, raw.line, r.sessions) + ModelIssues(resolved, raw.line, r.modelCalls)
        + ToolIssues(resolved, raw.line, r.toolCalls))
  }

  /** The rows of a batch: a line that was already stored is skipped. */
  function LotsOf(resolved: map<Request, nat>, run: nat, start: nat, results: seq<NormResult>, stored: set<nat>): Lot {
    if results == [] then Lot([], [], [], [])
    else
      var n := |results| - 1;
      var before := LotsOf(resolved, run, start, results[..n], stored);
      if start + n in stored then before.Then(LotOf(resolved, RawKey(run, start + n), results[n])) else before
  }

  method SessionsToStore(sessions: seq<Session>, raw: RawKey, resolved: map<Request, nat>)
    returns (rows: seq<Row<SessionKey, SessionFact>>, issues: seq<Issue>)
    ensures rows == SessionsWith(resolved, raw, sessions) && issues == AgentIssues(resolved, raw.line, sessions)
  {
    rows, issues := [], [];
    for i := 0 to |sessions|
      invariant rows == SessionsWith(resolved, raw, sessions[..i]) && issues == AgentIssues(resolved, raw.line, sessions[..i])
    {
      assert sessions[..i + 1][..i] == sessions[..i];
      var session := sessions[i];
      var key := AgentKey(session);
      issues := issues + Unresolved(resolved, key, raw.line, Warning, FieldOf("session", "agent_name"));
      rows := rows + [Row(session.id, SessionKeyOf(session),
                          SessionFact(raw.run, raw, ResolvedId(resolved, key), session.columns))];
    }
    assert sessions[..|sessions|] == sessions;
  }

  method ModelCallsToStore(calls: seq<ModelCall>, raw: RawKey, resolved: map<Request, nat>)
    returns (rows: seq<CallRow<ModelFact>>, issues: seq<Issue>)
    ensures rows == ModelsWith(resolved, raw, calls) && issues == ModelIssues(resolved, raw.line, calls)
  {
    rows, issues := [], [];
    for i := 0 to |calls|
      invariant rows == ModelsWith(resolved, raw, calls[..i]) && issues == ModelIssues(resolved, raw.line, calls[..i])
    {
      assert calls[..i + 1][..i] == calls[..i];
      var call := calls[i];
      var key := ModelKey(call);
      issues := issues + Unresolved(resolved, key, raw.line, Warning, FieldOf("model_call", "model_name"));
      rows := rows + [CallRow(call.id, call.session, call.index,
                              ModelFact(raw, ResolvedId(resolved, key), call.status, call.columns))];
    }
    assert calls[..|calls|] == calls;
  }

  method ToolCallsToStore(calls: seq<ToolCall>, raw: RawKey, resolved: map<Request, nat>)
    returns (rows: seq<CallRow<ToolFact>>, issues: seq<Issue>)
    ensures rows == ToolsWith(resolved, raw, calls) && issues == ToolIssues(resolved, raw.line, calls)
  {
    rows, issues := [], [];
    for i := 0 to |calls|
      invariant rows == ToolsWith(resolved, raw, calls[..i]) && issues == ToolIssues(resolved, raw.line, calls[..i])
    {
      assert calls[..i + 1][..i] == calls[..i];
      var call := calls[i];
      var key := ToolKey(call);
      issues := issues + Unresolved(resolved, key, raw.line, Rejected, FieldOf("tool_call", "tool_name"));
      var tool := ResolvedId(resolved, key);
      if tool.None? {
        continue;
      }
      rows := rows + [CallRow(call.id, call.session, call.index, ToolFact(raw, tool.value, call.status, call.columns))];
    }
    assert calls[..|calls|] == calls;
  }

  /** A tool call is stored or reported as rejected, and never both. */
  lemma {:induction false} NoToolLost(resolved: map<Request, nat>, raw: RawKey, calls: seq<ToolCall>)
    ensures |ToolsWith(resolved, raw, calls)| + |ToolIssues(resolved, raw.line, calls)| == |calls|
    ensures forall i :: 0 <= i < |ToolIssues(resolved, raw.line, calls)| ==>
                          ToolIssues(resolved, raw.line, calls)[i] ==
                          Issue(Rejected, ReferenceUnresolved, FieldOf("tool_call", "tool_name"), Some(raw.line))
  {
    if calls != [] {
      NoToolLost(resolved, raw, calls[..|calls| - 1]);
    }
  }

  /** What a session is stored as, and what is said of its agent without an id:
      a warning. */
  lemma {:induction false} SessionIsStored(resolved: map<Request, nat>, raw: RawKey, sessions: seq<Session>, s: Session)
    ensures var key := Request("agent", s.agentName.GetOr(""), []);
            var known, missing := s.agentName.Some? && key in resolved, s.agentName.Some? && key !in resolved;
            && SessionsWith(resolved, raw, sessions + [s]) == SessionsWith(resolved, raw, sessions)
               + [Row(s.id, SessionKey(s.source, s.externalId), SessionFact(raw.run, raw, if known then Some(resolved[key]) else None, s.columns))]
            && AgentIssues(resolved, raw.line, sessions + [s]) == AgentIssues(resolved, raw.line, sessions)
               + if missing then [Issue(Warning, ReferenceUnresolved, FieldOf("session", "agent_name"), Some(raw.line))] else []
  {
    assert (sessions + [s])[..|sessions|] == sessions;
  }

  /** A model call and its model, in the same way. */
  lemma {:induction false} ModelCallIsStored(resolved: map<Request, nat>, raw: RawKey, calls: seq<ModelCall>, c: ModelCall)
    ensures var context := if c.provider.Some? && c.provider.value != "" then [("provider_name", c.provider.value)] else [];
            var key := Request("model", c.model.GetOr(""), context);
            var known, missing := c.model.Some? && key in resolved, c.model.Some? && key !in resolved;
            && ModelsWith(resolved, raw, calls + [c]) == ModelsWith(resolved, raw, calls)
               + [CallRow(c.id, c.session, c.index, ModelFact(raw, if known then Some(resolved[key]) else None, c.status, c.columns))]
            && ModelIssues(resolved, raw.line, calls + [c]) == ModelIssues(resolved, raw.line, calls)
               + if missing then [Issue(Warning, ReferenceUnresolved, FieldOf("model_call", "model_name"), Some(raw.line))] else []
  {
    assert (calls + [c])[..|calls|] == calls;
  }

  /** A tool call without an id for its tool is rejected, and not stored. */
  lemma {:induction false} ToolCallIsStored(resolved: map<Request, nat>, raw: RawKey, calls: seq<ToolCall>, c: ToolCall)
    ensures var key := Request("tool", c.tool, []);
            && ToolsWith(resolved, raw, calls + [c]) == ToolsWith(resolved, raw, calls)
               + (if key in resolved then [CallRow(c.id, c.session, c.index, ToolFact(raw, resolved[key], c.status, c.columns))] else [])
            && ToolIssues(resolved, raw.line, calls + [c]) == ToolIssues(resolved, raw.line, calls)
               + if key in resolved then [] else [Issue(Rejected, ReferenceUnresolved, FieldOf("tool_call", "tool_name"), Some(raw.line))]
  {
    assert (calls + [c])[..|calls|] == calls;
  }

  /** The rows of a batch, from its results. */
  method CollectRows(run: nat, start: nat, results: seq<NormResult>, stored: set<nat>, resolved: map<Request, nat>)
    returns (sessions: seq<Row<SessionKey, SessionFact>>, models: seq<CallRow<ModelFact>>, tools: seq<CallRow<ToolFact>>,
             issues: seq<Issue>)
    ensures Lot(sessions, models, tools, issues) == LotsOf(resolved, run, start, results, stored)
  {
    hide SessionsWith, ModelsWith, ToolsWith, AgentIssues, ModelIssues, ToolIssues;
    sessions, models, tools, issues := [], [], [], [];
    for i := 0 to |results|
      invariant Lot(sessions, models, tools, issues) == LotsOf(resolved, run, start, results[..i], stored)
    {
      assert results[..i + 1][..i] == results[..i];
      var result := results[i];
      if start + i !in stored {
        continue;
      }
      var key := RawKey(run, start + i);
      var sessionRows, sessionIssues := SessionsToStore(result.sessions, key, resolved);
      var modelRows, modelIssues := ModelCallsToStore(result.modelCalls, key, resolved);
      var toolRows, toolIssues := ToolCallsToStore(result.toolCalls, key, resolved);
      sessions, models, tools := sessions + sessionRows, models + modelRows, tools + toolRows;
      assert issues + sessionIssues + modelIssues + toolIssues == issues + (sessionIssues + modelIssues + toolIssues);
      issues := issues + sessionIssues + modelIssues + toolIssues;
    }
    assert results[..|results|] == results;
  }

  // ------------------------------------------------- every reference resolved

  lemma AskedIsResolved(resolved: map<Request, nat>, requests: seq<Request>, refs: Referentials, key: Option<Request>)
    requires Resolves(resolved, requests, refs) && Asked(key, requests)
    ensures ResolvedId(resolved, key) == IdOf(refs, key)
    ensures key.Some? ==> key.value in resolved && IdOf(refs, key).Some?
  {
    hide RowOf;
  }

  lemma {:induction false} SessionsResolved(resolved: map<Request, nat>, requests: seq<Request>, refs: Referentials, raw: RawKey, sessions: seq<Session>)
    requires Resolves(resolved, requests, refs) && forall i :: 0 <= i < |sessions| ==> Asked(AgentKey(sessions[i]), requests)
    ensures SessionsWith(resolved, raw, sessions) == SessionRows(sessions, raw, refs) && AgentIssues(resolved, raw.line, sessions) == []
  {
    hide AgentKey, IdOf, Resolves, Asked;
    if sessions != [] {
      var n := |sessions| - 1;
      SessionsResolved(resolved, requests, refs, raw, sessions[..n]);
      AskedIsResolved(resolved, requests, refs, AgentKey(sessions[n]));
    }
  }

  lemma {:induction false} ModelsResolved(resolved: map<Request, nat>, requests: seq<Request>, refs: Referentials, raw: RawKey, calls: seq<ModelCall>)
    requires Resolves(resolved, requests, refs) && forall i :: 0 <= i < |calls| ==> Asked(ModelKey(calls[i]), requests)
    ensures ModelsWith(resolved, raw, calls) == ModelRows(calls, raw, refs) && ModelIssues(resolved, raw.line, calls) == []
  {
    hide ModelKey, IdOf, Resolves, Asked;
    if calls != [] {
      var n := |calls| - 1;
      ModelsResolved(resolved, requests, refs, raw, calls[..n]);
      AskedIsResolved(resolved, requests, refs, ModelKey(calls[n]));
    }
  }

  lemma {:induction false} ToolsResolved(resolved: map<Request, nat>, requests: seq<Request>, refs: Referentials, raw: RawKey, calls: seq<ToolCall>)
    requires Resolves(resolved, requests, refs) && forall i :: 0 <= i < |calls| ==> Asked(ToolKey(calls[i]), requests)
    ensures ToolsWith(resolved, raw, calls) == ToolRows(calls, raw, refs) && ToolIssues(resolved, raw.line, calls) == []
  {
    hide IdOf, Resolves, Asked;
    if calls != [] {
      var n := |calls| - 1;
      ToolsResolved(resolved, requests, refs, raw, calls[..n]);
      AskedIsResolved(resolved, requests, refs, ToolKey(calls[n]));
    }
  }

  lemma RequestsOfOne(results: seq<NormResult>, i: nat)
    requires i < |results|
    ensures forall r :: r in results[i].requests ==> r in Requests(results)
  {
    if i < |results| - 1 {
      assert results[..|results| - 1][i] == results[i];
      RequestsOfOne(results[..|results| - 1], i);
    }
  }

  lemma ResolvesOne(resolved: map<Request, nat>, results: seq<NormResult>, refs: Referentials, i: nat)
    requires i < |results| && Resolves(resolved, Requests(results), refs)
    ensures Resolves(resolved, results[i].requests, refs)
  {
    RequestsOfOne(results, i);
  }

  /** The rows of one record of a batch whose references are resolved. */
  lemma LotResolved(resolved: map<Request, nat>, results: seq<NormResult>, refs: Referentials, run: nat, start: nat, i: nat)
    requires i < |results| && CleanAt(results[i], start + i) && Resolves(resolved, Requests(results), refs)
    ensures var r, raw := results[i], RawKey(run, start + i);
            LotOf(resolved, raw, r) ==
            Lot(SessionRows(r.sessions, raw, refs), ModelRows(r.modelCalls, raw, refs), ToolRows(r.toolCalls, raw, refs), [])
  {
    hide CleanAt, Resolves, Requests, SessionRows, ModelRows, ToolRows, Asked, AgentKey, ModelKey, ToolKey;
    var r, raw := results[i], RawKey(run, start + i);
    CleanKeys(r, start + i);
    ResolvesOne(resolved, results, refs, i);
    SessionsResolved(resolved, r.requests, refs, raw, r.sessions);
    ModelsResolved(resolved, r.requests, refs, raw, r.modelCalls);
    ToolsResolved(resolved, r.requests, refs, raw, r.toolCalls);
  }

  /** Once every request of a batch is answered, its rows are those of its fresh
      lines, and no reference is reported as unresolved. */
  lemma {:induction false} LotsResolved(resolved: map<Request, nat>, results: seq<NormResult>, refs: Referentials, raw: map<RawKey, Value>,
                                        run: nat, start: nat, stored: set<nat>, i: nat)
    requires i <= |results| && Clean(results, start) && Resolves(resolved, Requests(results), refs)
    requires forall line :: line in stored <==> start <= line < start + |results| && Fresh(raw, run, line)
    ensures LotsOf(resolved, run, start, results[..i], stored) ==
            Lot(BatchSessions(raw, run, start, results[..i], refs), BatchModels(raw, run, start, results[..i], refs),
                BatchTools(raw, run, start, results[..i], refs), [])
  {
    hide CleanAt, Resolves, Requests, Fresh, LotOf, SessionRows, ModelRows, ToolRows;
    if i != 0 {
      assert results[..i][..i - 1] == results[..i - 1];
      LotsResolved(resolved, results, refs, raw, run, start, stored, i - 1);
      LotResolved(resolved, results, refs, run, start, i - 1);
    }
  }

  // ---------------------------------------------------------------- counters

  /** What a batch reports of itself, beside the issues of its lines. */
  function Announcements(duplicates: nat, unlinked: nat): seq<Issue> {
    (if duplicates > 0 then [Issue(Duplicate, AlreadyImported(duplicates), Nowhere, None)] else []) +
    (if unlinked > 0 then [Issue(Warning, CallsUnlinked(unlinked), Nowhere, None)] else [])
  }

  lemma AnnouncementsNameNoLine(issues: seq<Issue>, duplicates: nat, unlinked: nat)
    ensures RejectedSet(issues + Announcements(duplicates, unlinked)) == RejectedSet(issues)
    ensures OfLines(issues + Announcements(duplicates, unlinked)) == OfLines(issues)
  {
    var more := Announcements(duplicates, unlinked);
    assert RejectedSet(more) == {};
    RejectedSetConcat(issues, more);
    OfLinesConcat(issues, more);
    assert OfLines(more) == [] by {
      assert |more| <= 2 && forall i :: 0 <= i < |more| ==> more[i].line.None?;
      NoLineIssues(more);
    }
  }

  lemma RepeatsAnnounced(duplicates: nat, unlinked: nat)
    ensures OnlyRepeats(Announcements(duplicates, 0)) && Announced(Announcements(duplicates, unlinked)) == duplicates
  {
    var repeats := if duplicates > 0 then [Issue(Duplicate, AlreadyImported(duplicates), Nowhere, None)] else [];
    var missing := if unlinked > 0 then [Issue(Warning, CallsUnlinked(unlinked), Nowhere, None)] else [];
    AnnouncedConcat(repeats, missing);
    OneAnnounced(repeats);
    OneAnnounced(missing);
  }

  lemma OneAnnounced(issues: seq<Issue>)
    requires |issues| <= 1
    ensures Announced(issues) == if issues != [] && issues[0].line.None? && issues[0].reason.AlreadyImported? then issues[0].reason.rows else 0
  {
    if issues != [] {
      assert issues[..0] == [];
    }
  }

  lemma {:induction false} NoLineIssues(issues: seq<Issue>)
    requires forall i :: 0 <= i < |issues| ==> issues[i].line.None?
    ensures OfLines(issues) == []
  {
    if issues != [] {
      NoLineIssues(issues[..|issues| - 1]);
    }
  }

  datatype Status = Succeeded | Partial

  /** `_Counters`. */
  class Counters {
    var read: nat
    var imported: nat
    var duplicate: nat
    var rejected: nat
    /** Sessions stored by another run, already counted once for this one. */
    var duplicateSessions: set<SessionKey>

    constructor ()
      ensures ToReport() == Report(0, 0, 0, 0) && duplicateSessions == {}
    {
      read, imported, duplicate, rejected, duplicateSessions := 0, 0, 0, 0, {};
    }

    function ToReport(): Report
      reads this
    {
      Report(read, imported, duplicate, rejected)
    }

    function RunStatus(): Status
      reads this
    {
      if rejected > 0 then Partial else Succeeded
    }

    /** What the three inserts of a batch did. */
    method AddOutcomes(sessions: Outcome<SessionKey>, models: Outcome<CallKey>, tools: Outcome<CallKey>)
      returns (duplicates: nat)
      requires forall id :: id in sessions.duplicates ==> id in sessions.found
      modifies this`imported, this`duplicate, this`duplicateSessions
      ensures imported == old(imported) + |sessions.written| + |models.written| + |tools.written|
      ensures var named := KeysNamed(sessions.duplicates, sessions.found);
              && duplicateSessions == old(duplicateSessions) + named
              && duplicates == |named - old(duplicateSessions)| + |models.duplicates| + |tools.duplicates|
      ensures duplicate == old(duplicate) + duplicates
    {
      hide *;
      imported := imported + |sessions.written| + |models.written| + |tools.written|;
      var named := KeysNamed(sessions.duplicates, sessions.found);
      var unseen := named - duplicateSessions;
      assert duplicateSessions + unseen == duplicateSessions + named;
      duplicateSessions := duplicateSessions + unseen;
      duplicates := |unseen| + |models.duplicates| + |tools.duplicates|;
      duplicate := duplicate + duplicates;
    }

    /** What the issues of a batch and its inserts add to the counters. */
    method AddBatch(found: seq<Issue>, sessions: Outcome<SessionKey>, models: Outcome<CallKey>, tools: Outcome<CallKey>)
      returns (issues: seq<Issue>)
      requires forall id :: id in sessions.duplicates ==> id in sessions.found
      modifies this`imported, this`duplicate, this`duplicateSessions, this`rejected
      ensures imported == old(imported) + |sessions.written| + |models.written| + |tools.written|
      ensures var named := KeysNamed(sessions.duplicates, sessions.found);
              && duplicateSessions == old(duplicateSessions) + named
              && duplicate == old(duplicate) + |named - old(duplicateSessions)| + |models.duplicates| + |tools.duplicates|
      ensures rejected == old(rejected) + |RejectedSet(found)|
      ensures issues == found + Announcements(duplicate - old(duplicate), |models.unlinked| + |tools.unlinked|)
      ensures OfLines(issues) == OfLines(found)
      ensures OnlyRepeats(found) && models.unlinked == [] && tools.unlinked == [] ==> OnlyRepeats(issues)
      ensures Announced(issues) == Announced(found) + (duplicate - old(duplicate))
    {
      hide *;
      var duplicates := AddOutcomes(sessions, models, tools);
      var unlinked := |models.unlinked| + |tools.unlinked|;
      issues := found + Announcements(duplicates, unlinked);
      AnnouncementsNameNoLine(found, duplicates, unlinked);
      RepeatsAnnounced(duplicates, unlinked);
      AnnouncedConcat(found, Announcements(duplicates, unlinked));
      if OnlyRepeats(found) && unlinked == 0 {
        OnlyRepeatsConcat(found, Announcements(duplicates, 0));
      }
      rejected := rejected + |RejectedSet(issues)|;
    }
  }

  // ------------------------------------------------------------------ a batch

  /** What stays fixed for the whole run. */
  datatype Context = Context(mapping: Mapping, source: int, run: nat)

  /** Where in a batch's transaction an exception may stop the run. */
  datatype Step = Reading | AfterReferences | AfterRows | BeforeCommit

  /** The inserts of one batch, seen from the store it started on. */
  lemma BatchFacts(db: Db, run: nat, start: nat, batch: seq<Value>, results: seq<NormResult>)
    requires |batch| == |results| && Clean(results, start)
    ensures var refs := ResolveAll(db.refs, Requests(results));
            var sessions := BatchSessions(db.raw, run, start, results, refs);
            var models, tools := BatchModels(db.raw, run, start, results, refs), BatchTools(db.raw, run, start, results, refs);
            var ids := Found(db.sessions, sessions) + Written(db.sessions, sessions);
            && Linked(models, ids) == LinkedModels(db.raw, run, start, results, refs) && Unlinked(models, ids) == []
            && Linked(tools, ids) == LinkedTools(db.raw, run, start, results, refs) && Unlinked(tools, ids) == []
            && ImportLines(db, run, start, batch, results)
               == Db(InsertAll(db.raw, RawRows(run, start, batch)), InsertAll(db.sessions, sessions),
                     InsertAll(db.modelCalls, Linked(models, ids)), InsertAll(db.toolCalls, Linked(tools, ids)), refs)
  {
    hide ImportLines, RawRows, BatchSessions, BatchModels, BatchTools, LinkedModels, LinkedTools, Linked, Unlinked,
         InsertAll, ResolveAll, Requests, Clean, Parented, Found, Written;
    BatchIsLines(db, run, start, batch, results);
    var refs := ResolveAll(db.refs, Requests(results));
    var sessions := BatchSessions(db.raw, run, start, results, refs);
    BatchParented(db, run, start, results, refs);
    BatchLinks(db.raw, run, start, results, refs, Found(db.sessions, sessions) + Written(db.sessions, sessions));
  }

  lemma ReadAndRejected(db: Db, run: nat, start: nat, batch: seq<Value>, results: seq<NormResult>)
    requires |batch| == |results|
    ensures var report := ReportOf(db, run, start, batch, results);
            report.read == |batch| && report.rejected == RejectedLines(results)
  {
  }

  /** The three `add_many` of a batch, in the transaction in progress. */
  method WriteRows(unit: UnitOfWork, sessions: seq<Row<SessionKey, SessionFact>>, models: seq<CallRow<ModelFact>>,
                   tools: seq<CallRow<ToolFact>>)
    returns (sessionOutcome: Outcome<SessionKey>, modelOutcome: Outcome<CallKey>, toolOutcome: Outcome<CallKey>)
    modifies unit`work
    ensures var db, ids := old(unit.work), Found(old(unit.work).sessions, sessions) + Written(old(unit.work).sessions, sessions);
            var linkedModels, linkedTools := Linked(models, ids), Linked(tools, ids);
            && unit.work == Db(db.raw, InsertAll(db.sessions, sessions), InsertAll(db.modelCalls, linkedModels),
                               InsertAll(db.toolCalls, linkedTools), db.refs)
            && sessionOutcome == Outcome(Written(db.sessions, sessions), Found(db.sessions, sessions), SessionDuplicates(db.sessions, sessions), [])
            && modelOutcome == Outcome(Written(db.modelCalls, linkedModels), Found(db.modelCalls, linkedModels),
                                       CallDuplicates(db.modelCalls, linkedModels), Unlinked(models, ids))
            && toolOutcome == Outcome(Written(db.toolCalls, linkedTools), Found(db.toolCalls, linkedTools),
                                      CallDuplicates(db.toolCalls, linkedTools), Unlinked(tools, ids))
  {
    hide *;
    var sessionTable, modelTable, toolTable;
    sessionTable, sessionOutcome := AddSessions(unit.work.sessions, sessions);
    var ids := sessionOutcome.found + sessionOutcome.written;
    modelTable, modelOutcome := AddCalls(unit.work.modelCalls, models, ids);
    toolTable, toolOutcome := AddCalls(unit.work.toolCalls, tools, ids);
    unit.work := unit.work.(sessions := sessionTable, modelCalls := modelTable, toolCalls := toolTable);
  }

  /** The first half of a batch: its raw records, its results, its references,
      and the rows it will write. */
  method StageBatch(rt: Runtime, unit: UnitOfWork, context: Context, batch: seq<Value>, start: nat, resolver: Resolver)
    returns (ghost results: seq<NormResult>, sessions: seq<Row<SessionKey, SessionFact>>, models: seq<CallRow<ModelFact>>,
             tools: seq<CallRow<ToolFact>>, issues: seq<Issue>)
    requires resolver.unit == unit && resolver.Valid() && Agrees(resolver.cache, unit.work.refs)
    requires KnownTargets(context.mapping)
    modifies unit`work, resolver
    ensures resolver.Valid() && old(resolver.queries) <= resolver.queries && Agrees(resolver.cache, unit.work.refs)
    ensures results == ResultsOf(rt, context.mapping, context.source, start, batch) && Clean(results, start)
    ensures forall key :: key in resolver.cache <==> key in old(resolver.cache) || key in Requests(results)
    ensures var db, run := old(unit.work), context.run;
            var refs := ResolveAll(db.refs, Requests(results));
            && unit.work == db.(raw := InsertAll(db.raw, RawRows(run, start, batch)), refs := refs)
            && sessions == BatchSessions(db.raw, run, start, results, refs)
            && models == BatchModels(db.raw, run, start, results, refs)
            && tools == BatchTools(db.raw, run, start, results, refs)
            && issues == IssuesOf(results)
  {
    hide *;
    ghost var db := unit.work;
    var raw, stored := AddRecords(unit.work.raw, context.run, start, batch);
    unit.work := unit.work.(raw := raw);
    var normalised, found, pending := NormaliseBatch(rt, context.mapping, context.source, batch, start);
    results := normalised;
    ResultsClean(rt, context.mapping, context.source, start, batch);
    var resolved := resolver.Execute(pending);
    var unresolved;
    sessions, models, tools, unresolved :=
      CollectRows(context.run, start, normalised, stored, resolved);
    LotsResolved(resolved, results, ResolveAll(db.refs, pending), db.raw, context.run, start, stored, |results|);
    assert results[..|results|] == results;
    issues := found + unresolved;
  }

  /** `_import_batch`: one transaction, which leaves all its lines or nothing.
      `stop` is the exception, if any, that the database or the process raises. */
  method ImportBatch(rt: Runtime, unit: UnitOfWork, context: Context, batch: seq<Value>, start: nat,
                     counters: Counters, resolver: Resolver, stop: Option<Step>)
    returns (issues: Option<seq<Issue>>)
    requires resolver.unit == unit && resolver.Valid() && Agrees(resolver.cache, unit.store.refs)
    requires KnownTargets(context.mapping)
    modifies unit, counters, resolver
    ensures resolver.Valid() && old(resolver.queries) <= resolver.queries
    ensures issues.Some? <==> stop.None?
    ensures stop.Some? ==> unit.store == old(unit.store)
    ensures stop.None? ==>
              var db, results := old(unit.store), ResultsOf(rt, context.mapping, context.source, start, batch);
              var report, repeated := ReportOf(db, context.run, start, batch, results), RepeatedSessions(db, context.run, start, results);
              && unit.store == ImportLines(db, context.run, start, batch, results)
              && Agrees(resolver.cache, unit.store.refs)
              && (forall key :: key in resolver.cache <==> key in old(resolver.cache) || key in Requests(results))
              && counters.duplicateSessions == old(counters.duplicateSessions) + repeated
              && counters.read == old(counters.read) + report.read
              && counters.imported == old(counters.imported) + report.imported
              && counters.duplicate == old(counters.duplicate) + report.duplicate - |repeated| + |repeated - old(counters.duplicateSessions)|
              && counters.rejected == old(counters.rejected) + report.rejected
              && OfLines(issues.value) == IssuesOf(results) && OnlyRepeats(issues.value)
              && Announced(issues.value) == counters.duplicate - old(counters.duplicate)
  {
    hide *;
    ghost var db, run := unit.store, context.run;
    counters.read := counters.read + |batch|;
    if stop.Some? && stop.value.Reading? {
      return None;
    }
    unit.Enter();
    var results, sessions, models, tools, found := StageBatch(rt, unit, context, batch, start, resolver);
    if stop.Some? && stop.value.AfterReferences? {
      unit.Exit();
      return None;
    }
    BatchFacts(db, run, start, batch, results);
    BatchCounts(db, run, start, batch, results);
    ReadAndRejected(db, run, start, batch, results);
    RejectedLineCount(results, start);
    var sessionOutcome, modelOutcome, toolOutcome := WriteRows(unit, sessions, models, tools);
    if stop.Some? && stop.value.AfterRows? {
      unit.Exit();
      return None;
    }

    LinesAreNamed(results, start);
    LinesAnnounceNothing(found);
    var all := counters.AddBatch(found, sessionOutcome, modelOutcome, toolOutcome);
    if stop.Some? {
      unit.Exit();
      return None;
    }
    unit.Commit();
    unit.Exit();
    return Some(all);
  }

  // -------------------------------------------------------------------- a run

  /** What the first transaction reads: the run, its mapping and its file. */
  datatype Lookup = Lookup(source: int, mapping: Option<Mapping>, records: Option<seq<Value>>)

  datatype Refusal = RunNotFound | MappingNotFound | FileNotFound | MappingInvalid | ValidatorRaised | BadBatchSize | Stopped

  /** The exception that stops a run: in which batch, and where in it. */
  datatype Interruption = Interruption(batch: nat, step: Step)

  datatype Summary = Summary(report: Report, status: Status, issues: seq<Issue>)

  /** The first `n` records are imported, and accounted for. */
  predicate Upto(rt: Runtime, context: Context, db: Db, store: Db, records: seq<Value>, n: nat,
                 report: Report, repeated: set<SessionKey>, issues: seq<Issue>)
    requires n <= |records|
  {
    var results := ResultsOf(rt, context.mapping, context.source, 1, records[..n]);
    && store == ImportLines(db, context.run, 1, records[..n], results)
    && report == ReportOf(db, context.run, 1, records[..n], results)
    && repeated == RepeatedSessions(db, context.run, 1, results)
    && OfLines(issues) == IssuesOf(results) && OnlyRepeats(issues) && Announced(issues) == report.duplicate
  }

  lemma UptoStart(rt: Runtime, context: Context, db: Db, records: seq<Value>)
    ensures Upto(rt, context, db, db, records, 0, Report(0, 0, 0, 0), {}, [])
  {
    assert records[..0] == [];
  }

  lemma UptoStep(rt: Runtime, context: Context, db: Db, store: Db, records: seq<Value>, n: nat, m: nat,
                 report: Report, repeated: set<SessionKey>, issues: seq<Issue>, more: seq<Issue>)
    requires n <= m <= |records| && KnownTargets(context.mapping)
    requires Upto(rt, context, db, store, records, n, report, repeated, issues)
    requires OfLines(more) == IssuesOf(ResultsOf(rt, context.mapping, context.source, n + 1, records[n..m])) && OnlyRepeats(more)
    requires var results := ResultsOf(rt, context.mapping, context.source, n + 1, records[n..m]);
             var again := RepeatedSessions(store, context.run, n + 1, results);
             Announced(more) == ReportOf(store, context.run, n + 1, records[n..m], results).duplicate - |again| + |again - repeated|
    ensures var results := ResultsOf(rt, context.mapping, context.source, n + 1, records[n..m]);
            var added, again := ReportOf(store, context.run, n + 1, records[n..m], results), RepeatedSessions(store, context.run, n + 1, results);
            && Upto(rt, context, db, ImportLines(store, context.run, n + 1, records[n..m], results), records, m,
                    Report(report.read + added.read, report.imported + added.imported,
                           report.duplicate + added.duplicate - |again| + |again - repeated|, report.rejected + added.rejected),
                    repeated + again, issues + more)
  {
    hide ImportLines, ReportOf, RepeatedSessions, ResultsOf, IssuesOf, OfLines, OnlyRepeats, Announced, Clean, KnownTargets;
    var a := ResultsOf(rt, context.mapping, context.source, 1, records[..n]);
    var b := ResultsOf(rt, context.mapping, context.source, n + 1, records[n..m]);
    assert records[..m] == records[..n] + records[n..m];
    ResultsConcat(rt, context.mapping, context.source, 1, records[..n], records[n..m]);
    ResultsClean(rt, context.mapping, context.source, 1, records[..n]);
    ResultsClean(rt, context.mapping, context.source, n + 1, records[n..m]);
    ImportConcat(db, context.run, 1, records[..n], a, records[n..m], b);
    ReportStep(db, context.run, 1, records[..n], a, records[n..m], b);
    IssuesConcat(a, b);
    OfLinesConcat(issues, more);
    OnlyRepeatsConcat(issues, more);
    AnnouncedConcat(issues, more);
  }

  lemma UptoMeans(rt: Runtime, context: Context, db: Db, store: Db, records: seq<Value>, n: nat,
                  report: Report, repeated: set<SessionKey>, issues: seq<Issue>)
    requires n <= |records| && Upto(rt, context, db, store, records, n, report, repeated, issues)
    ensures var results := ResultsOf(rt, context.mapping, context.source, 1, records[..n]);
            && store == ImportLines(db, context.run, 1, records[..n], results)
            && report == ReportOf(db, context.run, 1, records[..n], results)
            && report.rejected == RejectedLines(results)
            && OfLines(issues) == IssuesOf(results) && OnlyRepeats(issues) && Announced(issues) == report.duplicate
  {
    hide Announced, ResultsOf, ImportLines, RepeatedSessions, IssuesOf, OfLines, OnlyRepeats, RejectedLines, FreshCalls;
  }

  lemma {:induction false} RequestsConcat(a: seq<NormResult>, b: seq<NormResult>)
    ensures Requests(a + b) == Requests(a) + Requests(b)
    decreases |b|
  {
    if b == [] {
      assert a + b == a;
    } else {
      assert (a + b)[..|a + b| - 1] == a + b[..|b| - 1];
      RequestsConcat(a, b[..|b| - 1]);
    }
  }

  /** The requests of one more batch. */
  lemma MoreRequests(rt: Runtime, context: Context, records: seq<Value>, n: nat, m: nat)
    requires n <= m <= |records|
    ensures var a := ResultsOf(rt, context.mapping, context.source, 1, records[..n]);
            var b := ResultsOf(rt, context.mapping, context.source, n + 1, records[n..m]);
            Requests(ResultsOf(rt, context.mapping, context.source, 1, records[..m])) == Requests(a) + Requests(b)
  {
    hide ResultsOf, Requests;
    assert records[..m] == records[..n] + records[n..m];
    ResultsConcat(rt, context.mapping, context.source, 1, records[..n], records[n..m]);
    RequestsConcat(ResultsOf(rt, context.mapping, context.source, 1, records[..n]),
                   ResultsOf(rt, context.mapping, context.source, n + 1, records[n..m]));
  }

  lemma OnceEach(queries: seq<Request>, cache: map<Request, nat>)
    requires AskedOnce(queries, cache)
    ensures forall i, j :: 0 <= i < j < |queries| ==> queries[i] != queries[j]
    ensures forall key :: key in queries <==> key in cache
  {
  }

  /** Records of the first `batches` batches. */
  function Committed(batches: nat, size: nat, records: nat): nat {
    if batches * size <= records then batches * size else records
  }

  lemma AcceptedTargets(rt: Runtime, mapping: Mapping)
    requires Validator.Valid(rt, mapping)
    ensures KnownTargets(mapping)
  {
    ValidatorLaws.ValidEntities(rt, mapping);
    forall e | 0 <= e < |mapping| ensures KnownTarget(mapping[e].target) {
      assert ValidatorLaws.EntitySound(rt, mapping[e]);
    }
  }

  /** `execute`. A run that ends leaves the fold of the file over the store it
      started from, and reports what `ReportOf` says of that fold: neither
      mentions the batch size. A run that stops leaves the fold of the records
      of the batches it committed. No reference is asked for twice. */
  method Execute(rt: Runtime, unit: UnitOfWork, run: nat, found: Option<Lookup>, size: int, stop: Option<Interruption>)
    returns (outcome: Result<Summary, Refusal>, ghost queries: seq<Request>)
    modifies unit
    ensures forall i, j :: 0 <= i < j < |queries| ==> queries[i] != queries[j]
    ensures outcome == Err(RunNotFound) <==> found.None?
    ensures outcome == Err(MappingNotFound) <==> found.Some? && found.value.mapping.None?
    ensures outcome == Err(FileNotFound) <==> found.Some? && found.value.mapping.Some? && found.value.records.None?
    ensures outcome.Err? && !outcome.error.Stopped? ==> unit.store == old(unit.store)
    ensures found.Some? && found.value.mapping.Some? && found.value.records.Some? ==>
              var mapping, source, records := found.value.mapping.value, found.value.source, found.value.records.value;
              var db, results := old(unit.store), ResultsOf(rt, mapping, source, 1, records);
              && (outcome == Err(ValidatorRaised) <==> Validator.Validated(rt, mapping).Raised?)
              && (outcome == Err(MappingInvalid) <==>
                    Validator.Validated(rt, mapping).Found? && Validator.Validated(rt, mapping).problems != [])
              && (outcome == Err(BadBatchSize) <==> Validator.Valid(rt, mapping) && size <= 0)
              && (outcome.Ok? ==>
                    && unit.store == ImportLines(db, run, 1, records, results)
                    && outcome.value.report == ReportOf(db, run, 1, records, results)
                    && (outcome.value.status.Partial? <==> RejectedLines(results) > 0)
                    && OfLines(outcome.value.issues) == IssuesOf(results) && OnlyRepeats(outcome.value.issues)
                    && Announced(outcome.value.issues) == outcome.value.report.duplicate
                    && (forall key :: key in queries <==> key in Requests(results)))
              && (outcome == Err(Stopped) ==>
                    && stop.Some? && size > 0
                    && var done := records[..Committed(stop.value.batch, size, |records|)];
                       unit.store == ImportLines(db, run, 1, done, ResultsOf(rt, mapping, source, 1, done)))
              && (stop.None? && Validator.Valid(rt, mapping) && size > 0 ==> outcome.Ok?)
  {
    queries := [];
    hide *;
    ghost var db := unit.store;
    if found.None? {
      return Err(RunNotFound), [];
    }
    if found.value.mapping.None? {
      return Err(MappingNotFound), [];
    }
    if found.value.records.None? {
      return Err(FileNotFound), [];
    }
    var mapping, records := found.value.mapping.value, found.value.records.value;
    var checked := Validator.Validate(rt, mapping);
    IsValid(rt, mapping);
    if checked.Raised? {
      return Err(ValidatorRaised), [];
    }
    if checked.problems != [] {
      return Err(MappingInvalid), [];
    }
    if size <= 0 {
      return Err(BadBatchSize), [];
    }
    AcceptedTargets(rt, mapping);
    outcome, queries := ImportFile(rt, unit, Context(mapping, found.value.source, run), records, size, stop);
  }

  lemma IsValid(rt: Runtime, mapping: Mapping)
    ensures Validator.Valid(rt, mapping) <==> Validator.Validated(rt, mapping) == Validator.Found([])
  {
    hide Validator.Validated;
  }

  lemma NothingYet(rt: Runtime, context: Context, records: seq<Value>, size: nat, refs: Referentials)
    ensures Agrees(map[], refs)
    ensures Requests(ResultsOf(rt, context.mapping, context.source, 1, records[..0])) == []
    ensures Committed(0, size, |records|) == 0
  {
  }

  lemma NextBatch(batches: nat, size: nat, records: nat)
    requires Committed(batches, size, records) < records
    ensures var line := Committed(batches, size, records);
            Committed(batches + 1, size, records) == if line + size <= records then line + size else records
  {
    assert (batches + 1) * size == batches * size + size;
  }

  /** The batch loop of `execute`, and the transaction that saves the report. */
  method ImportFile(rt: Runtime, unit: UnitOfWork, context: Context, records: seq<Value>, size: nat, stop: Option<Interruption>)
    returns (outcome: Result<Summary, Refusal>, ghost queries: seq<Request>)
    requires size > 0 && KnownTargets(context.mapping)
    modifies unit
    ensures forall i, j :: 0 <= i < j < |queries| ==> queries[i] != queries[j]
    ensures outcome.Err? ==> outcome.error.Stopped? && stop.Some?
    ensures outcome.Err? ==>
              var done := records[..Committed(stop.value.batch, size, |records|)];
              unit.store == ImportLines(old(unit.store), context.run, 1, done, ResultsOf(rt, context.mapping, context.source, 1, done))
    ensures outcome.Ok? ==>
              var db, results := old(unit.store), ResultsOf(rt, context.mapping, context.source, 1, records);
              && unit.store == ImportLines(db, context.run, 1, records, results)
              && outcome.value.report == ReportOf(db, context.run, 1, records, results)
              && (outcome.value.status.Partial? <==> RejectedLines(results) > 0)
              && OfLines(outcome.value.issues) == IssuesOf(results) && OnlyRepeats(outcome.value.issues)
              && Announced(outcome.value.issues) == outcome.value.report.duplicate
              && (forall key :: key in queries <==> key in Requests(results))
  {
    hide Upto, Agrees, AskedOnce, ImportLines, ReportOf, RepeatedSessions, ResultsOf, IssuesOf, OfLines, OnlyRepeats, Announced, Requests,
         RejectedLines, KnownTargets, Committed;
    ghost var db := unit.store;
    var counters := new Counters();
    var resolver := new Resolver(unit);
    var issues: seq<Issue> := [];
    var line, batches := 0, 0;
    UptoStart(rt, context, db, records);
    NothingYet(rt, context, records, size, db.refs);
    while line < |records|
      invariant line <= |records|
      invariant line == Committed(batches, size, |records|)
      invariant fresh(counters) && fresh(resolver) && resolver.unit == unit && resolver.Valid()
      invariant Agrees(resolver.cache, unit.store.refs)
      invariant Upto(rt, context, db, unit.store, records, line, counters.ToReport(), counters.duplicateSessions, issues)
      invariant forall key :: key in resolver.cache <==>
                  key in Requests(ResultsOf(rt, context.mapping, context.source, 1, records[..line]))
      decreases |records| - line
    {
      var end := if line + size <= |records| then line + size else |records|;
      var step := if stop.Some? && stop.value.batch == batches then Some(stop.value.step) else None;
      var before := counters.ToReport();
      ghost var store, repeated := unit.store, counters.duplicateSessions;
      var batchIssues := ImportBatch(rt, unit, context, records[line..end], line + 1, counters, resolver, step);
      if batchIssues.None? {
        UptoMeans(rt, context, db, store, records, line, before, repeated, issues);
        OnceEach(resolver.queries, resolver.cache);
        return Err(Stopped), resolver.queries;
      }
      NextBatch(batches, size, |records|);
      MoreRequests(rt, context, records, line, end);
      UptoStep(rt, context, db, store, records, line, end, before, repeated, issues, batchIssues.value);
      issues := issues + batchIssues.value;
      line, batches := end, batches + 1;
    }
    assert records[..|records|] == records;
    OnceEach(resolver.queries, resolver.cache);
    UptoMeans(rt, context, db, unit.store, records, line, counters.ToReport(), counters.duplicateSessions, issues);
    if stop.Some? && stop.value.batch == batches {
      return Err(Stopped), resolver.queries;
    }
    unit.Enter();
    unit.Commit();
    unit.Exit();
    return Ok(Summary(counters.ToReport(), counters.RunStatus(), issues)), resolver.queries;
  }
}
