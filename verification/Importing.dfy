/**
 What an import run does to the store, said line by line: a fold over the file
 in order, where the first record to use a natural key wins, and a line the run
 has already stored is skipped. The batched import of `RunImport` is proved
 against this fold.
 */
module Importing {
  import opened Values
  import opened Mappings
  import opened Normalizer
  import opened NormalizerLaws
  import opened Accounting
  import opened References
  import opened Store

  // ------------------------------------------------------- rows of a record

  /** The id a key resolves to, None without a name. */
  function IdOf(refs: Referentials, key: Option<Request>): Option<nat> {
    if key.Some? && RowOf(key.value) in refs then Some(refs[RowOf(key.value)]) else None
  }

  function SessionKeyOf(session: Session): SessionKey {
    SessionKey(session.source, session.externalId)
  }

  function SessionRow(s: Session, raw: RawKey, refs: Referentials): Row<SessionKey, SessionFact> {
    Row(s.id, SessionKeyOf(s), SessionFact(raw.run, raw, IdOf(refs, AgentKey(s)), s.columns))
  }

  function ModelRow(c: ModelCall, raw: RawKey, refs: Referentials): CallRow<ModelFact> {
    CallRow(c.id, c.session, c.index, ModelFact(raw, IdOf(refs, ModelKey(c)), c.status, c.columns))
  }

  function ToolRow(c: ToolCall, raw: RawKey, tool: nat): CallRow<ToolFact> {
    CallRow(c.id, c.session, c.index, ToolFact(raw, tool, c.status, c.columns))
  }

  function ToolId(refs: Referentials, c: ToolCall): nat {
    var id := IdOf(refs, ToolKey(c));
    if id.Some? then id.value else 0
  }

  function SessionRows(sessions: seq<Session>, raw: RawKey, refs: Referentials): seq<Row<SessionKey, SessionFact>> {
    if sessions == [] then []
    else SessionRows(sessions[..|sessions| - 1], raw, refs) + [SessionRow(sessions[|sessions| - 1], raw, refs)]
  }

  function ModelRows(calls: seq<ModelCall>, raw: RawKey, refs: Referentials): seq<CallRow<ModelFact>> {
    if calls == [] then []
    else ModelRows(calls[..|calls| - 1], raw, refs) + [ModelRow(calls[|calls| - 1], raw, refs)]
  }

  function ToolRows(calls: seq<ToolCall>, raw: RawKey, refs: Referentials): seq<CallRow<ToolFact>> {
    if calls == [] then []
    else ToolRows(calls[..|calls| - 1], raw, refs) + [ToolRow(calls[|calls| - 1], raw, ToolId(refs, calls[|calls| - 1]))]
  }

  /** The parent of a record's calls, by its tag. */
  function Parents(r: NormResult): map<Tag, SessionKey> {
    if r.sessions == [] then map[] else map[r.sessions[0].id := SessionKeyOf(r.sessions[0])]
  }

  // ---------------------------------------------------------------- the fold

  function ImportLine(db: Db, run: nat, line: nat, record: Value, r: NormResult): Db {
    var raw := RawKey(run, line);
    var refs := ResolveAll(db.refs, r.requests);
    if raw in db.raw then db.(refs := refs)
    else
      Db(db.raw[raw := record],
         InsertAll(db.sessions, SessionRows(r.sessions, raw, refs)),
         InsertAll(db.modelCalls, Linked(ModelRows(r.modelCalls, raw, refs), Parents(r))),
         InsertAll(db.toolCalls, Linked(ToolRows(r.toolCalls, raw, refs), Parents(r))),
         refs)
  }

  function ImportLines(db: Db, run: nat, start: nat, records: seq<Value>, results: seq<NormResult>): Db
    requires |records| == |results|
  {
    if results == [] then db
    else
      var n := |results| - 1;
      ImportLine(ImportLines(db, run, start, records[..n], results[..n]), run, start + n, records[n], results[n])
  }

  lemma {:induction false} ImportConcat(db: Db, run: nat, start: nat, recordsA: seq<Value>, a: seq<NormResult>,
                                        recordsB: seq<Value>, b: seq<NormResult>)
    requires |recordsA| == |a| && |recordsB| == |b|
    ensures ImportLines(db, run, start, recordsA + recordsB, a + b)
         == ImportLines(ImportLines(db, run, start, recordsA, a), run, start + |a|, recordsB, b)
    decreases |b|
  {
    hide ImportLine;
    if b == [] {
      assert a + b == a && recordsA + recordsB == recordsA;
    } else {
      var n := |b| - 1;
      assert (a + b)[..|a| + n] == a + b[..n] && (recordsA + recordsB)[..|a| + n] == recordsA + recordsB[..n];
      ImportConcat(db, run, start, recordsA, a, recordsB[..n], b[..n]);
    }
  }

  // ------------------------------------------------------------ normalising

  function ResultOf(rt: Runtime, mapping: Mapping, source: int, line: nat, record: Value): NormResult {
    NoEscape(rt, mapping, record, source, Some(line));
    Normalized(rt, mapping, record, source, Some(line)).value
  }

  /** The normaliser's result for each record, the line of the first being `start`. */
  function ResultsOf(rt: Runtime, mapping: Mapping, source: int, start: nat, records: seq<Value>): (results: seq<NormResult>)
    ensures |results| == |records|
  {
    if records == [] then []
    else
      var n := |records| - 1;
      ResultsOf(rt, mapping, source, start, records[..n]) + [ResultOf(rt, mapping, source, start + n, records[n])]
  }

  lemma {:induction false} ResultsConcat(rt: Runtime, mapping: Mapping, source: int, start: nat, a: seq<Value>, b: seq<Value>)
    ensures ResultsOf(rt, mapping, source, start, a + b)
         == ResultsOf(rt, mapping, source, start, a) + ResultsOf(rt, mapping, source, start + |a|, b)
    decreases |b|
  {
    hide ResultOf;
    if b == [] {
      assert a + b == a;
    } else {
      var n := |b| - 1;
      assert (a + b)[..|a| + n] == a + b[..n];
      ResultsConcat(rt, mapping, source, start, a, b[..n]);
    }
  }

  /** What the normaliser guarantees of a result: it is closed, and its issues
      name its line. */
  predicate CleanAt(r: NormResult, line: nat) {
    Closed(r, Some(line)) && AllAt(r.issues, Some(line))
  }

  predicate Clean(results: seq<NormResult>, start: nat) {
    forall i :: 0 <= i < |results| ==> CleanAt(results[i], start + i)
  }

  lemma ResultIsClean(rt: Runtime, mapping: Mapping, source: int, line: nat, record: Value)
    requires KnownTargets(mapping)
    ensures CleanAt(ResultOf(rt, mapping, source, line, record), line)
  {
    NoEscape(rt, mapping, record, source, Some(line));
    RowsCounted(rt, mapping, record, source, Some(line));
    Closure(rt, mapping, Engine.MappingApplied(rt, mapping, record, Some(line)), source, Some(line));
    hide Closed, AllAt, KnownTargets, Assembled, Reached;
  }

  lemma {:induction false} ResultsClean(rt: Runtime, mapping: Mapping, source: int, start: nat, records: seq<Value>)
    requires KnownTargets(mapping)
    ensures Clean(ResultsOf(rt, mapping, source, start, records), start)
  {
    hide CleanAt, KnownTargets, ResultOf;
    if records != [] {
      var n := |records| - 1;
      ResultsClean(rt, mapping, source, start, records[..n]);
      ResultIsClean(rt, mapping, source, start + n, records[n]);
    }
  }

  // -------------------------------------------------------- a batch at once

  predicate Fresh(raw: map<RawKey, Value>, run: nat, line: nat) {
    RawKey(run, line) !in raw
  }

  function RawRows(run: nat, start: nat, records: seq<Value>): seq<Row<RawKey, Value>> {
    if records == [] then []
    else
      var n := |records| - 1;
      RawRows(run, start, records[..n]) + [Row(Tag(Some(start + n), "raw", 0), RawKey(run, start + n), records[n])]
  }

  function Requests(results: seq<NormResult>): seq<Request> {
    if results == [] then [] else Requests(results[..|results| - 1]) + results[|results| - 1].requests
  }

  /** The rows of the lines of a batch that `raw` does not hold yet, in order. */
  function BatchSessions(raw: map<RawKey, Value>, run: nat, start: nat, results: seq<NormResult>, refs: Referentials)
    : seq<Row<SessionKey, SessionFact>>
  {
    if results == [] then []
    else
      var n := |results| - 1;
      BatchSessions(raw, run, start, results[..n], refs) +
      (if Fresh(raw, run, start + n) then SessionRows(results[n].sessions, RawKey(run, start + n), refs) else [])
  }

  function BatchModels(raw: map<RawKey, Value>, run: nat, start: nat, results: seq<NormResult>, refs: Referentials)
    : seq<CallRow<ModelFact>>
  {
    if results == [] then []
    else
      var n := |results| - 1;
      BatchModels(raw, run, start, results[..n], refs) +
      (if Fresh(raw, run, start + n) then ModelRows(results[n].modelCalls, RawKey(run, start + n), refs) else [])
  }

  function BatchTools(raw: map<RawKey, Value>, run: nat, start: nat, results: seq<NormResult>, refs: Referentials)
    : seq<CallRow<ToolFact>>
  {
    if results == [] then []
    else
      var n := |results| - 1;
      BatchTools(raw, run, start, results[..n], refs) +
      (if Fresh(raw, run, start + n) then ToolRows(results[n].toolCalls, RawKey(run, start + n), refs) else [])
  }

  /** The calls of those lines, each linked to the session of its own record. */
  function LinkedModels(raw: map<RawKey, Value>, run: nat, start: nat, results: seq<NormResult>, refs: Referentials)
    : seq<Row<CallKey, ModelFact>>
  {
    if results == [] then []
    else
      var n := |results| - 1;
      LinkedModels(raw, run, start, results[..n], refs) +
      (if Fresh(raw, run, start + n)
       then Linked(ModelRows(results[n].modelCalls, RawKey(run, start + n), refs), Parents(results[n])) else [])
  }

  function LinkedTools(raw: map<RawKey, Value>, run: nat, start: nat, results: seq<NormResult>, refs: Referentials)
    : seq<Row<CallKey, ToolFact>>
  {
    if results == [] then []
    else
      var n := |results| - 1;
      LinkedTools(raw, run, start, results[..n], refs) +
      (if Fresh(raw, run, start + n)
       then Linked(ToolRows(results[n].toolCalls, RawKey(run, start + n), refs), Parents(results[n])) else [])
  }

  /** The store after a batch, every table written once. */
  function BatchDb(db: Db, run: nat, start: nat, records: seq<Value>, results: seq<NormResult>): Db {
    var refs := ResolveAll(db.refs, Requests(results));
    Db(InsertAll(db.raw, RawRows(run, start, records)),
       InsertAll(db.sessions, BatchSessions(db.raw, run, start, results, refs)),
       InsertAll(db.modelCalls, LinkedModels(db.raw, run, start, results, refs)),
       InsertAll(db.toolCalls, LinkedTools(db.raw, run, start, results, refs)),
       refs)
  }

  // --------------------------------------------- a batch is its lines in turn

  lemma RawRowKeys(run: nat, start: nat, records: seq<Value>)
    ensures forall key :: key in KeysOf(RawRows(run, start, records))
              <==> key.run == run && start <= key.line < start + |records|
  {
    if records != [] {
      var n := |records| - 1;
      RawRowKeys(run, start, records[..n]);
      assert RawRows(run, start, records)[..n] == RawRows(run, start, records[..n]) by {
        RawRowCount(run, start, records[..n]);
      }
      RawRowCount(run, start, records);
    }
  }

  lemma RawRowCount(run: nat, start: nat, records: seq<Value>)
    ensures |RawRows(run, start, records)| == |records|
  {
  }

  /** Ids a larger referential table gives the names of one record. */
  lemma SameId(refs: Referentials, more: Referentials, requests: seq<Request>, key: Option<Request>)
    requires AllKnown(refs, requests) && Extends(refs, more) && Asked(key, requests)
    ensures IdOf(more, key) == IdOf(refs, key)
    ensures key.Some? ==> IdOf(refs, key).Some?
  {
    if key.Some? {
      var i :| 0 <= i < |requests| && requests[i] == key.value;
      assert Known(refs, requests[i]);
    }
  }

  lemma SameSessionRows(sessions: seq<Session>, raw: RawKey, refs: Referentials, more: Referentials, requests: seq<Request>)
    requires AllKnown(refs, requests) && Extends(refs, more)
    requires forall i :: 0 <= i < |sessions| ==> Asked(AgentKey(sessions[i]), requests)
    ensures SessionRows(sessions, raw, more) == SessionRows(sessions, raw, refs)
  {
    hide AgentKey, AllKnown, Extends, Asked, IdOf;
    if sessions != [] {
      SameSessionRows(sessions[..|sessions| - 1], raw, refs, more, requests);
      SameId(refs, more, requests, AgentKey(sessions[|sessions| - 1]));
    }
  }

  lemma SameModelRows(calls: seq<ModelCall>, raw: RawKey, refs: Referentials, more: Referentials, requests: seq<Request>)
    requires AllKnown(refs, requests) && Extends(refs, more)
    requires forall i :: 0 <= i < |calls| ==> Asked(ModelKey(calls[i]), requests)
    ensures ModelRows(calls, raw, more) == ModelRows(calls, raw, refs)
  {
    hide ModelKey, AllKnown, Extends, Asked, IdOf;
    if calls != [] {
      SameModelRows(calls[..|calls| - 1], raw, refs, more, requests);
      SameId(refs, more, requests, ModelKey(calls[|calls| - 1]));
    }
  }

  lemma SameToolRows(calls: seq<ToolCall>, raw: RawKey, refs: Referentials, more: Referentials, requests: seq<Request>)
    requires AllKnown(refs, requests) && Extends(refs, more)
    requires forall i :: 0 <= i < |calls| ==> Asked(ToolKey(calls[i]), requests)
    ensures ToolRows(calls, raw, more) == ToolRows(calls, raw, refs)
  {
    hide ToolKey, AllKnown, Extends, Asked, IdOf;
    if calls != [] {
      SameToolRows(calls[..|calls| - 1], raw, refs, more, requests);
      SameId(refs, more, requests, ToolKey(calls[|calls| - 1]));
    }
  }

  lemma CleanKeys(r: NormResult, line: nat)
    requires CleanAt(r, line)
    ensures forall i :: 0 <= i < |r.sessions| ==> Asked(AgentKey(r.sessions[i]), r.requests)
    ensures forall i :: 0 <= i < |r.modelCalls| ==> Asked(ModelKey(r.modelCalls[i]), r.requests)
    ensures forall i :: 0 <= i < |r.toolCalls| ==> Asked(ToolKey(r.toolCalls[i]), r.requests)
  {
    hide AgentKey, ModelKey, ToolKey, Asked, AllAt;
  }

  /** The tables `ImportLine` writes, with ids read from a larger `more`. */
  lemma LineTables(db: Db, run: nat, line: nat, record: Value, r: NormResult, more: Referentials)
    requires CleanAt(r, line) && Extends(ResolveAll(db.refs, r.requests), more) && Fresh(db.raw, run, line)
    ensures var raw, after := RawKey(run, line), ImportLine(db, run, line, record, r);
            && after.sessions == InsertAll(db.sessions, SessionRows(r.sessions, raw, more))
            && after.modelCalls == InsertAll(db.modelCalls, Linked(ModelRows(r.modelCalls, raw, more), Parents(r)))
            && after.toolCalls == InsertAll(db.toolCalls, Linked(ToolRows(r.toolCalls, raw, more), Parents(r)))
  {
    CleanKeys(r, line);
    ResolveAllFacts(db.refs, r.requests);
    var refs, raw := ResolveAll(db.refs, r.requests), RawKey(run, line);
    hide CleanAt, Extends, ResolveAll, SessionRows, ModelRows, ToolRows, Linked, Parents, InsertAll, AllKnown, Asked;
    SameSessionRows(r.sessions, raw, refs, more, r.requests);
    SameModelRows(r.modelCalls, raw, refs, more, r.requests);
    SameToolRows(r.toolCalls, raw, refs, more, r.requests);
  }

  lemma LastLine(db: Db, run: nat, start: nat, records: seq<Value>, results: seq<NormResult>)
    requires |records| == |results| && results != []
    ensures var n := |results| - 1;
            ImportLines(db, run, start, records, results)
            == ImportLine(ImportLines(db, run, start, records[..n], results[..n]), run, start + n, records[n], results[n])
  {
    hide ImportLine;
  }

  lemma LineRaw(db: Db, run: nat, line: nat, record: Value, r: NormResult)
    ensures var after, raw := ImportLine(db, run, line, record, r), RawKey(run, line);
            && after.raw == (if raw in db.raw then db.raw else db.raw[raw := record])
            && after.refs == ResolveAll(db.refs, r.requests)
  {
    hide ResolveAll, SessionRows, ModelRows, ToolRows, Linked, Parents, InsertAll;
  }

  lemma LastRawRow(db: Db, run: nat, start: nat, records: seq<Value>)
    requires records != []
    ensures var n := |records| - 1;
            var before, raw := InsertAll(db.raw, RawRows(run, start, records[..n])), RawKey(run, start + n);
            InsertAll(db.raw, RawRows(run, start, records)) == if raw in before then before else before[raw := records[n]]
  {
    var n, rows := |records| - 1, RawRows(run, start, records);
    RawRowCount(run, start, records[..n]);
    assert rows[..n] == RawRows(run, start, records[..n]) && |rows| == n + 1;
  }

  lemma NoLines(db: Db, run: nat, start: nat, refs: Referentials)
    ensures ImportLines(db, run, start, [], []) == db
    ensures InsertAll(db.raw, RawRows(run, start, [])) == db.raw && ResolveAll(db.refs, Requests([])) == db.refs
    ensures Holds(db, db, run, start, [], refs)
  {
    hide ImportLine, SessionRows, ModelRows, ToolRows, ResolveOne;
  }

  lemma LastRequests(results: seq<NormResult>)
    requires results != []
    ensures Requests(results) == Requests(results[..|results| - 1]) + results[|results| - 1].requests
  {
  }

  lemma {:induction false} LinesRaw(db: Db, run: nat, start: nat, records: seq<Value>, results: seq<NormResult>)
    requires |records| == |results|
    ensures var after := ImportLines(db, run, start, records, results);
            && after.raw == InsertAll(db.raw, RawRows(run, start, records))
            && after.refs == ResolveAll(db.refs, Requests(results))
  {
    hide *;
    if results == [] {
      assert records == [];
      NoLines(db, run, start, map[]);
    } else {
      var n := |results| - 1;
      LastRequests(results);
      var before := ImportLines(db, run, start, records[..n], results[..n]);
      LinesRaw(db, run, start, records[..n], results[..n]);
      ResolveConcat(db.refs, Requests(results[..n]), results[n].requests);
      LastLine(db, run, start, records, results);
      LineRaw(before, run, start + n, records[n], results[n]);
      LastRawRow(db, run, start, records);
    }
  }

  /** A line is fresh in the middle of a batch exactly when it was at its start. */
  lemma StillFresh(db: Db, run: nat, start: nat, records: seq<Value>, results: seq<NormResult>, line: nat)
    requires |records| == |results| && line >= start + |records|
    ensures Fresh(ImportLines(db, run, start, records, results).raw, run, line) <==> Fresh(db.raw, run, line)
  {
    LinesRaw(db, run, start, records, results);
    InsertKeys(db.raw, RawRows(run, start, records));
    RawRowKeys(run, start, records);
    hide ImportLines, RawRows, InsertAll, KeysOf;
  }

  /** The fact tables of `after` are those of `db` with a batch's rows inserted. */
  predicate Holds(after: Db, db: Db, run: nat, start: nat, results: seq<NormResult>, refs: Referentials) {
    && after.sessions == InsertAll(db.sessions, BatchSessions(db.raw, run, start, results, refs))
    && after.modelCalls == InsertAll(db.modelCalls, LinkedModels(db.raw, run, start, results, refs))
    && after.toolCalls == InsertAll(db.toolCalls, LinkedTools(db.raw, run, start, results, refs))
  }

  lemma StaleStep(before: Db, db: Db, run: nat, start: nat, record: Value, results: seq<NormResult>, refs: Referentials)
    requires results != [] && Holds(before, db, run, start, results[..|results| - 1], refs)
    requires !Fresh(before.raw, run, start + |results| - 1) && !Fresh(db.raw, run, start + |results| - 1)
    ensures Holds(ImportLine(before, run, start + |results| - 1, record, results[|results| - 1]), db, run, start, results, refs)
  {
    hide ResolveAll, SessionRows, ModelRows, ToolRows, Linked, Parents, InsertAll;
    var n := |results| - 1;
    assert BatchSessions(db.raw, run, start, results, refs) == BatchSessions(db.raw, run, start, results[..n], refs);
    assert LinkedModels(db.raw, run, start, results, refs) == LinkedModels(db.raw, run, start, results[..n], refs);
    assert LinkedTools(db.raw, run, start, results, refs) == LinkedTools(db.raw, run, start, results[..n], refs);
  }

  lemma FreshRows(db: Db, run: nat, start: nat, results: seq<NormResult>, refs: Referentials)
    requires results != [] && Fresh(db.raw, run, start + |results| - 1)
    ensures var n := |results| - 1;
            var r, raw := results[n], RawKey(run, start + n);
            && BatchSessions(db.raw, run, start, results, refs)
               == BatchSessions(db.raw, run, start, results[..n], refs) + SessionRows(r.sessions, raw, refs)
            && LinkedModels(db.raw, run, start, results, refs)
               == LinkedModels(db.raw, run, start, results[..n], refs) + Linked(ModelRows(r.modelCalls, raw, refs), Parents(r))
            && LinkedTools(db.raw, run, start, results, refs)
               == LinkedTools(db.raw, run, start, results[..n], refs) + Linked(ToolRows(r.toolCalls, raw, refs), Parents(r))
  {
    hide SessionRows, ModelRows, ToolRows, Linked, Parents;
  }

  lemma FreshStep(before: Db, db: Db, run: nat, start: nat, record: Value, results: seq<NormResult>, refs: Referentials)
    requires results != [] && Holds(before, db, run, start, results[..|results| - 1], refs)
    requires Fresh(before.raw, run, start + |results| - 1) && Fresh(db.raw, run, start + |results| - 1)
    requires CleanAt(results[|results| - 1], start + |results| - 1)
    requires Extends(ResolveAll(before.refs, results[|results| - 1].requests), refs)
    ensures Holds(ImportLine(before, run, start + |results| - 1, record, results[|results| - 1]), db, run, start, results, refs)
  {
    hide CleanAt, Extends, ResolveAll, SessionRows, ModelRows, ToolRows, Linked, Parents, InsertAll, ImportLine,
         BatchSessions, LinkedModels, LinkedTools, Fresh;
    var n := |results| - 1;
    var r, raw := results[n], RawKey(run, start + n);
    LineTables(before, run, start + n, record, r, refs);
    FreshRows(db, run, start, results, refs);
    InsertConcat(db.sessions, BatchSessions(db.raw, run, start, results[..n], refs), SessionRows(r.sessions, raw, refs));
    InsertConcat(db.modelCalls, LinkedModels(db.raw, run, start, results[..n], refs), Linked(ModelRows(r.modelCalls, raw, refs), Parents(r)));
    InsertConcat(db.toolCalls, LinkedTools(db.raw, run, start, results[..n], refs), Linked(ToolRows(r.toolCalls, raw, refs), Parents(r)));
  }

  lemma ExtendsTrans(a: Referentials, b: Referentials, c: Referentials)
    requires Extends(a, b) && Extends(b, c)
    ensures Extends(a, c)
  {
  }

  lemma CleanPrefix(results: seq<NormResult>, start: nat)
    requires results != [] && Clean(results, start)
    ensures Clean(results[..|results| - 1], start) && CleanAt(results[|results| - 1], start + |results| - 1)
  {
    hide CleanAt;
  }

  lemma {:induction false} LinesTables(db: Db, run: nat, start: nat, records: seq<Value>, results: seq<NormResult>, refs: Referentials)
    requires |records| == |results| && Clean(results, start)
    requires Extends(ResolveAll(db.refs, Requests(results)), refs)
    ensures Holds(ImportLines(db, run, start, records, results), db, run, start, results, refs)
  {
    hide *;
    if results == [] {
      assert records == [];
      NoLines(db, run, start, refs);
    } else {
      var n := |results| - 1;
      var before, r := ImportLines(db, run, start, records[..n], results[..n]), results[n];
      LastRequests(results);
      LastLine(db, run, start, records, results);
      LinesRaw(db, run, start, records[..n], results[..n]);
      StillFresh(db, run, start, records[..n], results[..n], start + n);
      ResolveConcat(db.refs, Requests(results[..n]), r.requests);
      ResolveAllFacts(before.refs, r.requests);
      ExtendsTrans(before.refs, ResolveAll(before.refs, r.requests), refs);
      CleanPrefix(results, start);
      LinesTables(db, run, start, records[..n], results[..n], refs);
      if Fresh(db.raw, run, start + n) {
        FreshStep(before, db, run, start, records[n], results, refs);
      } else {
        StaleStep(before, db, run, start, records[n], results, refs);
      }
    }
  }

  /** Writing a batch table by table leaves what its lines leave one by one. */
  lemma {:induction false} BatchIsLines(db: Db, run: nat, start: nat, records: seq<Value>, results: seq<NormResult>)
    requires |records| == |results| && Clean(results, start)
    ensures BatchDb(db, run, start, records, results) == ImportLines(db, run, start, records, results)
  {
    hide ImportLines, RawRows, BatchSessions, LinkedModels, LinkedTools, InsertAll, ResolveAll, Clean, Requests;
    var refs := ResolveAll(db.refs, Requests(results));
    LinesRaw(db, run, start, records, results);
    assert Extends(refs, refs);
    LinesTables(db, run, start, records, results, refs);
  }
}
