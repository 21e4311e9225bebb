/**
 Laws of whole runs, over every store, file and mapping: a run that stopped can
 be resumed, a file imported again writes nothing, a replay under a new run
 gives the same facts, and the first record to use a natural key keeps it.
 */
module ImportLaws {
  import opened Values
  import opened Mappings
  import opened Normalizer
  import opened NormalizerLaws
  import opened Accounting
  import opened References
  import opened Store
  import opened Importing
  import opened Reporting

  // ------------------------------------------------------------------ resume

  /** Every line of these records is stored, and every reference resolved. */
  predicate Landed(db: Db, run: nat, start: nat, results: seq<NormResult>) {
    && (forall line :: start <= line < start + |results| ==> !Fresh(db.raw, run, line))
    && AllKnown(db.refs, Requests(results))
  }

  lemma StaleLine(db: Db, run: nat, line: nat, record: Value, r: NormResult)
    requires !Fresh(db.raw, run, line) && AllKnown(db.refs, r.requests)
    ensures ImportLine(db, run, line, record, r) == db
  {
    ResolveKnown(db.refs, r.requests);
    hide ResolveAll, SessionRows, ModelRows, ToolRows, Linked, Parents, InsertAll, AllKnown;
  }

  lemma KnownParts(refs: Referentials, a: seq<Request>, b: seq<Request>)
    requires AllKnown(refs, a + b)
    ensures AllKnown(refs, a) && AllKnown(refs, b)
  {
    hide Known;
    forall i | 0 <= i < |a| ensures Known(refs, a[i]) {
      assert a[i] == (a + b)[i];
    }
    forall i | 0 <= i < |b| ensures Known(refs, b[i]) {
      assert b[i] == (a + b)[|a| + i];
    }
  }

  lemma KnownPrefix(refs: Referentials, results: seq<NormResult>)
    requires results != [] && AllKnown(refs, Requests(results))
    ensures AllKnown(refs, Requests(results[..|results| - 1])) && AllKnown(refs, results[|results| - 1].requests)
  {
    hide AllKnown;
    LastRequests(results);
    KnownParts(refs, Requests(results[..|results| - 1]), results[|results| - 1].requests);
  }

  lemma LandedPrefix(db: Db, run: nat, start: nat, results: seq<NormResult>)
    requires results != [] && Landed(db, run, start, results)
    ensures Landed(db, run, start, results[..|results| - 1])
    ensures AllKnown(db.refs, results[|results| - 1].requests)
  {
    hide AllKnown, Fresh, Requests;
    KnownPrefix(db.refs, results);
  }

  /** Lines that have landed change nothing. */
  lemma {:induction false} LandedIsSkipped(db: Db, run: nat, start: nat, records: seq<Value>, results: seq<NormResult>)
    requires |records| == |results| && Landed(db, run, start, results)
    ensures ImportLines(db, run, start, records, results) == db
  {
    hide ImportLine, AllKnown, Requests, Fresh;
    if results != [] {
      var n := |results| - 1;
      LandedPrefix(db, run, start, results);
      LandedIsSkipped(db, run, start, records[..n], results[..n]);
      StaleLine(db, run, start + n, records[n], results[n]);
    }
  }

  /** What a run has imported has landed. */
  lemma ImportLands(db: Db, run: nat, start: nat, records: seq<Value>, results: seq<NormResult>)
    requires |records| == |results|
    ensures Landed(ImportLines(db, run, start, records, results), run, start, results)
  {
    LinesRaw(db, run, start, records, results);
    RawRowKeys(run, start, records);
    InsertKeys(db.raw, RawRows(run, start, records));
    ResolveAllFacts(db.refs, Requests(results));
    hide ImportLines, RawRows, InsertAll, ResolveAll, AllKnown, Requests, KeysOf;
  }

  /** Crash and resume: a run that stopped after any prefix of the file, and is
      executed again under the same run, leaves the store an uninterrupted run
      would have left: raw records, sessions, calls and referentials alike. */
  lemma {:induction false} Resume(rt: Runtime, mapping: Mapping, source: int, db: Db, run: nat, records: seq<Value>, n: nat)
    requires n <= |records|
    ensures var stopped := ImportLines(db, run, 1, records[..n], ResultsOf(rt, mapping, source, 1, records[..n]));
            var results := ResultsOf(rt, mapping, source, 1, records);
            ImportLines(stopped, run, 1, records, results) == ImportLines(db, run, 1, records, results)
  {
    hide *;
    var a, b := records[..n], records[n..];
    assert records == a + b;
    var first, second := ResultsOf(rt, mapping, source, 1, a), ResultsOf(rt, mapping, source, 1 + n, b);
    var stopped := ImportLines(db, run, 1, a, first);
    ResultsConcat(rt, mapping, source, 1, a, b);
    ImportConcat(db, run, 1, a, first, b, second);
    ImportConcat(stopped, run, 1, a, first, b, second);
    ImportLands(db, run, 1, a, first);
    LandedIsSkipped(stopped, run, 1, a, first);
  }

  // --------------------------------------------------------------- re-import

  /** The natural keys of a record's calls. */
  function ModelCallKeys(r: NormResult): set<CallKey> {
    if r.sessions == [] then {} else set c | c in r.modelCalls :: CallKey(SessionKeyOf(r.sessions[0]), c.index)
  }

  function ToolCallKeys(r: NormResult): set<CallKey> {
    if r.sessions == [] then {} else set c | c in r.toolCalls :: CallKey(SessionKeyOf(r.sessions[0]), c.index)
  }

  /** Every natural key of the record is in the store. */
  predicate Holding(db: Db, r: NormResult) {
    && (forall s :: s in r.sessions ==> SessionKeyOf(s) in db.sessions)
    && ModelCallKeys(r) <= db.modelCalls.Keys
    && ToolCallKeys(r) <= db.toolCalls.Keys
  }

  predicate AllHeld(db: Db, results: seq<NormResult>) {
    forall i :: 0 <= i < |results| ==> Holding(db, results[i])
  }

  /** `later` has every key of `db`, and its facts. */
  predicate Grown(db: Db, later: Db) {
    && (forall key :: key in db.sessions ==> key in later.sessions && later.sessions[key] == db.sessions[key])
    && (forall key :: key in db.modelCalls ==> key in later.modelCalls && later.modelCalls[key] == db.modelCalls[key])
    && (forall key :: key in db.toolCalls ==> key in later.toolCalls && later.toolCalls[key] == db.toolCalls[key])
    && Extends(db.refs, later.refs)
  }

  lemma GrownTrans(a: Db, b: Db, c: Db)
    requires Grown(a, b) && Grown(b, c)
    ensures Grown(a, c)
  {
  }

  lemma LineGrows(db: Db, run: nat, line: nat, record: Value, r: NormResult)
    ensures Grown(db, ImportLine(db, run, line, record, r))
  {
    var raw, refs := RawKey(run, line), ResolveAll(db.refs, r.requests);
    ResolveAllFacts(db.refs, r.requests);
    InsertKeys(db.sessions, SessionRows(r.sessions, raw, refs));
    InsertKeys(db.modelCalls, Linked(ModelRows(r.modelCalls, raw, refs), Parents(r)));
    InsertKeys(db.toolCalls, Linked(ToolRows(r.toolCalls, raw, refs), Parents(r)));
    hide InsertAll, KeysOf, SessionRows, ModelRows, ToolRows, Linked, Parents, ResolveAll, AllKnown;
  }

  /** No run takes a fact away, or changes one. */
  lemma {:induction false} ImportGrows(db: Db, run: nat, start: nat, records: seq<Value>, results: seq<NormResult>)
    requires |records| == |results|
    ensures Grown(db, ImportLines(db, run, start, records, results))
  {
    hide ImportLine, Grown;
    if results == [] {
      GrownRefl(db);
    } else {
      var n := |results| - 1;
      var before := ImportLines(db, run, start, records[..n], results[..n]);
      ImportGrows(db, run, start, records[..n], results[..n]);
      LineGrows(before, run, start + n, records[n], results[n]);
      GrownTrans(db, before, ImportLines(db, run, start, records, results));
    }
  }

  lemma GrownRefl(db: Db)
    ensures Grown(db, db)
  {
  }

  lemma HoldingGrown(db: Db, later: Db, r: NormResult)
    requires Grown(db, later) && Holding(db, r)
    ensures Holding(later, r)
  {
  }

  /** The keys of the rows a record writes, whatever the ids. */
  lemma RowKeys(r: NormResult, line: nat, raw: RawKey, refs: Referentials)
    requires CleanAt(r, line)
    ensures KeysOf(SessionRows(r.sessions, raw, refs)) == set s | s in r.sessions :: SessionKeyOf(s)
    ensures KeysOf(Linked(ModelRows(r.modelCalls, raw, refs), Parents(r))) == ModelCallKeys(r)
    ensures KeysOf(Linked(ToolRows(r.toolCalls, raw, refs), Parents(r))) == ToolCallKeys(r)
  {
    RecordSessionKeys(r, line, raw, refs);
    ModelRowKeys(r, line, raw, refs);
    ToolRowKeys(r, line, raw, refs);
  }

  lemma ModelRowKeys(r: NormResult, line: nat, raw: RawKey, refs: Referentials)
    requires CleanAt(r, line)
    ensures KeysOf(Linked(ModelRows(r.modelCalls, raw, refs), Parents(r))) == ModelCallKeys(r)
  {
    hide CleanAt, ModelRows, Linked, Unlinked, ModelRow, SessionKeyOf;
    CleanTags(r, line);
    ParentsOf(r);
    if r.sessions == [] {
      NoRows(raw, refs, Parents(r));
    } else {
      RecordModels(r.modelCalls, raw, refs, Tag(Some(line), "session", 0), SessionKeyOf(r.sessions[0]), Parents(r));
      var rows := Linked(ModelRows(r.modelCalls, raw, refs), Parents(r));
      KeysAreThoseOfRows(rows);
      assert forall i :: 0 <= i < |rows| ==> rows[i].key == CallKey(SessionKeyOf(r.sessions[0]), r.modelCalls[i].index);
    }
  }

  lemma ToolRowKeys(r: NormResult, line: nat, raw: RawKey, refs: Referentials)
    requires CleanAt(r, line)
    ensures KeysOf(Linked(ToolRows(r.toolCalls, raw, refs), Parents(r))) == ToolCallKeys(r)
  {
    hide CleanAt, ToolRows, Linked, Unlinked, ToolRow, ToolId, SessionKeyOf;
    CleanTags(r, line);
    ParentsOf(r);
    if r.sessions == [] {
      NoRows(raw, refs, Parents(r));
    } else {
      RecordTools(r.toolCalls, raw, refs, Tag(Some(line), "session", 0), SessionKeyOf(r.sessions[0]), Parents(r));
      var rows := Linked(ToolRows(r.toolCalls, raw, refs), Parents(r));
      KeysAreThoseOfRows(rows);
      assert forall i :: 0 <= i < |rows| ==> rows[i].key == CallKey(SessionKeyOf(r.sessions[0]), r.toolCalls[i].index);
    }
  }

  lemma NoRows(raw: RawKey, refs: Referentials, ids: map<Tag, SessionKey>)
    ensures Linked(ModelRows([], raw, refs), ids) == [] && Linked(ToolRows([], raw, refs), ids) == []
    ensures KeysOf<CallKey, ModelFact>([]) == {} && KeysOf<CallKey, ToolFact>([]) == {}
  {
  }

  /** Importing a line stores its keys. */
  lemma LineHolds(db: Db, run: nat, line: nat, record: Value, r: NormResult)
    requires CleanAt(r, line) && Fresh(db.raw, run, line)
    ensures Holding(ImportLine(db, run, line, record, r), r)
  {
    var raw, refs := RawKey(run, line), ResolveAll(db.refs, r.requests);
    RowKeys(r, line, raw, refs);
    InsertKeys(db.sessions, SessionRows(r.sessions, raw, refs));
    InsertKeys(db.modelCalls, Linked(ModelRows(r.modelCalls, raw, refs), Parents(r)));
    InsertKeys(db.toolCalls, Linked(ToolRows(r.toolCalls, raw, refs), Parents(r)));
    hide InsertAll, KeysOf, SessionRows, ModelRows, ToolRows, Linked, Parents, ResolveAll, CleanAt, ModelCallKeys, ToolCallKeys, SessionKeyOf;
  }

  lemma {:induction false} ImportHolds(db: Db, run: nat, start: nat, records: seq<Value>, results: seq<NormResult>)
    requires |records| == |results| && Clean(results, start)
    requires forall line :: start <= line < start + |results| ==> Fresh(db.raw, run, line)
    ensures AllHeld(ImportLines(db, run, start, records, results), results)
  {
    hide ImportLine, CleanAt, Fresh, Holding, Grown;
    if results != [] {
      var n := |results| - 1;
      var before, after := ImportLines(db, run, start, records[..n], results[..n]), ImportLines(db, run, start, records, results);
      ImportHolds(db, run, start, records[..n], results[..n]);
      StillFresh(db, run, start, records[..n], results[..n], start + n);
      LineHolds(before, run, start + n, records[n], results[n]);
      LineGrows(before, run, start + n, records[n], results[n]);
      forall i | 0 <= i < n ensures Holding(after, results[i]) {
        assert results[..n][i] == results[i];
        HoldingGrown(before, after, results[i]);
      }
    }
  }

  /** A line whose keys and names are all there writes only its raw record. */
  lemma HeldLine(db: Db, run: nat, line: nat, record: Value, r: NormResult)
    requires CleanAt(r, line) && Holding(db, r) && AllKnown(db.refs, r.requests)
    ensures ImportLine(db, run, line, record, r).(raw := db.raw) == db
  {
    ResolveKnown(db.refs, r.requests);
    var raw, refs := RawKey(run, line), db.refs;
    RowKeys(r, line, raw, refs);
    var sessions := SessionRows(r.sessions, raw, refs);
    var models, tools := Linked(ModelRows(r.modelCalls, raw, refs), Parents(r)), Linked(ToolRows(r.toolCalls, raw, refs), Parents(r));
    hide InsertAll, KeysOf, SessionRows, ModelRows, ToolRows, Linked, Parents, ResolveAll, CleanAt, ModelCallKeys, ToolCallKeys,
         SessionKeyOf, AllKnown;
    RowsPresent(db.sessions, sessions);
    RowsPresent(db.modelCalls, models);
    RowsPresent(db.toolCalls, tools);
  }

  lemma RowsPresent<K, V>(table: map<K, V>, rows: seq<Row<K, V>>)
    requires KeysOf(rows) <= table.Keys
    ensures InsertAll(table, rows) == table
  {
    forall i | 0 <= i < |rows| ensures rows[i].key in table {
      KeyOfRow(rows, i);
    }
    InsertPresent(table, rows);
  }

  lemma {:induction false} HeldWritesNothing(db: Db, run: nat, start: nat, records: seq<Value>, results: seq<NormResult>)
    requires |records| == |results| && Clean(results, start)
    requires AllHeld(db, results) && AllKnown(db.refs, Requests(results))
    ensures ImportLines(db, run, start, records, results).(raw := db.raw) == db
  {
    hide ImportLine, CleanAt, Holding, AllKnown;
    if results != [] {
      var n := |results| - 1;
      var before := ImportLines(db, run, start, records[..n], results[..n]);
      KnownPrefix(db.refs, results);
      HeldWritesNothing(db, run, start, records[..n], results[..n]);
      SameHolding(db, before, results[n]);
      HeldLine(before, run, start + n, records[n], results[n]);
    }
  }

  lemma SameHolding(db: Db, other: Db, r: NormResult)
    requires Holding(db, r) && other.(raw := db.raw) == db
    ensures Holding(other, r)
  {
  }

  lemma KnownGrown(refs: Referentials, more: Referentials, requests: seq<Request>)
    requires AllKnown(refs, requests) && Extends(refs, more)
    ensures AllKnown(more, requests)
  {
    hide Known, Extends;
    forall i | 0 <= i < |requests| ensures Known(more, requests[i]) {
      KnownLater(refs, more, requests[i]);
    }
  }

  /** A run of any mapping over any records: a whole file, or the part of it
      that a stopped run had committed. */
  datatype Pass = Pass(rt: Runtime, mapping: Mapping, source: int, run: nat, records: seq<Value>)
  {
    function Results(): (results: seq<NormResult>)
      ensures |results| == |records|
    {
      ResultsOf(rt, mapping, source, 1, records)
    }

    function On(db: Db): Db {
      ImportLines(db, run, 1, records, Results())
    }
  }

  function After(db: Db, passes: seq<Pass>): Db {
    if passes == [] then db else passes[|passes| - 1].On(After(db, passes[..|passes| - 1]))
  }

  lemma {:induction false} AfterGrows(db: Db, passes: seq<Pass>)
    ensures Grown(db, After(db, passes))
  {
    hide Grown, ImportLines;
    if passes == [] {
      GrownRefl(db);
    } else {
      var n := |passes| - 1;
      var before, last := After(db, passes[..n]), passes[n];
      AfterGrows(db, passes[..n]);
      ImportGrows(before, last.run, 1, last.records, last.Results());
      GrownTrans(db, before, After(db, passes));
    }
  }

  /** The run has stored none of these lines. */
  predicate NewRun(db: Db, run: nat, lines: nat) {
    forall line :: 1 <= line < 1 + lines ==> Fresh(db.raw, run, line)
  }

  /** The natural keys of the sessions of a file, and its calls. */
  function SessionKeys(results: seq<NormResult>): set<SessionKey> {
    if results == [] then {}
    else SessionKeys(results[..|results| - 1]) + set s | s in results[|results| - 1].sessions :: SessionKeyOf(s)
  }

  function Calls(results: seq<NormResult>): nat {
    if results == [] then 0 else Calls(results[..|results| - 1]) + CallsOf(results[|results| - 1])
  }

  lemma {:induction false} AllFresh(raw: map<RawKey, Value>, run: nat, results: seq<NormResult>)
    requires forall line :: 1 <= line < 1 + |results| ==> Fresh(raw, run, line)
    ensures FreshKeys(raw, run, 1, results) == SessionKeys(results) && FreshCalls(raw, run, 1, results) == Calls(results)
  {
    hide Fresh, SessionKeyOf, CallsOf;
    if results != [] {
      AllFresh(raw, run, results[..|results| - 1]);
    }
  }

  lemma {:induction false} HeldKeys(db: Db, results: seq<NormResult>)
    requires AllHeld(db, results)
    ensures SessionKeys(results) <= db.sessions.Keys
  {
    hide SessionKeyOf, ModelCallKeys, ToolCallKeys;
    if results != [] {
      var n := |results| - 1;
      HeldKeys(db, results[..n]);
      assert Holding(db, results[n]);
    }
  }

  lemma HeldLater(db: Db, later: Db, results: seq<NormResult>)
    requires AllHeld(db, results) && Grown(db, later)
    ensures AllHeld(later, results)
  {
    hide Holding, Grown;
    forall i | 0 <= i < |results| ensures Holding(later, results[i]) {
      HoldingGrown(db, later, results[i]);
    }
  }

  lemma KnownAfter(db: Db, later: Db, run: nat, records: seq<Value>, results: seq<NormResult>)
    requires |records| == |results| && Grown(ImportLines(db, run, 1, records, results), later)
    ensures AllKnown(later.refs, Requests(results))
  {
    LinesRaw(db, run, 1, records, results);
    ResolveAllFacts(db.refs, Requests(results));
    hide ImportLines, AllKnown, Extends, Requests, ResolveAll;
    KnownGrown(ImportLines(db, run, 1, records, results).refs, later.refs, Requests(results));
  }

  lemma NothingImported(db: Db, run: nat, records: seq<Value>, results: seq<NormResult>)
    requires |records| == |results| && ImportLines(db, run, 1, records, results).(raw := db.raw) == db
    ensures ReportOf(db, run, 1, records, results).imported == 0
    ensures ReportOf(db, run, 1, records, results).duplicate
         == |RepeatedSessions(db, run, 1, results)| + FreshCalls(db.raw, run, 1, results)
  {
    hide ImportLines, RepeatedSessions, FreshCalls, RejectedLines;
  }

  lemma AllRepeated(db: Db, run: nat, results: seq<NormResult>)
    requires FreshKeys(db.raw, run, 1, results) == SessionKeys(results) && SessionKeys(results) <= db.sessions.Keys
    requires forall key :: key in db.sessions ==> db.sessions[key].run != run
    ensures RepeatedSessions(db, run, 1, results) == SessionKeys(results)
  {
    hide FreshKeys, SessionKeys;
  }

  /** Re-import idempotence: once a new run has imported a file, any later run
      of the same records, mapping and source, whatever runs came in between,
      changes no session, call or reference, and reports nothing imported. A new
      run counts each session of the file as one duplicate, and each call. */
  lemma {:induction false} Reimport(pass: Pass, db: Db, between: seq<Pass>, again: nat)
    requires KnownTargets(pass.mapping) && NewRun(db, pass.run, |pass.records|)
    ensures var later := After(pass.On(db), between);
            var report := ReportOf(later, again, 1, pass.records, pass.Results());
            && pass.(run := again).On(later).(raw := later.raw) == later
            && report.imported == 0
            && (NewRun(later, again, |pass.records|) && (forall key :: key in later.sessions ==> later.sessions[key].run != again) ==>
                  report.duplicate == |SessionKeys(pass.Results())| + Calls(pass.Results()))
  {
    hide ImportLines, Clean, KnownTargets, Fresh, AllHeld, AllKnown, Requests, Grown, ReportOf, RepeatedSessions, FreshCalls, FreshKeys,
         SessionKeys, ResultsOf;
    var results, later := pass.Results(), After(pass.On(db), between);
    ResultsClean(pass.rt, pass.mapping, pass.source, 1, pass.records);
    ImportHolds(db, pass.run, 1, pass.records, results);
    AfterGrows(pass.On(db), between);
    HeldLater(pass.On(db), later, results);
    KnownAfter(db, later, pass.run, pass.records, results);
    HeldWritesNothing(later, again, 1, pass.records, results);
    NothingImported(later, again, pass.records, results);
    if NewRun(later, again, |pass.records|) && forall key :: key in later.sessions ==> later.sessions[key].run != again {
      AllFresh(later.raw, again, results);
      HeldKeys(later, results);
      AllRepeated(later, again, results);
    }
  }

  // ------------------------------------------------------------------ batches

  function Flatten(batches: seq<seq<Value>>): seq<Value> {
    if batches == [] then [] else Flatten(batches[..|batches| - 1]) + batches[|batches| - 1]
  }

  /** The store after these batches, each written table by table in its turn. */
  function InBatches(pass: Pass, db: Db, batches: seq<seq<Value>>): Db {
    if batches == [] then db
    else
      var before, batch := batches[..|batches| - 1], batches[|batches| - 1];
      var start := 1 + |Flatten(before)|;
      BatchDb(InBatches(pass, db, before), pass.run, start, batch, ResultsOf(pass.rt, pass.mapping, pass.source, start, batch))
  }

  lemma LastBatch(pass: Pass, db: Db, batches: seq<seq<Value>>)
    requires batches != []
    ensures var before, batch := batches[..|batches| - 1], batches[|batches| - 1];
            var start := 1 + |Flatten(before)|;
            && Flatten(batches) == Flatten(before) + batch
            && InBatches(pass, db, batches)
               == BatchDb(InBatches(pass, db, before), pass.run, start, batch, ResultsOf(pass.rt, pass.mapping, pass.source, start, batch))
  {
    hide BatchDb, ResultsOf;
  }

  lemma NoBatch(pass: Pass, db: Db)
    ensures InBatches(pass, db, []) == db && Flatten([]) == []
    ensures ImportLines(db, pass.run, 1, [], ResultsOf(pass.rt, pass.mapping, pass.source, 1, [])) == db
  {
    hide BatchDb, ImportLine;
  }

  lemma {:induction false} BatchesAreLines(pass: Pass, db: Db, batches: seq<seq<Value>>)
    requires KnownTargets(pass.mapping)
    ensures InBatches(pass, db, batches)
         == ImportLines(db, pass.run, 1, Flatten(batches), ResultsOf(pass.rt, pass.mapping, pass.source, 1, Flatten(batches)))
  {
    hide *;
    if batches == [] {
      NoBatch(pass, db);
    } else {
      var before, batch := batches[..|batches| - 1], batches[|batches| - 1];
      var first, start := Flatten(before), 1 + |Flatten(before)|;
      var a, b := ResultsOf(pass.rt, pass.mapping, pass.source, 1, first), ResultsOf(pass.rt, pass.mapping, pass.source, start, batch);
      LastBatch(pass, db, batches);
      BatchesAreLines(pass, db, before);
      ResultsClean(pass.rt, pass.mapping, pass.source, start, batch);
      BatchIsLines(InBatches(pass, db, before), pass.run, start, batch, b);
      ResultsConcat(pass.rt, pass.mapping, pass.source, 1, first, batch);
      ImportConcat(db, pass.run, 1, first, a, batch, b);
    }
  }

  /** Batch-size independence: however two runs cut the same file into batches,
      they leave the same store. */
  lemma {:induction false} BatchesDoNotMatter(pass: Pass, db: Db, some: seq<seq<Value>>, others: seq<seq<Value>>)
    requires KnownTargets(pass.mapping) && Flatten(some) == Flatten(others)
    ensures InBatches(pass, db, some) == InBatches(pass, db, others)
  {
    hide *;
    BatchesAreLines(pass, db, some);
    BatchesAreLines(pass, db, others);
  }

  // ------------------------------------------------------------------ replay

  /** Two tables with the same keys, whose facts differ by `erase` at most. */
  ghost predicate Alike<K, V>(a: map<K, V>, b: map<K, V>, erase: V -> V) {
    a.Keys == b.Keys && forall key :: key in a ==> erase(a[key]) == erase(b[key])
  }

  ghost predicate AlikeRows<K, V>(a: seq<Row<K, V>>, b: seq<Row<K, V>>, erase: V -> V) {
    |a| == |b| && forall i :: 0 <= i < |a| ==> a[i].key == b[i].key && erase(a[i].value) == erase(b[i].value)
  }

  lemma {:induction false} InsertAlike<K, V>(a: map<K, V>, b: map<K, V>, rowsA: seq<Row<K, V>>, rowsB: seq<Row<K, V>>, erase: V -> V)
    requires Alike(a, b, erase) && AlikeRows(rowsA, rowsB, erase)
    ensures Alike(InsertAll(a, rowsA), InsertAll(b, rowsB), erase)
  {
    if rowsA != [] {
      var n := |rowsA| - 1;
      InsertAlike(a, b, rowsA[..n], rowsB[..n], erase);
    }
  }

  /** A fact without the run it was written by: the line stays. */
  function Unsigned(raw: RawKey): RawKey { raw.(run := 0) }

  function UnsignedSession(fact: SessionFact): SessionFact { fact.(run := 0, raw := Unsigned(fact.raw)) }

  function UnsignedModel(fact: ModelFact): ModelFact { fact.(raw := Unsigned(fact.raw)) }

  function UnsignedTool(fact: ToolFact): ToolFact { fact.(raw := Unsigned(fact.raw)) }

  /** The same facts, up to the runs that wrote them. */
  ghost predicate SameFacts(a: Db, b: Db) {
    && Alike(a.sessions, b.sessions, UnsignedSession)
    && Alike(a.modelCalls, b.modelCalls, UnsignedModel)
    && Alike(a.toolCalls, b.toolCalls, UnsignedTool)
    && a.refs == b.refs
  }

  lemma RecordAlike(r: NormResult, line: nat, a: nat, b: nat, refs: Referentials)
    requires CleanAt(r, line)
    ensures AlikeRows(SessionRows(r.sessions, RawKey(a, line), refs), SessionRows(r.sessions, RawKey(b, line), refs), UnsignedSession)
    ensures AlikeRows(Linked(ModelRows(r.modelCalls, RawKey(a, line), refs), Parents(r)),
                      Linked(ModelRows(r.modelCalls, RawKey(b, line), refs), Parents(r)), UnsignedModel)
    ensures AlikeRows(Linked(ToolRows(r.toolCalls, RawKey(a, line), refs), Parents(r)),
                      Linked(ToolRows(r.toolCalls, RawKey(b, line), refs), Parents(r)), UnsignedTool)
  {
    hide CleanAt, SessionRows, ModelRows, ToolRows, Linked, Unlinked, Parents, IdOf, ToolId, SessionKeyOf;
    CleanTags(r, line);
    ParentsOf(r);
    OneSession(r, line, RawKey(a, line), refs);
    OneSession(r, line, RawKey(b, line), refs);
    var tag := Tag(Some(line), "session", 0);
    var key := if r.sessions == [] then SessionKey(0, "") else SessionKeyOf(r.sessions[0]);
    RecordModels(r.modelCalls, RawKey(a, line), refs, tag, key, Parents(r));
    RecordModels(r.modelCalls, RawKey(b, line), refs, tag, key, Parents(r));
    RecordTools(r.toolCalls, RawKey(a, line), refs, tag, key, Parents(r));
    RecordTools(r.toolCalls, RawKey(b, line), refs, tag, key, Parents(r));
  }

  lemma LineAlike(x: Db, y: Db, a: nat, b: nat, line: nat, record: Value, r: NormResult)
    requires CleanAt(r, line) && SameFacts(x, y) && Fresh(x.raw, a, line) && Fresh(y.raw, b, line)
    ensures SameFacts(ImportLine(x, a, line, record, r), ImportLine(y, b, line, record, r))
  {
    var refs := ResolveAll(x.refs, r.requests);
    RecordAlike(r, line, a, b, refs);
    hide CleanAt, SessionRows, ModelRows, ToolRows, Linked, Parents, InsertAll, ResolveAll, Alike, AlikeRows,
         UnsignedSession, UnsignedModel, UnsignedTool;
    InsertAlike(x.sessions, y.sessions, SessionRows(r.sessions, RawKey(a, line), refs), SessionRows(r.sessions, RawKey(b, line), refs),
                UnsignedSession);
    InsertAlike(x.modelCalls, y.modelCalls, Linked(ModelRows(r.modelCalls, RawKey(a, line), refs), Parents(r)),
                Linked(ModelRows(r.modelCalls, RawKey(b, line), refs), Parents(r)), UnsignedModel);
    InsertAlike(x.toolCalls, y.toolCalls, Linked(ToolRows(r.toolCalls, RawKey(a, line), refs), Parents(r)),
                Linked(ToolRows(r.toolCalls, RawKey(b, line), refs), Parents(r)), UnsignedTool);
  }

  lemma {:induction false} LinesAlike(x: Db, y: Db, a: nat, b: nat, start: nat, records: seq<Value>, results: seq<NormResult>)
    requires |records| == |results| && Clean(results, start) && SameFacts(x, y)
    requires forall line :: start <= line < start + |results| ==> Fresh(x.raw, a, line)
    requires forall line :: start <= line < start + |results| ==> Fresh(y.raw, b, line)
    ensures SameFacts(ImportLines(x, a, start, records, results), ImportLines(y, b, start, records, results))
  {
    hide ImportLine, CleanAt, Fresh, SameFacts;
    if results != [] {
      var n := |results| - 1;
      LinesAlike(x, y, a, b, start, records[..n], results[..n]);
      StillFresh(x, a, start, records[..n], results[..n], start + n);
      StillFresh(y, b, start, records[..n], results[..n], start + n);
      LineAlike(ImportLines(x, a, start, records[..n], results[..n]), ImportLines(y, b, start, records[..n], results[..n]),
                a, b, start + n, records[n], results[n]);
    }
  }

  lemma OtherRunFresh(db: Db, a: nat, b: nat, records: seq<Value>, results: seq<NormResult>, line: nat)
    requires |records| == |results| && a != b
    ensures Fresh(ImportLines(db, a, 1, records, results).raw, b, line) <==> Fresh(db.raw, b, line)
  {
    LinesRaw(db, a, 1, records, results);
    RawRowKeys(a, 1, records);
    InsertKeys(db.raw, RawRows(a, 1, records));
    hide ImportLines, RawRows, InsertAll, KeysOf;
  }

  lemma SameTables(a: Db, b: Db)
    requires a.(raw := b.raw) == b
    ensures SameFacts(a, b)
  {
  }

  /** A file whose run stopped, and that a new run replays from the start, gives
      the same sessions, calls and references as one uninterrupted run: only the
      runs that wrote them differ. */
  lemma {:induction false} Replay(pass: Pass, db: Db, n: nat, again: nat)
    requires KnownTargets(pass.mapping) && n <= |pass.records| && again != pass.run
    requires NewRun(db, pass.run, |pass.records|) && NewRun(db, again, |pass.records|)
    ensures var stopped := pass.(records := pass.records[..n]).On(db);
            SameFacts(pass.(run := again).On(stopped), pass.On(db))
  {
    hide ImportLines, ResultsOf, Clean, Fresh, KnownTargets, SameFacts, Grown, AllHeld, AllKnown, Requests;
    var a, b := pass.records[..n], pass.records[n..];
    assert pass.records == a + b;
    var first := ResultsOf(pass.rt, pass.mapping, pass.source, 1, a);
    var second := ResultsOf(pass.rt, pass.mapping, pass.source, 1 + n, b);
    ResultsConcat(pass.rt, pass.mapping, pass.source, 1, a, b);
    ResultsClean(pass.rt, pass.mapping, pass.source, 1, a);
    ResultsClean(pass.rt, pass.mapping, pass.source, 1 + n, b);
    var stopped := ImportLines(db, pass.run, 1, a, first);
    var skipped := ImportLines(stopped, again, 1, a, first);
    ImportConcat(db, pass.run, 1, a, first, b, second);
    ImportConcat(stopped, again, 1, a, first, b, second);
    ImportHolds(db, pass.run, 1, a, first);
    GrownRefl(stopped);
    KnownAfter(db, stopped, pass.run, a, first);
    HeldWritesNothing(stopped, again, 1, a, first);
    SameTables(skipped, stopped);
    forall line | 1 + n <= line < 1 + n + |second| ensures Fresh(skipped.raw, again, line) && Fresh(stopped.raw, pass.run, line) {
      StillFresh(db, pass.run, 1, a, first, line);
      OtherRunFresh(db, pass.run, again, a, first, line);
      StillFresh(stopped, again, 1, a, first, line);
    }
    LinesAlike(skipped, stopped, again, pass.run, 1 + n, b, second);
  }

  // ------------------------------------------------------------ first writer

  function ModelKeysOf(results: seq<NormResult>): set<CallKey> {
    if results == [] then {} else ModelKeysOf(results[..|results| - 1]) + ModelCallKeys(results[|results| - 1])
  }

  function ToolKeysOf(results: seq<NormResult>): set<CallKey> {
    if results == [] then {} else ToolKeysOf(results[..|results| - 1]) + ToolCallKeys(results[|results| - 1])
  }

  lemma LineKeys(db: Db, run: nat, line: nat, record: Value, r: NormResult)
    requires CleanAt(r, line) && Fresh(db.raw, run, line)
    ensures var after := ImportLine(db, run, line, record, r);
            && after.sessions.Keys == db.sessions.Keys + (set s | s in r.sessions :: SessionKeyOf(s))
            && after.modelCalls.Keys == db.modelCalls.Keys + ModelCallKeys(r)
            && after.toolCalls.Keys == db.toolCalls.Keys + ToolCallKeys(r)
  {
    var raw, refs := RawKey(run, line), ResolveAll(db.refs, r.requests);
    RowKeys(r, line, raw, refs);
    InsertKeys(db.sessions, SessionRows(r.sessions, raw, refs));
    InsertKeys(db.modelCalls, Linked(ModelRows(r.modelCalls, raw, refs), Parents(r)));
    InsertKeys(db.toolCalls, Linked(ToolRows(r.toolCalls, raw, refs), Parents(r)));
    hide InsertAll, KeysOf, SessionRows, ModelRows, ToolRows, Linked, Parents, ResolveAll, CleanAt, ModelCallKeys, ToolCallKeys, SessionKeyOf;
  }

  /** A new run adds exactly the natural keys of its file. */
  lemma {:induction false} KeysAfter(db: Db, run: nat, records: seq<Value>, results: seq<NormResult>)
    requires |records| == |results| && Clean(results, 1) && NewRun(db, run, |records|)
    ensures var after := ImportLines(db, run, 1, records, results);
            && after.sessions.Keys == db.sessions.Keys + SessionKeys(results)
            && after.modelCalls.Keys == db.modelCalls.Keys + ModelKeysOf(results)
            && after.toolCalls.Keys == db.toolCalls.Keys + ToolKeysOf(results)
  {
    hide ImportLine, CleanAt, Fresh, ModelCallKeys, ToolCallKeys, SessionKeyOf;
    if results != [] {
      var n := |results| - 1;
      KeysAfter(db, run, records[..n], results[..n]);
      StillFresh(db, run, 1, records[..n], results[..n], 1 + n);
      LineKeys(ImportLines(db, run, 1, records[..n], results[..n]), run, 1 + n, records[n], results[n]);
    }
  }

  lemma SessionWriter(db: Db, run: nat, line: nat, record: Value, r: NormResult)
    requires CleanAt(r, line) && Fresh(db.raw, run, line)
    requires r.sessions != [] && SessionKeyOf(r.sessions[0]) !in db.sessions
    ensures var after, key := ImportLine(db, run, line, record, r), SessionKeyOf(r.sessions[0]);
            key in after.sessions && after.sessions[key] == SessionRow(r.sessions[0], RawKey(run, line), after.refs).value
  {
    var raw, refs := RawKey(run, line), ResolveAll(db.refs, r.requests);
    OneSession(r, line, raw, refs);
    var row := SessionRow(r.sessions[0], raw, refs);
    assert row.key == SessionKeyOf(r.sessions[0]);
    hide SessionRows, ModelRows, ToolRows, Linked, Parents, ResolveAll, CleanAt, SessionKeyOf, SessionRow;
    assert [row][..0] == [];
    FirstRowWins(db.sessions, [row], 0);
  }

  lemma ModelWriter(db: Db, run: nat, line: nat, record: Value, r: NormResult, k: nat)
    requires CleanAt(r, line) && Fresh(db.raw, run, line) && k < |r.modelCalls| && r.sessions != []
    requires CallKey(SessionKeyOf(r.sessions[0]), r.modelCalls[k].index) !in db.modelCalls
    requires forall j :: 0 <= j < k ==> r.modelCalls[j].index != r.modelCalls[k].index
    ensures var after, key := ImportLine(db, run, line, record, r), CallKey(SessionKeyOf(r.sessions[0]), r.modelCalls[k].index);
            key in after.modelCalls && after.modelCalls[key] == ModelRow(r.modelCalls[k], RawKey(run, line), after.refs).value
  {
    var raw, refs := RawKey(run, line), ResolveAll(db.refs, r.requests);
    CleanTags(r, line);
    ParentsOf(r);
    hide SessionRows, ModelRows, ToolRows, Linked, Unlinked, Parents, ResolveAll, CleanAt, SessionKeyOf, ModelRow, InsertAll;
    RecordModels(r.modelCalls, raw, refs, Tag(Some(line), "session", 0), SessionKeyOf(r.sessions[0]), Parents(r));
    var rows := Linked(ModelRows(r.modelCalls, raw, refs), Parents(r));
    FirstOfKey(db.modelCalls, rows, k);
  }

  lemma ToolWriter(db: Db, run: nat, line: nat, record: Value, r: NormResult, k: nat)
    requires CleanAt(r, line) && Fresh(db.raw, run, line) && k < |r.toolCalls| && r.sessions != []
    requires CallKey(SessionKeyOf(r.sessions[0]), r.toolCalls[k].index) !in db.toolCalls
    requires forall j :: 0 <= j < k ==> r.toolCalls[j].index != r.toolCalls[k].index
    ensures var after, key := ImportLine(db, run, line, record, r), CallKey(SessionKeyOf(r.sessions[0]), r.toolCalls[k].index);
            && key in after.toolCalls
            && after.toolCalls[key]
               == ToolRow(r.toolCalls[k], RawKey(run, line), ToolId(after.refs, r.toolCalls[k])).value
  {
    var raw, refs := RawKey(run, line), ResolveAll(db.refs, r.requests);
    CleanTags(r, line);
    ParentsOf(r);
    hide SessionRows, ModelRows, ToolRows, Linked, Unlinked, Parents, ResolveAll, CleanAt, SessionKeyOf, ToolId, InsertAll;
    RecordTools(r.toolCalls, raw, refs, Tag(Some(line), "session", 0), SessionKeyOf(r.sessions[0]), Parents(r));
    var rows := Linked(ToolRows(r.toolCalls, raw, refs), Parents(r));
    FirstOfKey(db.toolCalls, rows, k);
  }

  /** The store just before and just after line `i`, and at the end of the file. */
  lemma AroundLine(db: Db, run: nat, records: seq<Value>, results: seq<NormResult>, i: nat)
    requires |records| == |results| && Clean(results, 1) && NewRun(db, run, |records|) && i < |results|
    ensures var before := ImportLines(db, run, 1, records[..i], results[..i]);
            && Fresh(before.raw, run, 1 + i) && CleanAt(results[i], 1 + i)
            && before.sessions.Keys == db.sessions.Keys + SessionKeys(results[..i])
            && before.modelCalls.Keys == db.modelCalls.Keys + ModelKeysOf(results[..i])
            && before.toolCalls.Keys == db.toolCalls.Keys + ToolKeysOf(results[..i])
            && Grown(ImportLine(before, run, 1 + i, records[i], results[i]), ImportLines(db, run, 1, records, results))
  {
    hide ImportLine, CleanAt, Fresh, Grown, SessionKeys, ModelKeysOf, ToolKeysOf;
    KeysAfter(db, run, records[..i], results[..i]);
    StillFresh(db, run, 1, records[..i], results[..i], 1 + i);
    assert results[..i + 1][..i] == results[..i] && records[..i + 1][..i] == records[..i];
    LastLine(db, run, 1, records[..i + 1], results[..i + 1]);
    assert records == records[..i + 1] + records[i + 1..] && results == results[..i + 1] + results[i + 1..];
    ImportConcat(db, run, 1, records[..i + 1], results[..i + 1], records[i + 1..], results[i + 1..]);
    ImportGrows(ImportLines(db, run, 1, records[..i + 1], results[..i + 1]), run, 2 + i, records[i + 1..], results[i + 1..]);
  }

  /** A stored fact, with the ids its names have in `refs`. */
  lemma SameIds(r: NormResult, line: nat, raw: RawKey, refs: Referentials, more: Referentials)
    requires CleanAt(r, line) && AllKnown(refs, r.requests) && Extends(refs, more)
    ensures forall i :: 0 <= i < |r.sessions| ==> IdOf(more, AgentKey(r.sessions[i])) == IdOf(refs, AgentKey(r.sessions[i]))
    ensures forall i :: 0 <= i < |r.modelCalls| ==> IdOf(more, ModelKey(r.modelCalls[i])) == IdOf(refs, ModelKey(r.modelCalls[i]))
    ensures forall i :: 0 <= i < |r.toolCalls| ==> IdOf(more, ToolKey(r.toolCalls[i])) == IdOf(refs, ToolKey(r.toolCalls[i]))
  {
    hide AgentKey, ModelKey, ToolKey, AllKnown, Extends, IdOf, CleanAt, Asked;
    CleanKeys(r, line);
    forall i | 0 <= i < |r.sessions| ensures IdOf(more, AgentKey(r.sessions[i])) == IdOf(refs, AgentKey(r.sessions[i])) {
      SameId(refs, more, r.requests, AgentKey(r.sessions[i]));
    }
    forall i | 0 <= i < |r.modelCalls| ensures IdOf(more, ModelKey(r.modelCalls[i])) == IdOf(refs, ModelKey(r.modelCalls[i])) {
      SameId(refs, more, r.requests, ModelKey(r.modelCalls[i]));
    }
    forall i | 0 <= i < |r.toolCalls| ensures IdOf(more, ToolKey(r.toolCalls[i])) == IdOf(refs, ToolKey(r.toolCalls[i])) {
      SameId(refs, more, r.requests, ToolKey(r.toolCalls[i]));
    }
  }

  lemma {:induction false} FirstWriterRow(pass: Pass, db: Db, i: nat, k: nat)
    requires KnownTargets(pass.mapping) && NewRun(db, pass.run, |pass.records|) && i < |pass.records|
    requires pass.Results()[i].sessions != []
    ensures var r, raw, after := pass.Results()[i], RawKey(pass.run, 1 + i), pass.On(db);
            var key := SessionKeyOf(r.sessions[0]);
            && (key !in db.sessions && key !in SessionKeys(pass.Results()[..i]) ==>
                  key in after.sessions && after.sessions[key] == SessionRow(r.sessions[0], raw, after.refs).value)
            && (k < |r.modelCalls| && (forall j :: 0 <= j < k ==> r.modelCalls[j].index != r.modelCalls[k].index)
                && CallKey(key, r.modelCalls[k].index) !in db.modelCalls.Keys + ModelKeysOf(pass.Results()[..i]) ==>
                  var call := CallKey(key, r.modelCalls[k].index);
                  call in after.modelCalls && after.modelCalls[call] == ModelRow(r.modelCalls[k], raw, after.refs).value)
            && (k < |r.toolCalls| && (forall j :: 0 <= j < k ==> r.toolCalls[j].index != r.toolCalls[k].index)
                && CallKey(key, r.toolCalls[k].index) !in db.toolCalls.Keys + ToolKeysOf(pass.Results()[..i]) ==>
                  var call := CallKey(key, r.toolCalls[k].index);
                  call in after.toolCalls && after.toolCalls[call] == ToolRow(r.toolCalls[k], raw, ToolId(after.refs, r.toolCalls[k])).value)
  {
    hide ImportLines, ImportLine, ResultsOf, Clean, CleanAt, Fresh, KnownTargets, SessionKeyOf, SessionKeys, ModelKeysOf, ToolKeysOf,
         AllKnown, Extends, IdOf, AgentKey, ModelKey, ToolKey, ResolveAll;
    var results, after := pass.Results(), pass.On(db);
    ResultsClean(pass.rt, pass.mapping, pass.source, 1, pass.records);
    AroundLine(db, pass.run, pass.records, results, i);
    var before, r, record := ImportLines(db, pass.run, 1, pass.records[..i], results[..i]), results[i], pass.records[i];
    var line := ImportLine(before, pass.run, 1 + i, record, r);
    var key := SessionKeyOf(r.sessions[0]);
    LineRaw(before, pass.run, 1 + i, record, r);
    ResolveAllFacts(before.refs, r.requests);
    SameIds(r, 1 + i, RawKey(pass.run, 1 + i), line.refs, after.refs);
    if key !in before.sessions {
      SessionWriter(before, pass.run, 1 + i, record, r);
    }
    if k < |r.modelCalls| && CallKey(key, r.modelCalls[k].index) !in before.modelCalls
       && forall j :: 0 <= j < k ==> r.modelCalls[j].index != r.modelCalls[k].index {
      ModelWriter(before, pass.run, 1 + i, record, r, k);
    }
    if k < |r.toolCalls| && CallKey(key, r.toolCalls[k].index) !in before.toolCalls
       && forall j :: 0 <= j < k ==> r.toolCalls[j].index != r.toolCalls[k].index {
      ToolWriter(before, pass.run, 1 + i, record, r, k);
    }
  }

  // ------------------------------------------------------- what a fact holds

  /** The id of a name: none without one, else that of the row the name has. */
  predicate IdIs(refs: Referentials, id: Option<nat>, name: Option<string>, kind: string, owner: string) {
    if name.None? then id.None?
    else TableRow(kind, name.value, owner) in refs && id == Some(refs[TableRow(kind, name.value, owner)])
  }

  /** A stored session: its record and run, its agent, its columns. */
  predicate HoldsSession(fact: SessionFact, session: Session, raw: RawKey, refs: Referentials) {
    && fact.run == raw.run && fact.raw == raw && fact.columns == session.columns
    && IdIs(refs, fact.agent, session.agentName, "agent", "")
  }

  /** A stored model call; its model is looked up under its provider. */
  predicate HoldsModel(fact: ModelFact, call: ModelCall, raw: RawKey, refs: Referentials) {
    && fact.raw == raw && fact.status == call.status && fact.columns == call.columns
    && IdIs(refs, fact.model, call.model, "model",
            if call.provider.Some? && call.provider.value != "" then call.provider.value else "unknown")
  }

  predicate HoldsTool(fact: ToolFact, call: ToolCall, raw: RawKey, refs: Referentials) {
    && fact.raw == raw && fact.status == call.status && fact.columns == call.columns
    && IdIs(refs, Some(fact.tool), Some(call.tool), "tool", "")
  }

  lemma ProviderRow(call: ModelCall)
    requires call.model.Some?
    ensures RowOf(ModelKey(call).value) == TableRow("model", call.model.value,
              if call.provider.Some? && call.provider.value != "" then call.provider.value else "unknown")
  {
    var context := ProviderContext(call.provider);
    assert context != [] ==> context[..|context| - 1] == [];
  }

  lemma OtherRows(name: string)
    ensures RowOf(Request("agent", name, [])) == TableRow("agent", name, "") && RowOf(Request("tool", name, [])) == TableRow("tool", name, "")
  {
    assert "agent"[0] != "model"[0] && "tool"[0] != "model"[0];
  }

  lemma KnownIn(refs: Referentials, more: Referentials, requests: seq<Request>, key: Option<Request>)
    requires AllKnown(refs, requests) && Extends(refs, more) && Asked(key, requests)
    ensures key.Some? ==> RowOf(key.value) in more
  {
    hide RowOf, ProviderOf;
    if key.Some? {
      var i :| 0 <= i < |requests| && requests[i] == key.value;
      assert Known(refs, requests[i]);
    }
  }

  /** What the rows of a record say of its entities. */
  lemma RowsHold(r: NormResult, line: nat, raw: RawKey, refs: Referentials, more: Referentials)
    requires CleanAt(r, line) && AllKnown(refs, r.requests) && Extends(refs, more)
    ensures forall i :: 0 <= i < |r.sessions| ==> HoldsSession(SessionRow(r.sessions[i], raw, more).value, r.sessions[i], raw, more)
    ensures forall k :: 0 <= k < |r.modelCalls| ==> HoldsModel(ModelRow(r.modelCalls[k], raw, more).value, r.modelCalls[k], raw, more)
    ensures forall k :: 0 <= k < |r.toolCalls| ==>
              HoldsTool(ToolRow(r.toolCalls[k], raw, ToolId(more, r.toolCalls[k])).value, r.toolCalls[k], raw, more)
  {
    CleanKeys(r, line);
    hide CleanAt, RowOf, AllKnown, Extends, Asked;
    forall i | 0 <= i < |r.sessions| ensures HoldsSession(SessionRow(r.sessions[i], raw, more).value, r.sessions[i], raw, more) {
      KnownIn(refs, more, r.requests, AgentKey(r.sessions[i]));
      if r.sessions[i].agentName.Some? {
        OtherRows(r.sessions[i].agentName.value);
      }
    }
    forall k | 0 <= k < |r.modelCalls| ensures HoldsModel(ModelRow(r.modelCalls[k], raw, more).value, r.modelCalls[k], raw, more) {
      KnownIn(refs, more, r.requests, ModelKey(r.modelCalls[k]));
      if r.modelCalls[k].model.Some? {
        ProviderRow(r.modelCalls[k]);
      }
    }
    forall k | 0 <= k < |r.toolCalls|
      ensures HoldsTool(ToolRow(r.toolCalls[k], raw, ToolId(more, r.toolCalls[k])).value, r.toolCalls[k], raw, more)
    {
      KnownIn(refs, more, r.requests, ToolKey(r.toolCalls[k]));
      OtherRows(r.toolCalls[k].tool);
    }
  }

  /** First writer wins: a natural key new to the store keeps, at the end of the
      run, the fact of the first record that uses it, and of the first call of
      that record: its columns and status, the record and run it comes from, and
      the ids its names have in the tables. */
  lemma {:induction false} FirstWriterWins(pass: Pass, db: Db, i: nat, k: nat)
    requires KnownTargets(pass.mapping) && NewRun(db, pass.run, |pass.records|) && i < |pass.records|
    requires pass.Results()[i].sessions != []
    ensures var r, raw, after := pass.Results()[i], RawKey(pass.run, 1 + i), pass.On(db);
            var key := SessionKey(r.sessions[0].source, r.sessions[0].externalId);
            && (key !in db.sessions && key !in SessionKeys(pass.Results()[..i]) ==>
                  key in after.sessions && HoldsSession(after.sessions[key], r.sessions[0], raw, after.refs))
            && (k < |r.modelCalls| && (forall j :: 0 <= j < k ==> r.modelCalls[j].index != r.modelCalls[k].index)
                && CallKey(key, r.modelCalls[k].index) !in db.modelCalls.Keys + ModelKeysOf(pass.Results()[..i]) ==>
                  var call := CallKey(key, r.modelCalls[k].index);
                  call in after.modelCalls && HoldsModel(after.modelCalls[call], r.modelCalls[k], raw, after.refs))
            && (k < |r.toolCalls| && (forall j :: 0 <= j < k ==> r.toolCalls[j].index != r.toolCalls[k].index)
                && CallKey(key, r.toolCalls[k].index) !in db.toolCalls.Keys + ToolKeysOf(pass.Results()[..i]) ==>
                  var call := CallKey(key, r.toolCalls[k].index);
                  call in after.toolCalls && HoldsTool(after.toolCalls[call], r.toolCalls[k], raw, after.refs))
  {
    FirstWriterRow(pass, db, i, k);
    ResultsClean(pass.rt, pass.mapping, pass.source, 1, pass.records);
    AroundLine(db, pass.run, pass.records, pass.Results(), i);
    hide ImportLines, ImportLine, ResultsOf, CleanAt, Fresh, KnownTargets, SessionKeys, ModelKeysOf, ToolKeysOf,
         AllKnown, Extends, SessionRow, ModelRow, ToolRow, ToolId, ResolveAll, HoldsSession, HoldsModel, HoldsTool;
    var results, r := pass.Results(), pass.Results()[i];
    var before := ImportLines(db, pass.run, 1, pass.records[..i], results[..i]);
    LineRaw(before, pass.run, 1 + i, pass.records[i], r);
    ResolveAllFacts(before.refs, r.requests);
    RowsHold(r, 1 + i, RawKey(pass.run, 1 + i), ResolveAll(before.refs, r.requests), pass.On(db).refs);
  }

  // ---------------------------------------------------- records and references

  /** A new run keeps each of its records as it was read, and the others. */
  lemma {:induction false} RecordsAreKept(db: Db, run: nat, records: seq<Value>, results: seq<NormResult>)
    requires |records| == |results| && NewRun(db, run, |records|)
    ensures var after := ImportLines(db, run, 1, records, results);
            && (forall i :: 0 <= i < |records| ==> RawKey(run, 1 + i) in after.raw && after.raw[RawKey(run, 1 + i)] == records[i])
            && (forall key :: key in after.raw <==> key in db.raw || (key.run == run && 1 <= key.line <= |records|))
            && (forall key :: key in db.raw ==> key in after.raw && after.raw[key] == db.raw[key])
  {
    hide ImportLine;
    if results != [] {
      var n := |results| - 1;
      RecordsAreKept(db, run, records[..n], results[..n]);
      LineRaw(ImportLines(db, run, 1, records[..n], results[..n]), run, 1 + n, records[n], results[n]);
      var last := RawKey(run, 1 + n);
      assert Fresh(db.raw, run, 1 + n);
      assert last !in db.raw && last !in ImportLines(db, run, 1, records[..n], results[..n]).raw;
      assert forall i :: 0 <= i < n ==> records[..n][i] == records[i] && RawKey(run, 1 + i) != last;
    }
  }

  /** Different rows of the referential tables have different ids. */
  predicate OneIdEach(refs: Referentials) {
    && (forall row :: row in refs ==> refs[row] < |refs|)
    && forall a, b :: a in refs && b in refs && a != b ==> refs[a] != refs[b]
  }

  lemma UpsertKeepsIds(refs: Referentials, row: TableRow)
    requires OneIdEach(refs)
    ensures OneIdEach(Upsert(refs, row))
  {
  }

  lemma {:induction false} ResolvingKeepsIds(refs: Referentials, requests: seq<Request>)
    requires OneIdEach(refs)
    ensures OneIdEach(ResolveAll(refs, requests))
    decreases |requests|
  {
    hide OneIdEach, Upsert, RowOf, ProviderOf;
    if requests != [] {
      var q := requests[0];
      if q.kind == "model" {
        UpsertKeepsIds(refs, TableRow("provider", ProviderOf(q.context), ""));
        UpsertKeepsIds(Upsert(refs, TableRow("provider", ProviderOf(q.context), "")), RowOf(q));
      } else {
        UpsertKeepsIds(refs, RowOf(q));
      }
      ResolvingKeepsIds(ResolveOne(refs, q), requests[1..]);
    }
  }

  /** So two names are never given one id, whatever is imported: a model of
      another provider is another model. */
  lemma {:induction false} NamesStayApart(db: Db, run: nat, start: nat, records: seq<Value>, results: seq<NormResult>)
    requires |records| == |results| && OneIdEach(db.refs)
    ensures OneIdEach(ImportLines(db, run, start, records, results).refs)
  {
    hide ImportLine, OneIdEach;
    if results != [] {
      var n := |results| - 1;
      NamesStayApart(db, run, start, records[..n], results[..n]);
      var before := ImportLines(db, run, start, records[..n], results[..n]);
      LineRaw(before, run, start + n, records[n], results[n]);
      ResolvingKeepsIds(before.refs, results[n].requests);
    }
  }
}
