/**
 The preview against the import: on the same records a preview rejects the lines
 a run rejects, and announces the entities the run imports or finds taken.
 */
module PreviewLaws {
  import opened Values
  import opened Mappings
  import opened Engine
  import opened EngineLaws
  import opened Normalizer
  import opened NormalizerLaws
  import opened Accounting
  import opened Store
  import opened Importing
  import opened Reporting
  import opened Rejections
  import opened ImportLaws
  import opened Preview

  // ------------------------------------------------------------- the source

  function SourcedSessions(sessions: seq<Session>, source: int): seq<Session> {
    seq(|sessions|, i requires 0 <= i < |sessions| => sessions[i].(source := source))
  }

  /** The same result, for another data source. */
  function Sourced(r: NormResult, source: int): NormResult {
    r.(sessions := SourcedSessions(r.sessions, source))
  }

  function SourcedPart(part: Part<Session>, source: int): Part<Session> {
    if part.Aborted? then Aborted else Part(SourcedSessions(part.entities, source), part.issues, part.requests)
  }

  lemma MadeSource(rt: Runtime, entity: EntityMapping, data: map<string, Value>, a: int, b: int, line: Option<nat>)
    ensures SessionMade(rt, entity, data, b, line) == SourcedPart(SessionMade(rt, entity, data, a, line), b)
  {
    hide NameFrom, MissingKeys, Columns, Among;
  }

  lemma JoinSource(before: Part<Session>, made: Part<Session>, source: int)
    requires before.Part? && before.entities == []
    ensures Join(before, SourcedPart(made, source)) == SourcedPart(Join(before, made), source)
  {
  }

  lemma SessionsSource(rt: Runtime, mapping: Mapping, results: seq<EntityRow>, a: int, b: int, line: Option<nat>)
    ensures SessionsOf(rt, mapping, results, b, line) == SourcedPart(SessionsOf(rt, mapping, results, a, line), b)
  {
    var rows, entity := Entries(results, "session"), ByTarget(mapping, "session");
    hide SessionMade, Join, SourcedSessions, Entries, ByTarget;
    if rows == [] || entity.None? {
      NoSessions(b);
    } else {
      var ignored := if |rows| > 1 then [Issue(Warning, SessionsIgnored(|rows|), Nowhere, line)] else [];
      MadeSource(rt, entity.value, rows[0].data, a, b, line);
      JoinSource(Part([], ignored, []), SessionMade(rt, entity.value, rows[0].data, a, line), b);
    }
  }

  lemma NoSessions(source: int)
    ensures SourcedSessions([], source) == []
  {
  }

  /** The data source is only a column of the session: it changes nothing else. */
  lemma {:induction false} SourceOnly(rt: Runtime, mapping: Mapping, a: int, b: int, line: nat, record: Value)
    ensures ResultOf(rt, mapping, b, line, record) == Sourced(ResultOf(rt, mapping, a, line, record), b)
  {
    var results := MappingApplied(rt, mapping, record, Some(line)).results;
    NoEscape(rt, mapping, record, a, Some(line));
    NoEscape(rt, mapping, record, b, Some(line));
    SessionsSource(rt, mapping, results, a, b, Some(line));
    var before, after := SessionsOf(rt, mapping, results, a, Some(line)), SessionsOf(rt, mapping, results, b, Some(line));
    hide SessionsOf, MappingApplied, ModelCallParts, ToolCallParts, Orphans, Entries, ByTarget;
    assert before.Part?;
    assert after.entities == [] <==> before.entities == [];
    assert after.entities != [] ==> after.entities[0].id == before.entities[0].id;
  }

  lemma {:induction false} SameAccount(rt: Runtime, mapping: Mapping, a: int, b: int, start: nat, records: seq<Value>)
    ensures var x, y := ResultsOf(rt, mapping, a, start, records), ResultsOf(rt, mapping, b, start, records);
            && RejectedLines(y) == RejectedLines(x) && IssuesOf(y) == IssuesOf(x)
            && |AllFor(y, "session")| == |AllFor(x, "session")|
            && AllFor(y, "model_call") == AllFor(x, "model_call") && AllFor(y, "tool_call") == AllFor(x, "tool_call")
  {
    hide ResultOf, SomeRejected, EntitiesFor, ResultsOf, Sourced;
    if records == [] {
      NoResults(rt, mapping, a, start);
      NoResults(rt, mapping, b, start);
    } else {
      var n := |records| - 1;
      SameAccount(rt, mapping, a, b, start, records[..n]);
      SourceOnly(rt, mapping, a, b, start + n, records[n]);
      LastResult(rt, mapping, a, start, records);
      LastResult(rt, mapping, b, start, records);
      SameEntities(ResultOf(rt, mapping, a, start + n, records[n]), b);
    }
  }

  lemma NoResults(rt: Runtime, mapping: Mapping, source: int, start: nat)
    ensures ResultsOf(rt, mapping, source, start, []) == []
  {
  }

  lemma LastResult(rt: Runtime, mapping: Mapping, source: int, start: nat, records: seq<Value>)
    requires records != []
    ensures var n := |records| - 1;
            var results := ResultsOf(rt, mapping, source, start, records);
            results[..n] == ResultsOf(rt, mapping, source, start, records[..n])
            && results[n] == ResultOf(rt, mapping, source, start + n, records[n])
  {
    hide ResultOf;
  }

  lemma SameEntities(r: NormResult, source: int)
    ensures Sourced(r, source).issues == r.issues
    ensures |EntitiesFor(Sourced(r, source), "session")| == |EntitiesFor(r, "session")|
    ensures EntitiesFor(Sourced(r, source), "model_call") == EntitiesFor(r, "model_call")
    ensures EntitiesFor(Sourced(r, source), "tool_call") == EntitiesFor(r, "tool_call")
  {
  }

  // -------------------------------------------------------------- taken keys

  function KeySet<K>(keys: seq<K>): set<K> {
    set k | k in keys
  }

  /** How many of the keys, in order, are taken: held, or used earlier. */
  function Taken<K(==)>(held: set<K>, keys: seq<K>): nat {
    if keys == [] then 0
    else
      var n := |keys| - 1;
      Taken(held, keys[..n]) + (if keys[n] in held || keys[n] in keys[..n] then 1 else 0)
  }

  /** Every key is either new or taken. */
  lemma {:induction false} NewOrTaken<K>(held: set<K>, keys: seq<K>)
    ensures |keys| == |held + KeySet(keys)| - |held| + Taken(held, keys)
  {
    if keys == [] {
      assert held + KeySet(keys) == held;
    } else {
      var n := |keys| - 1;
      NewOrTaken(held, keys[..n]);
      var before := held + KeySet(keys[..n]);
      assert keys == keys[..n] + [keys[n]];
      if keys[n] in held || keys[n] in keys[..n] {
        assert held + KeySet(keys) == before;
      } else {
        assert held + KeySet(keys) == before + {keys[n]};
      }
    }
  }

  function SessionKeySeq(results: seq<NormResult>): seq<SessionKey> {
    if results == [] then []
    else
      var r := results[|results| - 1];
      SessionKeySeq(results[..|results| - 1]) + seq(|r.sessions|, i requires 0 <= i < |r.sessions| => SessionKeyOf(r.sessions[i]))
  }

  /** The two kinds of calls, which are stored in the same way. */
  datatype Kind = Models | Tools
  {
    function Target(): string {
      if Models? then "model_call" else "tool_call"
    }

    /** The sequence indices of a record's calls. */
    function Indices(r: NormResult): seq<int> {
      if Models? then seq(|r.modelCalls|, i requires 0 <= i < |r.modelCalls| => r.modelCalls[i].index)
      else seq(|r.toolCalls|, i requires 0 <= i < |r.toolCalls| => r.toolCalls[i].index)
    }

    function Held(db: Db): set<CallKey> {
      if Models? then db.modelCalls.Keys else db.toolCalls.Keys
    }

    function KeysIn(r: NormResult): set<CallKey> {
      if Models? then ModelCallKeys(r) else ToolCallKeys(r)
    }

    function KeysOf(results: seq<NormResult>): set<CallKey> {
      if Models? then ModelKeysOf(results) else ToolKeysOf(results)
    }
  }

  /** The keys of a record's calls, in order. */
  function CallKeys(kind: Kind, r: NormResult): seq<CallKey> {
    if r.sessions == [] then []
    else
      var indices := kind.Indices(r);
      seq(|indices|, i requires 0 <= i < |indices| => CallKey(SessionKeyOf(r.sessions[0]), indices[i]))
  }

  function CallKeySeq(kind: Kind, results: seq<NormResult>): seq<CallKey> {
    if results == [] then [] else CallKeySeq(kind, results[..|results| - 1]) + CallKeys(kind, results[|results| - 1])
  }

  lemma KeySetConcat<K>(a: seq<K>, b: seq<K>)
    ensures KeySet(a + b) == KeySet(a) + KeySet(b)
  {
  }

  lemma RecordSessionKeys(r: NormResult)
    ensures KeySet(seq(|r.sessions|, i requires 0 <= i < |r.sessions| => SessionKeyOf(r.sessions[i]))) == set s | s in r.sessions :: SessionKeyOf(s)
  {
    var sessions := seq(|r.sessions|, i requires 0 <= i < |r.sessions| => SessionKeyOf(r.sessions[i]));
    forall s | s in r.sessions ensures SessionKeyOf(s) in sessions {
      var i :| 0 <= i < |r.sessions| && r.sessions[i] == s;
      assert sessions[i] == SessionKeyOf(s);
    }
  }

  lemma RecordCallKeys(kind: Kind, r: NormResult)
    ensures KeySet(CallKeys(kind, r)) == kind.KeysIn(r)
  {
    hide SessionKeyOf;
    var keys := CallKeys(kind, r);
    if r.sessions != [] && kind.Models? {
      forall c | c in r.modelCalls ensures CallKey(SessionKeyOf(r.sessions[0]), c.index) in keys {
        var i :| 0 <= i < |r.modelCalls| && r.modelCalls[i] == c;
        assert keys[i] == CallKey(SessionKeyOf(r.sessions[0]), c.index);
      }
    }
    if r.sessions != [] && kind.Tools? {
      forall c | c in r.toolCalls ensures CallKey(SessionKeyOf(r.sessions[0]), c.index) in keys {
        var i :| 0 <= i < |r.toolCalls| && r.toolCalls[i] == c;
        assert keys[i] == CallKey(SessionKeyOf(r.sessions[0]), c.index);
      }
    }
  }

  lemma {:induction false} FileSessionKeys(results: seq<NormResult>)
    ensures KeySet(SessionKeySeq(results)) == SessionKeys(results) && |SessionKeySeq(results)| == |AllFor(results, "session")|
  {
    hide KeySet, SessionKeyOf, ModelCallKeys, ToolCallKeys;
    if results == [] {
      NoKeys();
    } else {
      var n := |results| - 1;
      var r := results[n];
      FileSessionKeys(results[..n]);
      RecordSessionKeys(r);
      KeySetConcat(SessionKeySeq(results[..n]), seq(|r.sessions|, i requires 0 <= i < |r.sessions| => SessionKeyOf(r.sessions[i])));
    }
  }

  lemma CallKeyCount(kind: Kind, r: NormResult, line: nat)
    requires CleanAt(r, line)
    ensures |CallKeys(kind, r)| == |EntitiesFor(r, kind.Target())|
  {
    hide CleanAt, SessionKeyOf;
    CleanTags(r, line);
    Targets();
  }

  lemma Targets()
    ensures Models.Target() != "session" && Tools.Target() != "session" && Tools.Target() != "model_call"
  {
    assert "session"[0] != "model_call"[0] && "session"[0] != "tool_call"[0] && "model_call"[0] != "tool_call"[0];
  }

  lemma {:induction false} FileKeySet(kind: Kind, results: seq<NormResult>)
    ensures KeySet(CallKeySeq(kind, results)) == kind.KeysOf(results)
  {
    hide KeySet, CallKeys, ModelCallKeys, ToolCallKeys;
    if results == [] {
      NoKeys();
    } else {
      var n := |results| - 1;
      FileKeySet(kind, results[..n]);
      RecordCallKeys(kind, results[n]);
      KeySetConcat(CallKeySeq(kind, results[..n]), CallKeys(kind, results[n]));
    }
  }

  lemma {:induction false} FileCallCount(kind: Kind, results: seq<NormResult>, start: nat)
    requires Clean(results, start)
    ensures |CallKeySeq(kind, results)| == |AllFor(results, kind.Target())|
  {
    hide CleanAt, CallKeys, EntitiesFor;
    if results != [] {
      FileCallCount(kind, results[..|results| - 1], start);
      CallKeyCount(kind, results[|results| - 1], start + |results| - 1);
    }
  }

  /** The calls a file announces, against the keys it adds: each is stored or
      its key was taken. */
  lemma CallsStored(kind: Kind, pass: Pass, db: Db)
    requires KnownTargets(pass.mapping) && NewRun(db, pass.run, |pass.records|)
    ensures |AllFor(pass.Results(), kind.Target())| ==
            |kind.Held(pass.On(db))| - |kind.Held(db)| + Taken(kind.Held(db), CallKeySeq(kind, pass.Results()))
  {
    hide ImportLines, ResultsOf, Clean, KnownTargets, NewRun, AllFor, KeySet, Taken, CallKeySeq, SessionKeys, ModelKeysOf, ToolKeysOf;
    var results := pass.Results();
    ResultsClean(pass.rt, pass.mapping, pass.source, 1, pass.records);
    KeysAfter(db, pass.run, pass.records, results);
    FileKeySet(kind, results);
    FileCallCount(kind, results, 1);
    NewOrTaken(kind.Held(db), CallKeySeq(kind, results));
  }

  lemma NoKeys()
    ensures KeySet<SessionKey>([]) == {} && KeySet<CallKey>([]) == {}
  {
  }

  lemma ImportedIs(db: Db, run: nat, records: seq<Value>, results: seq<NormResult>)
    requires |records| == |results|
    ensures var after, report := ImportLines(db, run, 1, records, results), ReportOf(db, run, 1, records, results);
            && report.imported == |after.sessions.Keys| - |db.sessions.Keys| + |after.modelCalls.Keys| - |db.modelCalls.Keys|
                                  + |after.toolCalls.Keys| - |db.toolCalls.Keys|
            && report.rejected == RejectedLines(results)
  {
    hide ImportLines, RepeatedSessions, FreshCalls, RejectedLines;
  }

  /** Preview agrees with import: on the same records and mapping, the preview's
      issues and rejected lines are those of the run, and the entities it
      announces are those a new run imports and those whose key was taken. */
  lemma {:induction false} PreviewAgrees(pass: Pass, db: Db)
    requires KnownTargets(pass.mapping) && NewRun(db, pass.run, |pass.records|)
    ensures var seen := ResultsOf(pass.rt, pass.mapping, 0, 1, pass.records);
            var results, report := pass.Results(), ReportOf(db, pass.run, 1, pass.records, pass.Results());
            && RejectedLines(seen) == report.rejected <= |pass.records|
            && IssuesOf(seen) == IssuesOf(results)
            && |AllFor(seen, "session")| + |AllFor(seen, "model_call")| + |AllFor(seen, "tool_call")|
               == report.imported + Taken(db.sessions.Keys, SessionKeySeq(results))
                  + Taken(db.modelCalls.Keys, CallKeySeq(Models, results)) + Taken(db.toolCalls.Keys, CallKeySeq(Tools, results))
  {
    hide ImportLines, ResultsOf, Clean, KnownTargets, NewRun, ReportOf, RejectedLines, IssuesOf, AllFor, KeySet, Taken,
         SessionKeySeq, CallKeySeq, SessionKeys, ModelKeysOf, ToolKeysOf;
    var results := pass.Results();
    SameAccount(pass.rt, pass.mapping, pass.source, 0, 1, pass.records);
    ResultsClean(pass.rt, pass.mapping, pass.source, 1, pass.records);
    RejectedAtMost(results);
    ImportedIs(db, pass.run, pass.records, results);
    KeysAfter(db, pass.run, pass.records, results);
    FileSessionKeys(results);
    NewOrTaken(db.sessions.Keys, SessionKeySeq(results));
    CallsStored(Models, pass, db);
    CallsStored(Tools, pass, db);
  }
}
