/**
 The bookkeeping of a batch: that the ids handed back by the inserts link every
 call to the session of its own record, and what the counters of a run mean as
 a function of the store, the file and nothing else.
 */
module Reporting {
  import opened Values
  import opened Mappings
  import opened EngineLaws
  import opened Normalizer
  import opened NormalizerLaws
  import opened References
  import opened Store
  import opened Importing

  // -------------------------------------------------------------- one record

  /** Rows that name one session are all linked to it, each in its place. */
  lemma {:induction false} AllLinked<V>(rows: seq<CallRow<V>>, tag: Tag, key: SessionKey, ids: map<Tag, SessionKey>)
    requires forall i :: 0 <= i < |rows| ==> rows[i].session == tag
    requires rows != [] ==> tag in ids && ids[tag] == key
    ensures |Linked(rows, ids)| == |rows| && Unlinked(rows, ids) == []
    ensures forall i :: 0 <= i < |rows| ==> Linked(rows, ids)[i] == Row(rows[i].id, CallKey(key, rows[i].index), rows[i].value)
  {
    if rows != [] {
      AllLinked(rows[..|rows| - 1], tag, key, ids);
    }
  }

  lemma {:induction false} ModelRowsAre(calls: seq<ModelCall>, raw: RawKey, refs: Referentials)
    ensures |ModelRows(calls, raw, refs)| == |calls|
    ensures forall i :: 0 <= i < |calls| ==> ModelRows(calls, raw, refs)[i] == ModelRow(calls[i], raw, refs)
  {
    hide ModelRow;
    if calls != [] {
      ModelRowsAre(calls[..|calls| - 1], raw, refs);
    }
  }

  lemma {:induction false} ToolRowsAre(calls: seq<ToolCall>, raw: RawKey, refs: Referentials)
    ensures |ToolRows(calls, raw, refs)| == |calls|
    ensures forall i :: 0 <= i < |calls| ==> ToolRows(calls, raw, refs)[i] == ToolRow(calls[i], raw, ToolId(refs, calls[i]))
  {
    hide ToolRow, ToolId;
    if calls != [] {
      ToolRowsAre(calls[..|calls| - 1], raw, refs);
    }
  }

  /** The calls of a record are all linked, each to the record's session. */
  lemma RecordModels(calls: seq<ModelCall>, raw: RawKey, refs: Referentials, tag: Tag, key: SessionKey, ids: map<Tag, SessionKey>)
    requires forall i :: 0 <= i < |calls| ==> calls[i].session == tag
    requires calls != [] ==> tag in ids && ids[tag] == key
    ensures var rows := ModelRows(calls, raw, refs);
            && |Linked(rows, ids)| == |calls| && Unlinked(rows, ids) == []
            && forall i :: 0 <= i < |calls| ==>
                 Linked(rows, ids)[i] == Row(calls[i].id, CallKey(key, calls[i].index), ModelRow(calls[i], raw, refs).value)
  {
    hide ModelRows, Linked, Unlinked, ModelKey, IdOf;
    ModelRowsAre(calls, raw, refs);
    AllLinked(ModelRows(calls, raw, refs), tag, key, ids);
  }

  lemma RecordTools(calls: seq<ToolCall>, raw: RawKey, refs: Referentials, tag: Tag, key: SessionKey, ids: map<Tag, SessionKey>)
    requires forall i :: 0 <= i < |calls| ==> calls[i].session == tag
    requires calls != [] ==> tag in ids && ids[tag] == key
    ensures var rows := ToolRows(calls, raw, refs);
            && |Linked(rows, ids)| == |calls| && Unlinked(rows, ids) == []
            && forall i :: 0 <= i < |calls| ==>
                 Linked(rows, ids)[i] == Row(calls[i].id, CallKey(key, calls[i].index),
                                             ToolFact(raw, ToolId(refs, calls[i]), calls[i].status, calls[i].columns))
  {
    hide ToolRows, Linked, Unlinked, ToolKey, ToolId;
    ToolRowsAre(calls, raw, refs);
    AllLinked(ToolRows(calls, raw, refs), tag, key, ids);
  }

  /** What `CleanAt` says of the tags of a record. */
  lemma CleanTags(r: NormResult, line: nat)
    requires CleanAt(r, line)
    ensures var tag := Tag(Some(line), "session", 0);
            && |r.sessions| <= 1 && (r.sessions != [] ==> r.sessions[0].id == tag)
            && (r.sessions == [] ==> r.modelCalls == [] && r.toolCalls == [])
            && (forall i :: 0 <= i < |r.modelCalls| ==>
                  r.modelCalls[i].session == tag && r.modelCalls[i].id == Tag(Some(line), "model_call", r.modelCalls[i].id.index))
            && (forall i :: 0 <= i < |r.toolCalls| ==>
                  r.toolCalls[i].session == tag && r.toolCalls[i].id == Tag(Some(line), "tool_call", r.toolCalls[i].id.index))
            && (forall i, j :: 0 <= i < j < |r.modelCalls| ==> r.modelCalls[i].id != r.modelCalls[j].id)
            && (forall i, j :: 0 <= i < j < |r.toolCalls| ==> r.toolCalls[i].id != r.toolCalls[j].id)
  {
    hide AgentKey, ModelKey, ToolKey, Asked;
  }

  // ------------------------------------------------------------------ linking

  lemma LastLinked<V>(rows: seq<CallRow<V>>, row: CallRow<V>, ids: map<Tag, SessionKey>)
    ensures Linked(rows + [row], ids) == Linked(rows, ids) + if row.session in ids then [LinkedRow(row, ids)] else []
    ensures Unlinked(rows + [row], ids) == Unlinked(rows, ids) + if row.session in ids then [] else [row.id]
  {
    hide LinkedRow;
    assert (rows + [row])[..|rows|] == rows;
  }

  lemma {:induction false} LinkConcat<V>(a: seq<CallRow<V>>, b: seq<CallRow<V>>, ids: map<Tag, SessionKey>)
    ensures Linked(a + b, ids) == Linked(a, ids) + Linked(b, ids)
    ensures Unlinked(a + b, ids) == Unlinked(a, ids) + Unlinked(b, ids)
    decreases |b|
  {
    if b == [] {
      NothingToLink<V>(ids);
      hide *;
      assert a + b == a;
    } else {
      hide *;
      var n := |b| - 1;
      assert a + b == (a + b[..n]) + [b[n]] && b == b[..n] + [b[n]];
      LastLinked(a + b[..n], b[n], ids);
      LastLinked(b[..n], b[n], ids);
      LinkConcat(a, b[..n], ids);
    }
  }

  /** `ids` gives the session of each fresh record the key it is stored under. */
  predicate Parented(raw: map<RawKey, Value>, run: nat, start: nat, results: seq<NormResult>, ids: map<Tag, SessionKey>) {
    forall i :: 0 <= i < |results| && Fresh(raw, run, start + i) && results[i].sessions != [] ==>
      results[i].sessions[0].id in ids && ids[results[i].sessions[0].id] == SessionKeyOf(results[i].sessions[0])
  }

  lemma RecordLinks(r: NormResult, line: nat, raw: RawKey, refs: Referentials, ids: map<Tag, SessionKey>)
    requires CleanAt(r, line)
    requires r.sessions != [] ==> r.sessions[0].id in ids && ids[r.sessions[0].id] == SessionKeyOf(r.sessions[0])
    ensures var models, tools := ModelRows(r.modelCalls, raw, refs), ToolRows(r.toolCalls, raw, refs);
            && Linked(models, ids) == Linked(models, Parents(r)) && Unlinked(models, ids) == []
            && Linked(tools, ids) == Linked(tools, Parents(r)) && Unlinked(tools, ids) == []
            && |Linked(models, ids)| == |r.modelCalls| && |Linked(tools, ids)| == |r.toolCalls|
  {
    hide CleanAt, ModelRows, ToolRows, Linked, Unlinked, ModelRow, ToolId;
    CleanTags(r, line);
    var tag := Tag(Some(line), "session", 0);
    var key := if r.sessions == [] then SessionKey(0, "") else SessionKeyOf(r.sessions[0]);
    RecordModels(r.modelCalls, raw, refs, tag, key, ids);
    RecordModels(r.modelCalls, raw, refs, tag, key, Parents(r));
    RecordTools(r.toolCalls, raw, refs, tag, key, ids);
    RecordTools(r.toolCalls, raw, refs, tag, key, Parents(r));
  }

  /** Linking a batch through the ids of its sessions links each record alone. */
  lemma {:induction false} BatchLinks(raw: map<RawKey, Value>, run: nat, start: nat, results: seq<NormResult>, refs: Referentials,
                                      ids: map<Tag, SessionKey>)
    requires Clean(results, start) && Parented(raw, run, start, results, ids)
    ensures var models, tools := BatchModels(raw, run, start, results, refs), BatchTools(raw, run, start, results, refs);
            && Linked(models, ids) == LinkedModels(raw, run, start, results, refs) && Unlinked(models, ids) == []
            && Linked(tools, ids) == LinkedTools(raw, run, start, results, refs) && Unlinked(tools, ids) == []
  {
    hide CleanAt, ModelRows, ToolRows, Parents, Fresh, Linked, Unlinked;
    if results == [] {
      NothingToLink<ModelFact>(ids);
      NothingToLink<ToolFact>(ids);
    } else {
      var n := |results| - 1;
      var r, key := results[n], RawKey(run, start + n);
      BatchLinks(raw, run, start, results[..n], refs, ids);
      if Fresh(raw, run, start + n) {
        RecordLinks(r, start + n, key, refs, ids);
        LinkConcat(BatchModels(raw, run, start, results[..n], refs), ModelRows(r.modelCalls, key, refs), ids);
        LinkConcat(BatchTools(raw, run, start, results[..n], refs), ToolRows(r.toolCalls, key, refs), ids);
      } else {
        assert BatchModels(raw, run, start, results, refs) == BatchModels(raw, run, start, results[..n], refs);
        assert BatchTools(raw, run, start, results, refs) == BatchTools(raw, run, start, results[..n], refs);
      }
    }
  }

  lemma NothingToLink<V>(ids: map<Tag, SessionKey>)
    ensures Linked<V>([], ids) == [] && Unlinked<V>([], ids) == []
  {
  }

  // ------------------------------------------------------------ distinct tags

  predicate Below<K, V>(rows: seq<Row<K, V>>, bound: nat) {
    forall i :: 0 <= i < |rows| ==> rows[i].id.line.Some? && rows[i].id.line.value < bound
  }

  lemma DistinctConcat<K, V>(a: seq<Row<K, V>>, b: seq<Row<K, V>>, bound: nat)
    requires DistinctIds(a) && DistinctIds(b) && Below(a, bound)
    requires forall i :: 0 <= i < |b| ==> b[i].id.line == Some(bound)
    ensures DistinctIds(a + b) && Below(a + b, bound + 1)
  {
  }

  lemma BelowMore<K, V>(rows: seq<Row<K, V>>, bound: nat)
    requires Below(rows, bound)
    ensures Below(rows, bound + 1)
  {
  }

  lemma RecordDistinct(r: NormResult, line: nat, raw: RawKey, refs: Referentials)
    requires CleanAt(r, line)
    ensures var models, tools := Linked(ModelRows(r.modelCalls, raw, refs), Parents(r)), Linked(ToolRows(r.toolCalls, raw, refs), Parents(r));
            && DistinctIds(models) && (forall i :: 0 <= i < |models| ==> models[i].id.line == Some(line))
            && DistinctIds(tools) && (forall i :: 0 <= i < |tools| ==> tools[i].id.line == Some(line))
  {
    hide CleanAt, ModelRows, ToolRows, Linked, Unlinked, ModelRow, ToolId;
    CleanTags(r, line);
    var tag := Tag(Some(line), "session", 0);
    var key := if r.sessions == [] then SessionKey(0, "") else SessionKeyOf(r.sessions[0]);
    RecordModels(r.modelCalls, raw, refs, tag, key, Parents(r));
    RecordTools(r.toolCalls, raw, refs, tag, key, Parents(r));
  }

  lemma {:induction false} CallsDistinct(raw: map<RawKey, Value>, run: nat, start: nat, results: seq<NormResult>, refs: Referentials)
    requires Clean(results, start)
    ensures var models, tools := LinkedModels(raw, run, start, results, refs), LinkedTools(raw, run, start, results, refs);
            && DistinctIds(models) && Below(models, start + |results|)
            && DistinctIds(tools) && Below(tools, start + |results|)
  {
    hide CleanAt, ModelRows, ToolRows, Parents, Fresh, Linked, DistinctIds, Below;
    if results == [] {
      NoneDistinct<CallKey, ModelFact>(start);
      NoneDistinct<CallKey, ToolFact>(start);
    } else {
      var n := |results| - 1;
      var r, key := results[n], RawKey(run, start + n);
      CallsDistinct(raw, run, start, results[..n], refs);
      var models, tools := LinkedModels(raw, run, start, results[..n], refs), LinkedTools(raw, run, start, results[..n], refs);
      if Fresh(raw, run, start + n) {
        RecordDistinct(r, start + n, key, refs);
        DistinctConcat(models, Linked(ModelRows(r.modelCalls, key, refs), Parents(r)), start + n);
        DistinctConcat(tools, Linked(ToolRows(r.toolCalls, key, refs), Parents(r)), start + n);
      } else {
        BelowMore(models, start + n);
        BelowMore(tools, start + n);
        assert models + [] == models && tools + [] == tools;
      }
    }
  }

  lemma NoneDistinct<K, V>(bound: nat)
    ensures DistinctIds<K, V>([]) && Below<K, V>([], bound)
  {
  }

  lemma OneSession(r: NormResult, line: nat, raw: RawKey, refs: Referentials)
    requires CleanAt(r, line)
    ensures SessionRows(r.sessions, raw, refs) == if r.sessions == [] then [] else [SessionRow(r.sessions[0], raw, refs)]
    ensures r.sessions != [] ==> r.sessions[0].id.line == Some(line)
  {
    hide CleanAt, SessionRow;
    CleanTags(r, line);
    if r.sessions != [] {
      assert r.sessions[..0] == [] && SessionRows(r.sessions[..0], raw, refs) == [];
    }
  }

  lemma {:induction false} SessionsApart(raw: map<RawKey, Value>, run: nat, start: nat, results: seq<NormResult>, refs: Referentials)
    requires Clean(results, start)
    ensures var rows := BatchSessions(raw, run, start, results, refs); DistinctIds(rows) && Below(rows, start + |results|)
  {
    hide CleanAt, SessionRows, SessionRow, Fresh, DistinctIds, Below;
    if results == [] {
      NoneDistinct<SessionKey, SessionFact>(start);
    } else {
      var n := |results| - 1;
      var r, key := results[n], RawKey(run, start + n);
      SessionsApart(raw, run, start, results[..n], refs);
      var before := BatchSessions(raw, run, start, results[..n], refs);
      if Fresh(raw, run, start + n) {
        OneSession(r, start + n, key, refs);
        OneDistinct(SessionRows(r.sessions, key, refs));
        IdOfSessionRow(r, key, refs);
        DistinctConcat(before, SessionRows(r.sessions, key, refs), start + n);
      } else {
        BelowMore(before, start + n);
        assert before + [] == before;
      }
    }
  }

  /** The session of a fresh line is among the rows of its batch. */
  lemma {:induction false} SessionIsThere(raw: map<RawKey, Value>, run: nat, start: nat, results: seq<NormResult>, refs: Referentials, i: nat)
    requires Clean(results, start) && i < |results| && Fresh(raw, run, start + i) && results[i].sessions != []
    ensures SessionRow(results[i].sessions[0], RawKey(run, start + i), refs) in BatchSessions(raw, run, start, results, refs)
  {
    hide CleanAt, SessionRows, SessionRow, Fresh;
    var n := |results| - 1;
    if i < n {
      SessionIsThere(raw, run, start, results[..n], refs, i);
    } else {
      OneSession(results[i], start + i, RawKey(run, start + i), refs);
    }
  }

  lemma SessionsDistinct(raw: map<RawKey, Value>, run: nat, start: nat, results: seq<NormResult>, refs: Referentials)
    requires Clean(results, start)
    ensures var rows := BatchSessions(raw, run, start, results, refs);
            && DistinctIds(rows) && Below(rows, start + |results|)
            && forall i :: 0 <= i < |results| && Fresh(raw, run, start + i) && results[i].sessions != [] ==>
                 SessionRow(results[i].sessions[0], RawKey(run, start + i), refs) in rows
  {
    hide *;
    SessionsApart(raw, run, start, results, refs);
    forall i | 0 <= i < |results| && Fresh(raw, run, start + i) && results[i].sessions != []
      ensures SessionRow(results[i].sessions[0], RawKey(run, start + i), refs) in BatchSessions(raw, run, start, results, refs)
    {
      SessionIsThere(raw, run, start, results, refs, i);
    }
  }

  lemma IdOfSessionRow(r: NormResult, raw: RawKey, refs: Referentials)
    ensures r.sessions != [] ==>
              && SessionRow(r.sessions[0], raw, refs).id == r.sessions[0].id
              && SessionRow(r.sessions[0], raw, refs).key == SessionKeyOf(r.sessions[0])
              && SessionRow(r.sessions[0], raw, refs).value.run == raw.run
  {
  }

  lemma OneDistinct<K, V>(rows: seq<Row<K, V>>)
    requires |rows| <= 1
    ensures DistinctIds(rows)
  {
  }

  /** The ids a batch's session insert hands back parent all its calls. */
  lemma {:induction false} BatchParented(db: Db, run: nat, start: nat, results: seq<NormResult>, refs: Referentials)
    requires Clean(results, start)
    ensures var rows := BatchSessions(db.raw, run, start, results, refs);
            Parented(db.raw, run, start, results, Found(db.sessions, rows) + Written(db.sessions, rows))
  {
    hide Clean, BatchSessions, Fresh, SessionRow, DistinctIds, Below, Found, Written, IdsOf, SessionKeyOf;
    var rows := BatchSessions(db.raw, run, start, results, refs);
    SessionsDistinct(db.raw, run, start, results, refs);
    OutcomeCovers(db.sessions, rows);
    forall i | 0 <= i < |results| && Fresh(db.raw, run, start + i) && results[i].sessions != []
      ensures var ids := Found(db.sessions, rows) + Written(db.sessions, rows);
              results[i].sessions[0].id in ids && ids[results[i].sessions[0].id] == SessionKeyOf(results[i].sessions[0])
    {
      var row := SessionRow(results[i].sessions[0], RawKey(run, start + i), refs);
      IdOfSessionRow(results[i], RawKey(run, start + i), refs);
      var k :| 0 <= k < |rows| && rows[k] == row;
    }
  }

  // ----------------------------------------------------------------- counters

  function CallsOf(r: NormResult): nat {
    |r.modelCalls| + |r.toolCalls|
  }

  /** Calls on the lines the run has not stored yet. */
  function FreshCalls(raw: map<RawKey, Value>, run: nat, start: nat, results: seq<NormResult>): nat {
    if results == [] then 0
    else
      var n := |results| - 1;
      FreshCalls(raw, run, start, results[..n]) + (if Fresh(raw, run, start + n) then CallsOf(results[n]) else 0)
  }

  /** Natural keys of the sessions on those lines. */
  function FreshKeys(raw: map<RawKey, Value>, run: nat, start: nat, results: seq<NormResult>): set<SessionKey> {
    if results == [] then {}
    else
      var n := |results| - 1;
      FreshKeys(raw, run, start, results[..n]) +
      (if Fresh(raw, run, start + n) then set s | s in results[n].sessions :: SessionKeyOf(s) else {})
  }

  /** The sessions among them that another run has stored. */
  function RepeatedSessions(db: Db, run: nat, start: nat, results: seq<NormResult>): set<SessionKey> {
    set key | key in FreshKeys(db.raw, run, start, results) && key in db.sessions && db.sessions[key].run != run
  }

  function RejectedLines(results: seq<NormResult>): nat {
    if results == [] then 0
    else RejectedLines(results[..|results| - 1]) + (if SomeRejected(results[|results| - 1].issues) then 1 else 0)
  }

  function CallSize(db: Db): nat { |db.modelCalls| + |db.toolCalls| }

  function FactSize(db: Db): nat { |db.sessions| + CallSize(db) }

  datatype Report = Report(read: nat, imported: int, duplicate: int, rejected: nat)

  /** The report of a run, from the store before it and the records read: rows
      imported are the natural keys gained; duplicates are the sessions another
      run stored, once each, and the calls that repeat one. */
  function ReportOf(db: Db, run: nat, start: nat, records: seq<Value>, results: seq<NormResult>): Report
    requires |records| == |results|
  {
    var after := ImportLines(db, run, start, records, results);
    Report(|records|,
           FactSize(after) - FactSize(db),
           |RepeatedSessions(db, run, start, results)| + FreshCalls(db.raw, run, start, results) - (CallSize(after) - CallSize(db)),
           RejectedLines(results))
  }

  function Plus(a: Report, b: Report): Report {
    Report(a.read + b.read, a.imported + b.imported, a.duplicate + b.duplicate, a.rejected + b.rejected)
  }

  // ------------------------------------------ what one batch adds to them

  lemma KeysConcat<K, V>(a: seq<Row<K, V>>, b: seq<Row<K, V>>)
    ensures KeysOf(a + b) == KeysOf(a) + KeysOf(b)
  {
    if b == [] {
      assert a + b == a;
    } else {
      assert (a + b)[..|a + b| - 1] == a + b[..|b| - 1];
      KeysConcat(a, b[..|b| - 1]);
    }
  }

  lemma RecordSessionKeys(r: NormResult, line: nat, raw: RawKey, refs: Referentials)
    requires CleanAt(r, line)
    ensures KeysOf(SessionRows(r.sessions, raw, refs)) == set s | s in r.sessions :: SessionKeyOf(s)
    ensures forall i :: 0 <= i < |SessionRows(r.sessions, raw, refs)| ==> SessionRows(r.sessions, raw, refs)[i].value.run == raw.run
  {
    hide CleanAt, SessionRow, SessionRows, SessionKeyOf, KeysOf;
    CleanTags(r, line);
    OneSession(r, line, raw, refs);
    IdOfSessionRow(r, raw, refs);
    KeysAreThoseOfRows(SessionRows(r.sessions, raw, refs));
    if r.sessions != [] {
      assert SessionRows(r.sessions, raw, refs)[0] == SessionRow(r.sessions[0], raw, refs);
      assert (set s | s in r.sessions :: SessionKeyOf(s)) == {SessionKeyOf(r.sessions[0])};
    }
  }

  lemma {:induction false} BatchKeys(raw: map<RawKey, Value>, run: nat, start: nat, results: seq<NormResult>, refs: Referentials)
    requires Clean(results, start)
    ensures var rows := BatchSessions(raw, run, start, results, refs);
            && KeysOf(rows) == FreshKeys(raw, run, start, results)
            && forall i :: 0 <= i < |rows| ==> rows[i].value.run == run
  {
    hide CleanAt, SessionRows, Fresh, SessionKeyOf;
    if results != [] {
      var n := |results| - 1;
      BatchKeys(raw, run, start, results[..n], refs);
      if Fresh(raw, run, start + n) {
        RecordSessionKeys(results[n], start + n, RawKey(run, start + n), refs);
        KeysConcat(BatchSessions(raw, run, start, results[..n], refs), SessionRows(results[n].sessions, RawKey(run, start + n), refs));
      } else {
        assert BatchSessions(raw, run, start, results, refs) == BatchSessions(raw, run, start, results[..n], refs);
      }
    }
  }

  lemma {:induction false} BatchCalls(raw: map<RawKey, Value>, run: nat, start: nat, results: seq<NormResult>, refs: Referentials)
    requires Clean(results, start)
    ensures |LinkedModels(raw, run, start, results, refs)| + |LinkedTools(raw, run, start, results, refs)|
         == FreshCalls(raw, run, start, results)
  {
    hide CleanAt, ModelRows, ToolRows, Linked, Parents, Fresh;
    if results != [] {
      var n := |results| - 1;
      BatchCalls(raw, run, start, results[..n], refs);
      var r := results[n];
      CleanTags(r, start + n);
      ParentsOf(r);
      RecordLinks(r, start + n, RawKey(run, start + n), refs, Parents(r));
    }
  }

  lemma ParentsOf(r: NormResult)
    ensures r.sessions != [] ==>
              r.sessions[0].id in Parents(r) && Parents(r)[r.sessions[0].id] == SessionKeyOf(r.sessions[0])
  {
  }

  /** The keys of `rows` that a run other than this one has stored. */
  function ForeignKeys(table: map<SessionKey, SessionFact>, rows: seq<Row<SessionKey, SessionFact>>, run: nat): set<SessionKey> {
    set key | key in KeysOf(rows) && key in table && table[key].run != run
  }

  function KeysNamed(ids: seq<Tag>, found: map<Tag, SessionKey>): set<SessionKey>
    requires forall id :: id in ids ==> id in found
  {
    set id | id in ids :: found[id]
  }

  lemma NamedMore(ids: seq<Tag>, found: map<Tag, SessionKey>, more: map<Tag, SessionKey>)
    requires forall id :: id in ids ==> id in found
    requires forall id :: id in found ==> id in more && more[id] == found[id]
    ensures KeysNamed(ids, more) == KeysNamed(ids, found)
  {
    forall key ensures key in KeysNamed(ids, more) <==> key in KeysNamed(ids, found) {
      if key in KeysNamed(ids, more) {
        var id :| id in ids && more[id] == key;
        assert found[id] == key;
      }
      if key in KeysNamed(ids, found) {
        var id :| id in ids && found[id] == key;
        assert more[id] == key;
      }
    }
  }

  lemma NamedSnoc(ids: seq<Tag>, id: Tag, found: map<Tag, SessionKey>)
    requires id in found && forall i :: i in ids ==> i in found
    ensures KeysNamed(ids + [id], found) == KeysNamed(ids, found) + {found[id]}
  {
    forall key ensures key in KeysNamed(ids + [id], found) <==> key in KeysNamed(ids, found) || key == found[id] {
      if key in KeysNamed(ids + [id], found) {
        var i :| i in ids + [id] && found[i] == key;
      }
      if key in KeysNamed(ids, found) {
        var i :| i in ids && found[i] == key;
        assert i in ids + [id];
      }
      assert id in ids + [id];
    }
  }

  lemma ForeignSnoc(table: map<SessionKey, SessionFact>, rows: seq<Row<SessionKey, SessionFact>>, run: nat)
    requires rows != []
    ensures var n := |rows| - 1;
            var key := rows[n].key;
            ForeignKeys(table, rows, run)
            == ForeignKeys(table, rows[..n], run) + (if key in table && table[key].run != run then {key} else {})
  {
  }

  /** The rows reported as duplicates name the keys another run had stored. */
  lemma {:induction false} DuplicateKeys(table: map<SessionKey, SessionFact>, rows: seq<Row<SessionKey, SessionFact>>, run: nat)
    requires DistinctIds(rows) && forall i :: 0 <= i < |rows| ==> rows[i].value.run == run
    ensures forall id :: id in SessionDuplicates(table, rows) ==> id in Found(table, rows)
    ensures KeysNamed(SessionDuplicates(table, rows), Found(table, rows)) == ForeignKeys(table, rows, run)
  {
    hide KeysNamed, ForeignKeys, InsertAll;
    if rows == [] {
      NothingNamed(table, run);
    } else {
      var n := |rows| - 1;
      var row, before := rows[n], rows[..n];
      LastIdIsNew(rows);
      OutcomeSplits(table, before);
      InsertKeys(table, before);
      DuplicateKeys(table, before, run);
      ForeignSnoc(table, rows, run);
      NamedMore(SessionDuplicates(table, before), Found(table, before), Found(table, rows));
      if row.key in table && row.key !in KeysOf(before) && table[row.key].run != run {
        NamedSnoc(SessionDuplicates(table, before), row.id, Found(table, rows));
      } else {
        assert SessionDuplicates(table, rows) == SessionDuplicates(table, before);
        AlreadyForeign(table, before, run, row.key);
      }
    }
  }

  lemma NothingNamed(table: map<SessionKey, SessionFact>, run: nat)
    ensures KeysNamed([], Found<SessionKey, SessionFact>(table, [])) == ForeignKeys(table, [], run)
  {
  }

  lemma AlreadyForeign(table: map<SessionKey, SessionFact>, rows: seq<Row<SessionKey, SessionFact>>, run: nat, key: SessionKey)
    ensures key in KeysOf(rows) && key in table && table[key].run != run ==> key in ForeignKeys(table, rows, run)
  {
  }

  /** The counters of one batch, from the outcomes of its three inserts. */
  lemma {:induction false} BatchCounts(db: Db, run: nat, start: nat, records: seq<Value>, results: seq<NormResult>)
    requires |records| == |results| && Clean(results, start)
    ensures var refs := ResolveAll(db.refs, Requests(results));
            var sessions := BatchSessions(db.raw, run, start, results, refs);
            var models := LinkedModels(db.raw, run, start, results, refs);
            var tools := LinkedTools(db.raw, run, start, results, refs);
            var report := ReportOf(db, run, start, records, results);
            && |Written(db.sessions, sessions)| + |Written(db.modelCalls, models)| + |Written(db.toolCalls, tools)| == report.imported
            && |RepeatedSessions(db, run, start, results)| + |CallDuplicates(db.modelCalls, models)| + |CallDuplicates(db.toolCalls, tools)|
               == report.duplicate
            && (forall id :: id in SessionDuplicates(db.sessions, sessions) ==> id in Found(db.sessions, sessions))
            && KeysNamed(SessionDuplicates(db.sessions, sessions), Found(db.sessions, sessions))
               == RepeatedSessions(db, run, start, results)
  {
    hide ImportLines, BatchSessions, LinkedModels, LinkedTools, ResolveAll, Clean, Requests, InsertAll, Written, Found,
         CallDuplicates, SessionDuplicates, DistinctIds, Below, FreshCalls, FreshKeys, RawRows, KeysOf, KeysNamed;
    BatchIsLines(db, run, start, records, results);
    var refs := ResolveAll(db.refs, Requests(results));
    var sessions := BatchSessions(db.raw, run, start, results, refs);
    var models := LinkedModels(db.raw, run, start, results, refs);
    var tools := LinkedTools(db.raw, run, start, results, refs);
    SessionsDistinct(db.raw, run, start, results, refs);
    CallsDistinct(db.raw, run, start, results, refs);
    WrittenCounts(db.sessions, sessions);
    WrittenCounts(db.modelCalls, models);
    WrittenCounts(db.toolCalls, tools);
    CallDuplicatesCount(db.modelCalls, models);
    CallDuplicatesCount(db.toolCalls, tools);
    BatchCalls(db.raw, run, start, results, refs);
    BatchKeys(db.raw, run, start, results, refs);
    DuplicateKeys(db.sessions, sessions, run);
  }

  // --------------------------------------------- and that batches add up

  lemma {:induction false} FreshConcat(raw: map<RawKey, Value>, later: map<RawKey, Value>, run: nat, start: nat,
                                       a: seq<NormResult>, b: seq<NormResult>)
    requires forall line :: line >= start + |a| ==> (Fresh(later, run, line) <==> Fresh(raw, run, line))
    ensures FreshCalls(raw, run, start, a + b) == FreshCalls(raw, run, start, a) + FreshCalls(later, run, start + |a|, b)
    ensures FreshKeys(raw, run, start, a + b) == FreshKeys(raw, run, start, a) + FreshKeys(later, run, start + |a|, b)
    ensures RejectedLines(a + b) == RejectedLines(a) + RejectedLines(b)
    decreases |b|
  {
    hide Fresh, SessionKeyOf, SomeRejected;
    if b == [] {
      assert a + b == a;
    } else {
      var n := |b| - 1;
      assert (a + b)[..|a + b| - 1] == a + b[..n] && (a + b)[|a + b| - 1] == b[n];
      FreshConcat(raw, later, run, start, a, b[..n]);
    }
  }

  /** A run changes no stored session, and the ones it adds are its own. */
  lemma {:induction false} OwnSessions(db: Db, run: nat, start: nat, records: seq<Value>, results: seq<NormResult>)
    requires |records| == |results| && Clean(results, start)
    ensures var after := ImportLines(db, run, start, records, results).sessions;
            && after.Keys == db.sessions.Keys + FreshKeys(db.raw, run, start, results)
            && (forall key :: key in db.sessions ==> after[key] == db.sessions[key])
            && forall key :: key in after && key !in db.sessions ==> after[key].run == run
  {
    hide ImportLines, BatchSessions, LinkedModels, LinkedTools, ResolveAll, Clean, Requests, RawRows, FreshKeys, InsertAll, KeysOf;
    BatchIsLines(db, run, start, records, results);
    var refs := ResolveAll(db.refs, Requests(results));
    var rows := BatchSessions(db.raw, run, start, results, refs);
    BatchKeys(db.raw, run, start, results, refs);
    InsertKeys(db.sessions, rows);
    InsertedFrom(db.sessions, rows, run);
  }

  lemma {:induction false} InsertedFrom(table: map<SessionKey, SessionFact>, rows: seq<Row<SessionKey, SessionFact>>, run: nat)
    requires forall i :: 0 <= i < |rows| ==> rows[i].value.run == run
    ensures forall key :: key in InsertAll(table, rows) && key !in table ==> InsertAll(table, rows)[key].run == run
  {
    if rows != [] {
      InsertedFrom(table, rows[..|rows| - 1], run);
    }
  }

  lemma RepeatedConcat(db: Db, middle: Db, run: nat, start: nat, a: seq<NormResult>, b: seq<NormResult>)
    requires FreshKeys(db.raw, run, start, a + b) == FreshKeys(db.raw, run, start, a) + FreshKeys(middle.raw, run, start + |a|, b)
    requires forall key :: key in db.sessions ==> key in middle.sessions && middle.sessions[key] == db.sessions[key]
    requires forall key :: key in middle.sessions && key !in db.sessions ==> middle.sessions[key].run == run
    ensures RepeatedSessions(db, run, start, a + b)
         == RepeatedSessions(db, run, start, a) + RepeatedSessions(middle, run, start + |a|, b)
  {
    hide FreshKeys;
  }

  /** The report of a file is the sum of its batches', sessions counted once. */
  lemma {:induction false} ReportStep(db: Db, run: nat, start: nat, recordsA: seq<Value>, a: seq<NormResult>,
                                      recordsB: seq<Value>, b: seq<NormResult>)
    requires |recordsA| == |a| && |recordsB| == |b|
    requires Clean(a, start) && Clean(b, start + |a|)
    ensures var middle := ImportLines(db, run, start, recordsA, a);
            var repeated := RepeatedSessions(db, run, start, a);
            var more := RepeatedSessions(middle, run, start + |a|, b);
            var first, second := ReportOf(db, run, start, recordsA, a), ReportOf(middle, run, start + |a|, recordsB, b);
            && RepeatedSessions(db, run, start, a + b) == repeated + more
            && ReportOf(db, run, start, recordsA + recordsB, a + b)
               == Plus(first, second).(duplicate := first.duplicate + second.duplicate - |more| + |more - repeated|)
  {
    hide ImportLines, Clean, FreshCalls, FreshKeys, RejectedLines, Fresh, RepeatedSessions;
    var middle := ImportLines(db, run, start, recordsA, a);
    ImportConcat(db, run, start, recordsA, a, recordsB, b);
    forall line | line >= start + |a| ensures Fresh(middle.raw, run, line) <==> Fresh(db.raw, run, line) {
      StillFresh(db, run, start, recordsA, a, line);
    }
    FreshConcat(db.raw, middle.raw, run, start, a, b);
    OwnSessions(db, run, start, recordsA, a);
    RepeatedConcat(db, middle, run, start, a, b);
    var repeated, more := RepeatedSessions(db, run, start, a), RepeatedSessions(middle, run, start + |a|, b);
    assert repeated + more == repeated + (more - repeated);
  }
}
