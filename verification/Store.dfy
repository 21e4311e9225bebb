/**
 The fact tables an import writes, keyed by their natural keys, and the batch
 inserts of the repositories. A row's database id is left out: the unique
 constraints make it a function of the natural key, which stands for it here.
 */
module Store {
  import opened Values
  import opened Normalizer
  import opened References

  datatype SessionKey = SessionKey(source: int, externalId: string)

  datatype CallKey = CallKey(session: SessionKey, index: int)

  datatype RawKey = RawKey(run: nat, line: nat)

  datatype SessionFact = SessionFact(run: nat, raw: RawKey, agent: Option<nat>, columns: map<string, Value>)

  datatype ModelFact = ModelFact(raw: RawKey, model: Option<nat>, status: string, columns: map<string, Value>)

  datatype ToolFact = ToolFact(raw: RawKey, tool: nat, status: string, columns: map<string, Value>)

  datatype Db = Db(
    raw: map<RawKey, Value>,
    sessions: map<SessionKey, SessionFact>,
    modelCalls: map<CallKey, ModelFact>,
    toolCalls: map<CallKey, ToolFact>,
    refs: Referentials)

  // ----------------------------------------------------------------- inserts

  /** A row on its way to a table: the tag of its entity, its key, its columns. */
  datatype Row<K, V> = Row(id: Tag, key: K, value: V)

  /** First writer wins: a key already there is left as it is. */
  function InsertAll<K, V>(table: map<K, V>, rows: seq<Row<K, V>>): map<K, V> {
    if rows == [] then table
    else
      var n := |rows| - 1;
      var before := InsertAll(table, rows[..n]);
      if rows[n].key in before then before else before[rows[n].key := rows[n].value]
  }

  function KeysOf<K, V>(rows: seq<Row<K, V>>): set<K> {
    if rows == [] then {} else KeysOf(rows[..|rows| - 1]) + {rows[|rows| - 1].key}
  }

  lemma KeyOfRow<K, V>(rows: seq<Row<K, V>>, i: nat)
    requires i < |rows|
    ensures rows[i].key in KeysOf(rows)
  {
    if i < |rows| - 1 {
      KeyOfRow(rows[..|rows| - 1], i);
    }
  }

  lemma RowOfKey<K, V>(rows: seq<Row<K, V>>, key: K) returns (i: nat)
    requires key in KeysOf(rows)
    ensures i < |rows| && rows[i].key == key
  {
    i := |rows| - 1;
    if rows[i].key != key {
      i := RowOfKey(rows[..i], key);
    }
  }

  lemma {:induction false} KeysAreThoseOfRows<K, V>(rows: seq<Row<K, V>>)
    ensures KeysOf(rows) == set i | 0 <= i < |rows| :: rows[i].key
  {
    if rows != [] {
      var n := |rows| - 1;
      KeysAreThoseOfRows(rows[..n]);
      assert forall i :: 0 <= i < n ==> rows[..n][i] == rows[i];
    }
  }

  /** An insertion adds exactly the keys that are missing, and changes no row. */
  lemma {:induction false} InsertKeys<K, V>(table: map<K, V>, rows: seq<Row<K, V>>)
    ensures InsertAll(table, rows).Keys == table.Keys + KeysOf(rows)
    ensures forall key :: key in table ==> InsertAll(table, rows)[key] == table[key]
  {
    if rows != [] {
      InsertKeys(table, rows[..|rows| - 1]);
    }
  }

  lemma NewKey<K, V>(table: map<K, V>, key: K, value: V)
    requires key !in table
    ensures |table[key := value]| == |table| + 1
  {
    assert table[key := value].Keys == table.Keys + {key};
  }

  lemma {:induction false} InsertConcat<K, V>(table: map<K, V>, a: seq<Row<K, V>>, b: seq<Row<K, V>>)
    ensures InsertAll(table, a + b) == InsertAll(InsertAll(table, a), b)
    decreases |b|
  {
    if b == [] {
      assert a + b == a;
    } else {
      var n := |b| - 1;
      assert (a + b)[..|a| + n] == a + b[..n];
      InsertConcat(table, a, b[..n]);
    }
  }

  /** Rows whose keys are all there change nothing. */
  lemma {:induction false} InsertPresent<K, V>(table: map<K, V>, rows: seq<Row<K, V>>)
    requires forall i :: 0 <= i < |rows| ==> rows[i].key in table
    ensures InsertAll(table, rows) == table
  {
    if rows != [] {
      InsertPresent(table, rows[..|rows| - 1]);
    }
  }

  // ---------------------------------------------------------------- outcomes

  /** `InsertOutcome`: what an insertion did, entity by entity. `written` is its
      `assigned`, and `found` its `existing`. */
  datatype Outcome<K> = Outcome(written: map<Tag, K>, found: map<Tag, K>, duplicates: seq<Tag>, unlinked: seq<Tag>)
  {
    /** Every entity's row, whether this call wrote it or found it. */
    function Ids(): map<Tag, K> {
      found + written
    }
  }

  /** The entities that wrote their row: the first of each key not yet stored. */
  function Written<K, V>(table: map<K, V>, rows: seq<Row<K, V>>): map<Tag, K> {
    if rows == [] then map[]
    else
      var n := |rows| - 1;
      if rows[n].key in InsertAll(table, rows[..n]) then Written(table, rows[..n])
      else Written(table, rows[..n])[rows[n].id := rows[n].key]
  }

  function Found<K, V>(table: map<K, V>, rows: seq<Row<K, V>>): map<Tag, K> {
    if rows == [] then map[]
    else
      var n := |rows| - 1;
      if rows[n].key in InsertAll(table, rows[..n]) then Found(table, rows[..n])[rows[n].id := rows[n].key]
      else Found(table, rows[..n])
  }

  predicate DistinctIds<K, V>(rows: seq<Row<K, V>>) {
    forall i, j :: 0 <= i < j < |rows| ==> rows[i].id != rows[j].id
  }

  function IdsOf<K, V>(rows: seq<Row<K, V>>): set<Tag> {
    if rows == [] then {} else IdsOf(rows[..|rows| - 1]) + {rows[|rows| - 1].id}
  }

  lemma IdOfRow<K, V>(rows: seq<Row<K, V>>, id: Tag) returns (i: nat)
    requires id in IdsOf(rows)
    ensures i < |rows| && rows[i].id == id
  {
    i := |rows| - 1;
    if rows[i].id != id {
      i := IdOfRow(rows[..i], id);
    }
  }

  lemma LastIdIsNew<K, V>(rows: seq<Row<K, V>>)
    requires rows != [] && DistinctIds(rows)
    ensures rows[|rows| - 1].id !in IdsOf(rows[..|rows| - 1]) && DistinctIds(rows[..|rows| - 1])
  {
    if rows[|rows| - 1].id in IdsOf(rows[..|rows| - 1]) {
      var _ := IdOfRow(rows[..|rows| - 1], rows[|rows| - 1].id);
    }
  }

  /** With fresh tags, `written` and `found` share the entities between them. */
  lemma {:induction false} OutcomeSplits<K, V>(table: map<K, V>, rows: seq<Row<K, V>>)
    requires DistinctIds(rows)
    ensures Written(table, rows).Keys + Found(table, rows).Keys == IdsOf(rows)
  {
    if rows != [] {
      LastIdIsNew(rows);
      OutcomeSplits(table, rows[..|rows| - 1]);
      hide InsertAll;
    }
  }

  /** `written` counts the rows the table gained. */
  lemma {:induction false} WrittenCounts<K, V>(table: map<K, V>, rows: seq<Row<K, V>>)
    requires DistinctIds(rows)
    ensures |Written(table, rows)| == |InsertAll(table, rows)| - |table|
  {
    if rows != [] {
      var n := |rows| - 1;
      LastIdIsNew(rows);
      OutcomeSplits(table, rows[..n]);
      WrittenCounts(table, rows[..n]);
      var before := InsertAll(table, rows[..n]);
      if rows[n].key !in before {
        NewKey(before, rows[n].key, rows[n].value);
        NewKey(Written(table, rows[..n]), rows[n].id, rows[n].key);
      }
    }
  }

  /** With fresh tags, every entity is given the key its row is stored under. */
  lemma {:induction false} OutcomeCovers<K, V>(table: map<K, V>, rows: seq<Row<K, V>>)
    requires DistinctIds(rows)
    ensures var ids := Found(table, rows) + Written(table, rows);
            && ids.Keys == IdsOf(rows)
            && forall i :: 0 <= i < |rows| ==> rows[i].id in ids && ids[rows[i].id] == rows[i].key
  {
    OutcomeSplits(table, rows);
    if rows != [] {
      var n := |rows| - 1;
      LastIdIsNew(rows);
      OutcomeSplits(table, rows[..n]);
      OutcomeCovers(table, rows[..n]);
      hide InsertAll;
      var before := Found(table, rows[..n]) + Written(table, rows[..n]);
      var ids := Found(table, rows) + Written(table, rows);
      assert forall id :: id in before ==> ids[id] == before[id];
      forall i | 0 <= i < |rows| ensures rows[i].id in ids && ids[rows[i].id] == rows[i].key {
        if i < n {
          assert rows[..n][i] == rows[i];
        }
      }
    }
  }

  // ------------------------------------------------------------ repositories

  /** Sessions stored by another run, each reported by its first row. */
  function SessionDuplicates(table: map<SessionKey, SessionFact>, rows: seq<Row<SessionKey, SessionFact>>): seq<Tag> {
    if rows == [] then []
    else
      var n := |rows| - 1;
      var key := rows[n].key;
      SessionDuplicates(table, rows[..n]) +
      (if key in table && key !in KeysOf(rows[..n]) && table[key].run != rows[n].value.run then [rows[n].id] else [])
  }

  /** A call is an event: every row that wrote nothing repeats one. */
  function CallDuplicates<V>(table: map<CallKey, V>, rows: seq<Row<CallKey, V>>): seq<Tag> {
    if rows == [] then []
    else
      var n := |rows| - 1;
      CallDuplicates(table, rows[..n]) + (if rows[n].key in InsertAll(table, rows[..n]) then [rows[n].id] else [])
  }

  lemma {:induction false} CallDuplicatesCount<V>(table: map<CallKey, V>, rows: seq<Row<CallKey, V>>)
    ensures |CallDuplicates(table, rows)| == |rows| - (|InsertAll(table, rows)| - |table|)
  {
    if rows != [] {
      var n := |rows| - 1;
      CallDuplicatesCount(table, rows[..n]);
      if rows[n].key !in InsertAll(table, rows[..n]) {
        NewKey(InsertAll(table, rows[..n]), rows[n].key, rows[n].value);
      }
    }
  }

  lemma {:induction false} FirstRowWins<K, V>(table: map<K, V>, rows: seq<Row<K, V>>, i: nat)
    requires i < |rows| && rows[i].key !in table && rows[i].key !in KeysOf(rows[..i])
    ensures rows[i].key in InsertAll(table, rows) && InsertAll(table, rows)[rows[i].key] == rows[i].value
  {
    var n := |rows| - 1;
    InsertKeys(table, rows[..n]);
    if i < n {
      assert rows[..n][..i] == rows[..i];
      FirstRowWins(table, rows[..n], i);
    }
  }

  /** A row is the first of its key when no earlier one has it. */
  lemma FirstOfKey<K, V>(table: map<K, V>, rows: seq<Row<K, V>>, i: nat)
    requires i < |rows| && rows[i].key !in table && forall j :: 0 <= j < i ==> rows[j].key != rows[i].key
    ensures rows[i].key in InsertAll(table, rows) && InsertAll(table, rows)[rows[i].key] == rows[i].value
  {
    hide InsertAll, KeysOf;
    KeysAreThoseOfRows(rows[..i]);
    FirstRowWins(table, rows, i);
  }

  /** `candidates`: the first row of each key. */
  predicate Firsts<K, V>(rows: seq<Row<K, V>>, candidates: map<K, nat>) {
    && candidates.Keys == KeysOf(rows)
    && forall key :: key in candidates ==>
         candidates[key] < |rows| && rows[candidates[key]].key == key && key !in KeysOf(rows[..candidates[key]])
  }

  method FirstRows<K, V>(rows: seq<Row<K, V>>) returns (candidates: map<K, nat>)
    ensures Firsts(rows, candidates)
  {
    candidates := map[];
    for i := 0 to |rows|
      invariant candidates.Keys == KeysOf(rows[..i])
      invariant forall key :: key in candidates ==>
                  candidates[key] < i && rows[candidates[key]].key == key && key !in KeysOf(rows[..candidates[key]])
    {
      assert rows[..i + 1][..i] == rows[..i];
      if rows[i].key !in candidates {
        candidates := candidates[rows[i].key := i];
      }
    }
    assert rows[..|rows|] == rows;
  }

  lemma IsFirst<K, V>(rows: seq<Row<K, V>>, candidates: map<K, nat>, i: nat)
    requires Firsts(rows, candidates) && i < |rows|
    ensures rows[i].key in candidates
    ensures candidates[rows[i].key] == i <==> rows[i].key !in KeysOf(rows[..i])
  {
    KeyOfRow(rows, i);
    var c := candidates[rows[i].key];
    if c < i {
      KeyOfRow(rows[..i], c);
    } else if i < c {
      KeyOfRow(rows[..c], i);
    }
  }

  /** `INSERT ... ON CONFLICT DO NOTHING` of the first row of each key. */
  method Insert<K, V>(table: map<K, V>, rows: seq<Row<K, V>>, candidates: map<K, nat>)
    returns (after: map<K, V>, written: set<K>)
    requires Firsts(rows, candidates)
    ensures after == InsertAll(table, rows)
    ensures written == KeysOf(rows) - table.Keys
  {
    written := candidates.Keys - table.Keys;
    after := table + (map key | key in written :: rows[candidates[key]].value);
    InsertKeys(table, rows);
    forall key | key in written ensures InsertAll(table, rows)[key] == rows[candidates[key]].value {
      FirstRowWins(table, rows, candidates[key]);
    }
  }

  /** `SqlAlchemySessionRepository.add_many`. */
  method AddSessions(table: map<SessionKey, SessionFact>, rows: seq<Row<SessionKey, SessionFact>>)
    returns (after: map<SessionKey, SessionFact>, outcome: Outcome<SessionKey>)
    ensures after == InsertAll(table, rows)
    ensures outcome == Outcome(Written(table, rows), Found(table, rows), SessionDuplicates(table, rows), [])
  {
    var candidates := FirstRows(rows);
    var inserted;
    after, inserted := Insert(table, rows, candidates);
    var written: map<Tag, SessionKey>, found: map<Tag, SessionKey>, duplicates: seq<Tag> := map[], map[], [];
    for i := 0 to |rows|
      invariant written == Written(table, rows[..i]) && found == Found(table, rows[..i])
      invariant duplicates == SessionDuplicates(table, rows[..i])
    {
      assert rows[..i + 1][..i] == rows[..i];
      var row := rows[i];
      IsFirst(rows, candidates, i);
      InsertKeys(table, rows[..i]);
      var first := candidates[row.key] == i;
      if row.key in inserted {
        if first {
          written := written[row.id := row.key];
        } else {
          found := found[row.id := row.key];
        }
        continue;
      }
      found := found[row.id := row.key];
      if first && table[row.key].run != row.value.run {
        duplicates := duplicates + [row.id];
      }
    }
    assert rows[..|rows|] == rows;
    outcome := Outcome(written, found, duplicates, []);
  }

  // ------------------------------------------------------------------- calls

  /** A call on its way to its table: its parent is still a tag. */
  datatype CallRow<V> = CallRow(id: Tag, session: Tag, index: int, value: V)

  function LinkedRow<V>(row: CallRow<V>, sessions: map<Tag, SessionKey>): Row<CallKey, V>
    requires row.session in sessions
  {
    Row(row.id, CallKey(sessions[row.session], row.index), row.value)
  }

  function Linked<V>(rows: seq<CallRow<V>>, sessions: map<Tag, SessionKey>): seq<Row<CallKey, V>> {
    if rows == [] then []
    else
      var n := |rows| - 1;
      Linked(rows[..n], sessions) + (if rows[n].session in sessions then [LinkedRow(rows[n], sessions)] else [])
  }

  function Unlinked<V>(rows: seq<CallRow<V>>, sessions: map<Tag, SessionKey>): seq<Tag> {
    if rows == [] then []
    else
      var n := |rows| - 1;
      Unlinked(rows[..n], sessions) + (if rows[n].session in sessions then [] else [rows[n].id])
  }

  /** `_link_to_sessions`. */
  method LinkToSessions<V>(rows: seq<CallRow<V>>, sessions: map<Tag, SessionKey>)
    returns (linked: seq<Row<CallKey, V>>, unlinked: seq<Tag>)
    ensures linked == Linked(rows, sessions) && unlinked == Unlinked(rows, sessions)
  {
    linked, unlinked := [], [];
    for i := 0 to |rows|
      invariant linked == Linked(rows[..i], sessions) && unlinked == Unlinked(rows[..i], sessions)
    {
      assert rows[..i + 1][..i] == rows[..i];
      if rows[i].session in sessions {
        linked := linked + [LinkedRow(rows[i], sessions)];
      } else {
        unlinked := unlinked + [rows[i].id];
      }
    }
    assert rows[..|rows|] == rows;
  }

  /** `_call_outcome`. */
  method CallOutcome<V>(table: map<CallKey, V>, linked: seq<Row<CallKey, V>>, candidates: map<CallKey, nat>,
                        inserted: set<CallKey>, unlinked: seq<Tag>)
    returns (outcome: Outcome<CallKey>)
    requires Firsts(linked, candidates) && inserted == KeysOf(linked) - table.Keys
    ensures outcome == Outcome(Written(table, linked), Found(table, linked), CallDuplicates(table, linked), unlinked)
  {
    hide InsertAll, KeysOf, Firsts;
    var written: map<Tag, CallKey>, found: map<Tag, CallKey>, duplicates: seq<Tag> := map[], map[], [];
    for i := 0 to |linked|
      invariant written == Written(table, linked[..i]) && found == Found(table, linked[..i])
      invariant duplicates == CallDuplicates(table, linked[..i])
    {
      assert linked[..i + 1][..i] == linked[..i];
      var row := linked[i];
      IsFirst(linked, candidates, i);
      KeyOfRow(linked, i);
      InsertKeys(table, linked[..i]);
      if row.key in inserted && candidates[row.key] == i {
        written := written[row.id := row.key];
        continue;
      }
      found := found[row.id := row.key];
      duplicates := duplicates + [row.id];
    }
    assert linked[..|linked|] == linked;
    outcome := Outcome(written, found, duplicates, unlinked);
  }

  /** `add_many` of the two call repositories. */
  method AddCalls<V>(table: map<CallKey, V>, rows: seq<CallRow<V>>, sessions: map<Tag, SessionKey>)
    returns (after: map<CallKey, V>, outcome: Outcome<CallKey>)
    ensures var linked := Linked(rows, sessions);
            && after == InsertAll(table, linked)
            && outcome == Outcome(Written(table, linked), Found(table, linked), CallDuplicates(table, linked), Unlinked(rows, sessions))
  {
    var linked, unlinked := LinkToSessions(rows, sessions);
    var candidates := FirstRows(linked);
    var inserted;
    after, inserted := Insert(table, linked, candidates);
    outcome := CallOutcome(table, linked, candidates, inserted, unlinked);
  }

  // ------------------------------------------------------------ unit of work

  /** `SqlAlchemyUnitOfWork`: what a transaction reads and writes is its own
      until it commits, and gone if it leaves without committing. */
  class UnitOfWork {
    var store: Db
    var work: Db
    var open: bool
    var committed: bool

    constructor (db: Db)
      ensures store == db && !open
    {
      store, work, open, committed := db, db, false, false;
    }

    /** `__aenter__`. */
    method Enter()
      modifies this
      ensures store == old(store) && work == store && open && !committed
    {
      work, open, committed := store, true, false;
    }

    method Commit()
      modifies this
      ensures work == old(work) && open == old(open)
      ensures if open then store == old(work) && committed else store == old(store) && committed == old(committed)
    {
      if open {
        store, committed := work, true;
      }
    }

    method Rollback()
      modifies this
      ensures work == (if open then store else old(work)) && store == old(store) && open == old(open) && committed == old(committed)
    {
      if open {
        work := store;
      }
    }

    /** `__aexit__`: whether the block returned or raised. */
    method Exit()
      modifies this
      ensures store == old(store) && !open
      ensures !old(committed) && old(open) ==> work == old(store)
    {
      if !committed {
        Rollback();
      }
      open := false;
    }
  }
}
