/**
 When a new run stores every call of its file. A call is known by its session
 and its sequence index. Without a rule for the index, the index is the position
 of the call's row in its own record, and that count starts again on each
 record: two records of one session can then use the same key, and the later
 call is not stored.
 */
module Repeats {
  import opened Values
  import opened Mappings
  import opened Engine
  import opened EngineLaws
  import opened Normalizer
  import opened NormalizerLaws
  import opened Accounting
  import opened RowFates
  import opened References
  import opened Store
  import opened Importing
  import opened Reporting
  import opened ImportLaws
  import opened Preview
  import opened PreviewLaws

  // -------------------------------------------------------- keys in general

  predicate Apart<K(==)>(a: seq<K>, b: seq<K>) {
    forall k :: k in a ==> k !in b
  }

  /** The keys are used once each, and none is held already. */
  predicate AllNew<K(==)>(held: set<K>, keys: seq<K>) {
    && (forall i, j :: 0 <= i < j < |keys| ==> keys[i] != keys[j])
    && (forall k :: k in keys ==> k !in held)
  }

  lemma NewParts<K>(held: set<K>, a: seq<K>, b: seq<K>)
    requires AllNew(held, a + b)
    ensures AllNew(held, a) && AllNew(held, b) && Apart(a, b)
  {
    var keys := a + b;
    forall k | k in a || k in b ensures k !in held {
      assert k in keys;
    }
    assert forall i :: 0 <= i < |a| ==> keys[i] == a[i];
    assert forall j :: 0 <= j < |b| ==> keys[|a| + j] == b[j];
  }

  lemma NewTwice<K>(held: set<K>, a: seq<K>, b: seq<K>)
    ensures AllNew(held, a + b) <==> AllNew(held, a) && AllNew(held, b) && Apart(a, b)
  {
    if AllNew(held, a + b) {
      NewParts(held, a, b);
    }
    if AllNew(held, a) && AllNew(held, b) && Apart(a, b) {
      var keys := a + b;
      forall i, j | 0 <= i < j < |keys| ensures keys[i] != keys[j] {
        assert keys[i] == if i < |a| then a[i] else b[i - |a|];
        assert keys[j] == if j < |a| then a[j] else b[j - |a|];
        if i < |a| <= j {
          assert keys[i] in a && keys[j] in b;
        }
      }
    }
  }

  lemma {:induction false} NoneTaken<K>(held: set<K>, keys: seq<K>)
    ensures Taken(held, keys) == 0 <==> AllNew(held, keys)
  {
    if keys != [] {
      var n := |keys| - 1;
      NoneTaken(held, keys[..n]);
      NewTwice(held, keys[..n], [keys[n]]);
      assert keys == keys[..n] + [keys[n]];
    }
  }

  /** The keys of a file, line by line. */
  function Flat<K>(lines: seq<seq<K>>): seq<K> {
    if lines == [] then [] else Flat(lines[..|lines| - 1]) + lines[|lines| - 1]
  }

  lemma {:induction false} ApartFromAll<K>(lines: seq<seq<K>>, line: seq<K>)
    ensures Apart(Flat(lines), line) <==> forall i :: 0 <= i < |lines| ==> Apart(lines[i], line)
  {
    hide Apart;
    if lines == [] {
      ApartNone(line);
    } else {
      var n := |lines| - 1;
      ApartFromAll(lines[..n], line);
      ApartBoth(Flat(lines[..n]), lines[n], line);
      assert forall i :: 0 <= i < n ==> lines[..n][i] == lines[i];
    }
  }

  lemma ApartNone<K>(b: seq<K>)
    ensures Apart([], b)
  {
  }

  lemma ApartBoth<K>(a: seq<K>, b: seq<K>, c: seq<K>)
    ensures Apart(a + b, c) <==> Apart(a, c) && Apart(b, c)
  {
    if Apart(a + b, c) {
      forall k | k in a || k in b ensures k !in c {
        assert k in a + b;
      }
    }
  }

  /** The keys of a file are new when those of each line are, and no two lines
      share one. */
  lemma {:induction false} NewLineByLine<K>(held: set<K>, lines: seq<seq<K>>)
    ensures AllNew(held, Flat(lines)) <==>
            (forall i :: 0 <= i < |lines| ==> AllNew(held, lines[i])) &&
            (forall i, j :: 0 <= i < j < |lines| ==> Apart(lines[i], lines[j]))
  {
    hide Apart, AllNew;
    if lines == [] {
      NoneNew(held);
    } else {
      var n := |lines| - 1;
      NewLineByLine(held, lines[..n]);
      NewTwice(held, Flat(lines[..n]), lines[n]);
      ApartFromAll(lines[..n], lines[n]);
      assert forall i :: 0 <= i < n ==> lines[..n][i] == lines[i];
    }
  }

  lemma NoneNew<K>(held: set<K>)
    ensures AllNew(held, [])
  {
  }

  // ------------------------------------------------------- calls of a file

  function Lines(kind: Kind, results: seq<NormResult>): (lines: seq<seq<CallKey>>)
    ensures |lines| == |results|
  {
    seq(|results|, i requires 0 <= i < |results| => CallKeys(kind, results[i]))
  }

  lemma {:induction false} LinesFlat(kind: Kind, results: seq<NormResult>)
    ensures Flat(Lines(kind, results)) == CallKeySeq(kind, results)
  {
    hide CallKeys;
    if results != [] {
      var n := |results| - 1;
      LinesFlat(kind, results[..n]);
      assert Lines(kind, results)[..n] == Lines(kind, results[..n]);
    }
  }

  /** Call `k` of line `i` stands in the store, under its key and with the fact
      its own record gives. */
  predicate Stands(kind: Kind, pass: Pass, after: Db, i: nat, k: nat)
    requires i < |pass.records| && k < |kind.Indices(pass.Results()[i])|
  {
    var r, raw := pass.Results()[i], RawKey(pass.run, 1 + i);
    && r.sessions != []
    && var key := CallKey(SessionKey(r.sessions[0].source, r.sessions[0].externalId), kind.Indices(r)[k]);
       match kind
       case Models => key in after.modelCalls && HoldsModel(after.modelCalls[key], r.modelCalls[k], raw, after.refs)
       case Tools => key in after.toolCalls && HoldsTool(after.toolCalls[key], r.toolCalls[k], raw, after.refs)
  }

  lemma ApartMeans<K>(a: seq<K>, b: seq<K>, k: K)
    requires Apart(a, b) && k in b
    ensures k !in a && k !in KeySet(a)
  {
  }

  lemma NewBefore(kind: Kind, held: set<CallKey>, results: seq<NormResult>, i: nat, k: nat)
    requires AllNew(held, CallKeySeq(kind, results)) && i < |results| && k < |kind.Indices(results[i])| && results[i].sessions != []
    ensures CallKey(SessionKeyOf(results[i].sessions[0]), kind.Indices(results[i])[k]) !in held + kind.KeysOf(results[..i])
    ensures forall j :: 0 <= j < k ==> kind.Indices(results[i])[j] != kind.Indices(results[i])[k]
  {
    hide Apart, ModelKeysOf, ToolKeysOf, SessionKeyOf, CallKeySeq;
    var lines, keys := Lines(kind, results), CallKeys(kind, results[i]);
    LinesFlat(kind, results);
    NewLineByLine(held, lines);
    assert lines[i] == keys && AllNew(held, keys);
    forall j | 0 <= j < k ensures kind.Indices(results[i])[j] != kind.Indices(results[i])[k] {
      assert keys[j] != keys[k];
    }
    assert keys[k] in keys;
    LinesFlat(kind, results[..i]);
    FileKeySet(kind, results[..i]);
    assert forall j :: 0 <= j < i ==> Lines(kind, results[..i])[j] == lines[j];
    ApartFromAll(Lines(kind, results[..i]), keys);
    ApartMeans(CallKeySeq(kind, results[..i]), keys, keys[k]);
  }

  lemma NewStands(kind: Kind, pass: Pass, db: Db, i: nat, k: nat)
    requires KnownTargets(pass.mapping) && NewRun(db, pass.run, |pass.records|)
    requires AllNew(kind.Held(db), CallKeySeq(kind, pass.Results()))
    requires i < |pass.records| && k < |kind.Indices(pass.Results()[i])|
    ensures Stands(kind, pass, pass.On(db), i, k)
  {
    hide ImportLines, ResultsOf, CleanAt, KnownTargets, NewRun, AllNew, CallKeySeq, SessionKeys, ModelKeysOf, ToolKeysOf,
         HoldsSession, HoldsModel, HoldsTool;
    var results := pass.Results();
    ResultsClean(pass.rt, pass.mapping, pass.source, 1, pass.records);
    CleanTags(results[i], 1 + i);
    NewBefore(kind, kind.Held(db), results, i, k);
    var r := results[i];
    assert kind.Models? ==> forall j :: 0 <= j <= k ==> kind.Indices(r)[j] == r.modelCalls[j].index;
    assert kind.Tools? ==> forall j :: 0 <= j <= k ==> kind.Indices(r)[j] == r.toolCalls[j].index;
    FirstWriterWins(pass, db, i, k);
  }

  /** A new run stores every call of its file, as many rows as calls, exactly
      when no two of them share a key and no key was held before; each then
      stands with its own fact. */
  lemma {:induction false} EveryCallStored(kind: Kind, pass: Pass, db: Db)
    requires KnownTargets(pass.mapping) && NewRun(db, pass.run, |pass.records|)
    ensures var results, after := pass.Results(), pass.On(db);
            && |kind.Held(after)| + Taken(kind.Held(db), CallKeySeq(kind, results)) == |kind.Held(db)| + |AllFor(results, kind.Target())|
            && (|kind.Held(after)| == |kind.Held(db)| + |AllFor(results, kind.Target())| <==> AllNew(kind.Held(db), CallKeySeq(kind, results)))
            && (AllNew(kind.Held(db), CallKeySeq(kind, results)) ==>
                  forall i, k :: 0 <= i < |results| && 0 <= k < |kind.Indices(results[i])| ==> Stands(kind, pass, after, i, k))
  {
    hide ImportLines, ResultsOf, KnownTargets, NewRun, AllFor, Taken, AllNew, CallKeySeq, Stands;
    var results, after := pass.Results(), pass.On(db);
    CallsStored(kind, pass, db);
    NoneTaken(kind.Held(db), CallKeySeq(kind, results));
    if AllNew(kind.Held(db), CallKeySeq(kind, results)) {
      forall i, k | 0 <= i < |results| && 0 <= k < |kind.Indices(results[i])| ensures Stands(kind, pass, after, i, k) {
        NewStands(kind, pass, db, i, k);
      }
    }
  }

  // ----------------------------------------------------- position fallback

  lemma {:induction false} ResultAt(rt: Runtime, mapping: Mapping, source: int, start: nat, records: seq<Value>, i: nat)
    requires i < |records|
    ensures ResultsOf(rt, mapping, source, start, records)[i] == ResultOf(rt, mapping, source, start + i, records[i])
  {
    hide ResultOf;
    var n := |records| - 1;
    if i < n {
      ResultAt(rt, mapping, source, start, records[..n], i);
    }
  }

  /** The calls of this kind have one mapping, without a rule for the index. */
  predicate Unnumbered(kind: Kind, mapping: Mapping, e: nat) {
    OnlyOne(mapping, kind.Target(), e) && !Mapped(mapping[e].fields, "sequence_index")
  }

  /** The calls of one record then stand at different positions, among the rows
      its mapping reaches in that record. */
  lemma {:induction false} PositionsOfLine(kind: Kind, pass: Pass, e: nat, i: nat)
    requires Unnumbered(kind, pass.mapping, e) && i < |pass.records|
    ensures var places := kind.Indices(pass.Results()[i]);
            && (forall k :: 0 <= k < |places| ==> 0 <= places[k] < |Extracted(pass.mapping[e], pass.records[i], Some(1 + i)).0|)
            && (forall k, l :: 0 <= k < l < |places| ==> places[k] < places[l])
  {
    hide Normalized, Extracted, OnlyOne, Mapped;
    NoEscape(pass.rt, pass.mapping, pass.records[i], pass.source, Some(1 + i));
    ResultAt(pass.rt, pass.mapping, pass.source, 1, pass.records, i);
    if kind.Models? {
      DistinctModelPositions(pass.rt, pass.mapping, pass.records[i], pass.source, Some(1 + i), e);
    } else {
      DistinctToolPositions(pass.rt, pass.mapping, pass.records[i], pass.source, Some(1 + i), e);
    }
  }

  lemma NewOnLine(kind: Kind, held: set<CallKey>, r: NormResult)
    requires forall k, l :: 0 <= k < l < |kind.Indices(r)| ==> kind.Indices(r)[k] < kind.Indices(r)[l]
    ensures AllNew(held, CallKeys(kind, r)) <==> forall key :: key in CallKeys(kind, r) ==> key !in held
  {
    hide SessionKeyOf;
  }

  /** Two records of one session, each with a call at the same position. */
  predicate SharesKey(kind: Kind, a: NormResult, b: NormResult) {
    && a.sessions != [] && b.sessions != [] && SessionKeyOf(a.sessions[0]) == SessionKeyOf(b.sessions[0])
    && exists k :: k in kind.Indices(a) && k in kind.Indices(b)
  }

  lemma ApartUnlessShared(kind: Kind, a: NormResult, b: NormResult)
    ensures Apart(CallKeys(kind, a), CallKeys(kind, b)) <==> !SharesKey(kind, a, b)
  {
    hide SessionKeyOf;
    var x, y := CallKeys(kind, a), CallKeys(kind, b);
    if SharesKey(kind, a, b) {
      var place :| place in kind.Indices(a) && place in kind.Indices(b);
      var k :| 0 <= k < |kind.Indices(a)| && kind.Indices(a)[k] == place;
      var l :| 0 <= l < |kind.Indices(b)| && kind.Indices(b)[l] == place;
      assert x[k] in x && y[l] in y && x[k] == y[l];
    }
    if !Apart(x, y) {
      var key :| key in x && key in y;
      var k :| 0 <= k < |x| && x[k] == key;
      var l :| 0 <= l < |y| && y[l] == key;
      assert kind.Indices(a)[k] in kind.Indices(a) && kind.Indices(a)[k] == kind.Indices(b)[l];
    }
  }

  /** The position fallback starts again on every record: without a rule for the
      index, all the calls of a file are stored exactly when no key was held and
      no two lines of one session have a call at the same position. */
  lemma {:induction false} PositionsRestart(kind: Kind, pass: Pass, db: Db, e: nat)
    requires KnownTargets(pass.mapping) && NewRun(db, pass.run, |pass.records|) && Unnumbered(kind, pass.mapping, e)
    ensures var results, after := pass.Results(), pass.On(db);
            |kind.Held(after)| == |kind.Held(db)| + |AllFor(results, kind.Target())| <==>
              (forall i, key :: 0 <= i < |results| && key in CallKeys(kind, results[i]) ==> key !in kind.Held(db)) &&
              (forall i, j :: 0 <= i < j < |results| ==> !SharesKey(kind, results[i], results[j]))
  {
    hide ImportLines, ResultsOf, KnownTargets, NewRun, AllFor, AllNew, CallKeySeq, CallKeys, Apart, SharesKey, Unnumbered, Extracted;
    var results, held := pass.Results(), kind.Held(db);
    EveryCallStored(kind, pass, db);
    LinesFlat(kind, results);
    NewLineByLine(held, Lines(kind, results));
    forall i | 0 <= i < |results| ensures AllNew(held, Lines(kind, results)[i]) <==> forall key :: key in CallKeys(kind, results[i]) ==> key !in held {
      PositionsOfLine(kind, pass, e, i);
      NewOnLine(kind, held, results[i]);
    }
    forall i, j | 0 <= i < j < |results| ensures Apart(Lines(kind, results)[i], Lines(kind, results)[j]) <==> !SharesKey(kind, results[i], results[j]) {
      ApartUnlessShared(kind, results[i], results[j]);
    }
  }

  predicate HasCall(kind: Kind, r: NormResult) {
    r.sessions != [] && kind.Indices(r) != []
  }

  lemma AtZero(kind: Kind, r: NormResult)
    requires forall k :: 0 <= k < |kind.Indices(r)| ==> kind.Indices(r)[k] == 0
    ensures forall key :: key in CallKeys(kind, r) <==> HasCall(kind, r) && key == CallKey(SessionKeyOf(r.sessions[0]), 0)
    ensures forall k :: k in kind.Indices(r) <==> kind.Indices(r) != [] && k == 0
  {
    hide SessionKeyOf;
    if HasCall(kind, r) {
      assert CallKeys(kind, r)[0] == CallKey(SessionKeyOf(r.sessions[0]), 0);
    }
    if kind.Indices(r) != [] {
      assert kind.Indices(r)[0] == 0;
    }
  }

  /** Without an `iterate` either, every call is at position 0: a file would keep
      the call of no more than one line of a session, which is why the checker
      refuses such a mapping. */
  lemma {:induction false} OneCallPerSession(kind: Kind, pass: Pass, db: Db, e: nat)
    requires KnownTargets(pass.mapping) && NewRun(db, pass.run, |pass.records|)
    requires Unnumbered(kind, pass.mapping, e) && !pass.mapping[e].Iterated()
    ensures var results, after := pass.Results(), pass.On(db);
            |kind.Held(after)| == |kind.Held(db)| + |AllFor(results, kind.Target())| <==>
              (forall i :: 0 <= i < |results| && HasCall(kind, results[i]) ==>
                 CallKey(SessionKeyOf(results[i].sessions[0]), 0) !in kind.Held(db)) &&
              (forall i, j :: 0 <= i < j < |results| && HasCall(kind, results[i]) && HasCall(kind, results[j]) ==>
                 SessionKeyOf(results[i].sessions[0]) != SessionKeyOf(results[j].sessions[0]))
  {
    hide ImportLines, ResultsOf, KnownTargets, NewRun, AllFor, OnlyOne, Mapped, SessionKeyOf, CallKeys;
    var results := pass.Results();
    PositionsRestart(kind, pass, db, e);
    forall i | 0 <= i < |results|
      ensures forall key :: key in CallKeys(kind, results[i]) <==>
                HasCall(kind, results[i]) && key == CallKey(SessionKeyOf(results[i].sessions[0]), 0)
      ensures forall k :: k in kind.Indices(results[i]) <==> kind.Indices(results[i]) != [] && k == 0
    {
      PositionsOfLine(kind, pass, e, i);
      AtZero(kind, results[i]);
    }
    forall i, j | 0 <= i < j < |results|
      ensures SharesKey(kind, results[i], results[j]) <==>
              HasCall(kind, results[i]) && HasCall(kind, results[j]) && SessionKeyOf(results[i].sessions[0]) == SessionKeyOf(results[j].sessions[0])
    {
      SharedAtZero(kind, results[i], results[j]);
    }
  }

  lemma SharedAtZero(kind: Kind, a: NormResult, b: NormResult)
    requires forall k :: k in kind.Indices(a) <==> kind.Indices(a) != [] && k == 0
    requires forall k :: k in kind.Indices(b) <==> kind.Indices(b) != [] && k == 0
    ensures SharesKey(kind, a, b) <==>
            HasCall(kind, a) && HasCall(kind, b) && SessionKeyOf(a.sessions[0]) == SessionKeyOf(b.sessions[0])
  {
    hide SessionKeyOf;
    if kind.Indices(a) != [] && kind.Indices(b) != [] {
      assert 0 in kind.Indices(a) && 0 in kind.Indices(b);
    }
  }
}
