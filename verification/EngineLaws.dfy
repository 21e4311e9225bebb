/**
 Laws of the mapping interpreter: the type gate, why a row is dropped, the
 independence of rows, and what an unknown value may become.
 */
module EngineLaws {
  import opened Values
  import opened JsonPath
  import opened Mappings
  import opened Engine

  predicate SomeRejected(issues: seq<Issue>) {
    exists i :: 0 <= i < |issues| && issues[i].severity.Rejected?
  }

  lemma SomeRejectedConcat(a: seq<Issue>, b: seq<Issue>)
    ensures SomeRejected(a + b) <==> SomeRejected(a) || SomeRejected(b)
  {
    forall i | 0 <= i < |a| ensures (a + b)[i] == a[i] {}
    forall i | 0 <= i < |b| ensures (a + b)[|a| + i] == b[i] {}
  }

  /** The last entity mapping adds its results and issues to the others'. */
  lemma LastEntity(rt: Runtime, mapping: Mapping, record: Value, line: Option<nat>)
    requires mapping != []
    ensures var n := |mapping| - 1;
            var before, last := MappingApplied(rt, mapping[..n], record, line), EntityApplied(rt, mapping[n], record, line);
            && MappingApplied(rt, mapping, record, line).results == before.results + last.results
            && MappingApplied(rt, mapping, record, line).issues == before.issues + last.issues
  {
    hide EntityApplied;
  }

  lemma LastRow(rt: Runtime, entity: EntityMapping, prefix: Path, line: Option<nat>, rows: seq<Value>)
    requires rows != []
    ensures var n := |rows| - 1;
            var before, last := RowsApplied(rt, entity, prefix, line, rows[..n]), RowApplied(rt, entity, prefix, line, rows[n], n);
            && RowsApplied(rt, entity, prefix, line, rows).results == before.results + last.results
            && RowsApplied(rt, entity, prefix, line, rows).issues == before.issues + last.issues
  {
    hide RowApplied;
  }

  // -------------------------------------------------------------- type gate

  /** Every value of a row has the declared type of its field, none is null,
      and only fields that have a rule are there. */
  predicate Typed(target: string, data: map<string, Value>) {
    forall f :: f in data ==> !data[f].Null? && HasTargetType(target, f, data[f])
  }

  predicate Mapped(rules: seq<FieldRule>, field: string) {
    exists r :: 0 <= r < |rules| && rules[r].target == field
  }

  predicate FromRules(rules: seq<FieldRule>, data: map<string, Value>) {
    forall f :: f in data ==> Mapped(rules, f)
  }

  predicate HasRequired(rules: seq<FieldRule>, data: map<string, Value>) {
    forall r :: 0 <= r < |rules| && rules[r].required ==> rules[r].target in data
  }

  lemma FieldIssues(rt: Runtime, rule: FieldRule, target: string, scope: Scope, line: Option<nat>)
    ensures var (value, raised) := FieldOutcome(rt, rule, target, scope, line);
            && (raised != [] ==> value.Null?)
            && (SomeRejected(raised) <==> raised != [] && rule.required)
  {
    hide ApplyOperators, SourcePath;
    var raised := FieldOutcome(rt, rule, target, scope, line).1;
    assert raised == [] || raised == [raised[0]];
  }

  lemma FieldStep(rt: Runtime, target: string, scope: Scope, line: Option<nat>, before: RowState, rule: FieldRule)
    requires Typed(target, before.data)
    requires before.rejected <==> SomeRejected(before.issues)
    ensures var st := AfterField(rt, target, scope, line, before, rule);
            && Typed(target, st.data)
            && before.data.Keys <= st.data.Keys <= before.data.Keys + {rule.target}
            && (before.rejected ==> st.rejected)
            && (rule.required && !st.rejected ==> rule.target in st.data)
            && (st.rejected <==> SomeRejected(st.issues))
  {
    FieldIssues(rt, rule, target, scope, line);
    hide FieldOutcome, Coerced, HasTargetType;
    var (value, raised) := FieldOutcome(rt, rule, target, scope, line);
    SomeRejectedConcat(before.issues, raised);
    var place := FieldOf(target, rule.target);
    var missing, mismatch := [Issue(Rejected, MissingRequiredField, place, line)], [Issue(Rejected, TypeMismatch, place, line)];
    assert missing[0].severity.Rejected? && mismatch[0].severity.Rejected?;
    SomeRejectedConcat(before.issues + raised, missing);
    SomeRejectedConcat(before.issues + raised, mismatch);
    assert before.issues + raised + [] == before.issues + raised;
  }

  lemma LastField(rt: Runtime, target: string, scope: Scope, line: Option<nat>, rules: seq<FieldRule>)
    requires rules != []
    ensures var n := |rules| - 1;
            AfterFields(rt, target, scope, line, rules) == AfterField(rt, target, scope, line, AfterFields(rt, target, scope, line, rules[..n]), rules[n])
  {
    hide AfterField;
  }

  lemma NoFields(rt: Runtime, target: string, scope: Scope, line: Option<nat>)
    ensures AfterFields(rt, target, scope, line, []) == RowState(map[], [], false)
  {
    hide AfterField;
  }

  lemma NothingYet(target: string)
    ensures Typed(target, map[]) && FromRules([], map[]) && HasRequired([], map[]) && !SomeRejected([])
  {
  }

  lemma {:induction false} FieldsTyped(rt: Runtime, target: string, scope: Scope, line: Option<nat>, rules: seq<FieldRule>)
    ensures var st := AfterFields(rt, target, scope, line, rules);
            Typed(target, st.data) && (st.rejected <==> SomeRejected(st.issues))
  {
    hide *;
    if rules == [] {
      NoFields(rt, target, scope, line);
      NothingYet(target);
    } else {
      var n := |rules| - 1;
      FieldsTyped(rt, target, scope, line, rules[..n]);
      LastField(rt, target, scope, line, rules);
      FieldStep(rt, target, scope, line, AfterFields(rt, target, scope, line, rules[..n]), rules[n]);
    }
  }

  lemma FromOneMore(rules: seq<FieldRule>, before: map<string, Value>, after: map<string, Value>)
    requires rules != [] && FromRules(rules[..|rules| - 1], before)
    requires after.Keys <= before.Keys + {rules[|rules| - 1].target}
    ensures FromRules(rules, after)
  {
    forall f | f in after ensures Mapped(rules, f) {
      if f in before {
        assert Mapped(rules[..|rules| - 1], f);
        var r :| 0 <= r < |rules| - 1 && rules[..|rules| - 1][r].target == f;
        assert rules[r].target == f;
      } else {
        assert rules[|rules| - 1].target == f;
      }
    }
  }

  lemma {:induction false} FieldsFromRules(rt: Runtime, target: string, scope: Scope, line: Option<nat>, rules: seq<FieldRule>)
    ensures FromRules(rules, AfterFields(rt, target, scope, line, rules).data)
  {
    hide *;
    if rules == [] {
      NoFields(rt, target, scope, line);
      NothingYet(target);
    } else {
      var n := |rules| - 1;
      var before := AfterFields(rt, target, scope, line, rules[..n]);
      FieldsTyped(rt, target, scope, line, rules[..n]);
      FieldsFromRules(rt, target, scope, line, rules[..n]);
      LastField(rt, target, scope, line, rules);
      FieldStep(rt, target, scope, line, before, rules[n]);
      FromOneMore(rules, before.data, AfterFields(rt, target, scope, line, rules).data);
    }
  }

  lemma RequiredOneMore(rules: seq<FieldRule>, before: map<string, Value>, after: map<string, Value>)
    requires rules != [] && HasRequired(rules[..|rules| - 1], before) && before.Keys <= after.Keys
    requires rules[|rules| - 1].required ==> rules[|rules| - 1].target in after
    ensures HasRequired(rules, after)
  {
    forall r | 0 <= r < |rules| && rules[r].required ensures rules[r].target in after {
      if r < |rules| - 1 {
        assert rules[..|rules| - 1][r] == rules[r];
      }
    }
  }

  lemma {:induction false} FieldsRequired(rt: Runtime, target: string, scope: Scope, line: Option<nat>, rules: seq<FieldRule>)
    ensures var st := AfterFields(rt, target, scope, line, rules);
            !st.rejected ==> HasRequired(rules, st.data)
  {
    hide *;
    if rules == [] {
      NoFields(rt, target, scope, line);
      NothingYet(target);
    } else {
      var n := |rules| - 1;
      var before, st := AfterFields(rt, target, scope, line, rules[..n]), AfterFields(rt, target, scope, line, rules);
      FieldsTyped(rt, target, scope, line, rules[..n]);
      FieldsRequired(rt, target, scope, line, rules[..n]);
      LastField(rt, target, scope, line, rules);
      FieldStep(rt, target, scope, line, before, rules[n]);
      if !st.rejected {
        RequiredOneMore(rules, before.data, st.data);
      }
    }
  }

  /** The type gate: an emitted row holds every required field, and only mapped
      fields with non-null values of their declared type. */
  lemma {:induction false} TypeGate(rt: Runtime, entity: EntityMapping, scope: Scope, line: Option<nat>)
    ensures var (data, issues) := RowOutcome(rt, entity, scope, line);
            data.Some? ==> && Typed(entity.target, data.value)
                           && FromRules(entity.fields, data.value)
                           && HasRequired(entity.fields, data.value)
  {
    hide AfterFields, Typed, FromRules, HasRequired;
    FieldsTyped(rt, entity.target, scope, line, entity.fields);
    FieldsFromRules(rt, entity.target, scope, line, entity.fields);
    FieldsRequired(rt, entity.target, scope, line, entity.fields);
  }

  /** A row is dropped exactly when one of its own issues rejects it. */
  lemma {:induction false} DroppedIffRejected(rt: Runtime, entity: EntityMapping, scope: Scope, line: Option<nat>)
    ensures var (data, issues) := RowOutcome(rt, entity, scope, line);
            data.None? <==> SomeRejected(issues)
  {
    hide AfterFields, SomeRejected;
    FieldsTyped(rt, entity.target, scope, line, entity.fields);
  }

  // -------------------------------------------------------------- positions

  /** What the row at `index` yields, read on its own. */
  function RowData(rt: Runtime, entity: EntityMapping, prefix: Path, line: Option<nat>, row: Value): Option<map<string, Value>>
  {
    RowOutcome(rt, entity, Scope(row, prefix), line).0
  }

  predicate Increasing(results: seq<EntityRow>) {
    forall i, j :: 0 <= i < j < |results| ==> results[i].sourceIndex < results[j].sourceIndex
  }

  /** `r` is what the row at its own source position yields. */
  predicate InPlace(rt: Runtime, entity: EntityMapping, prefix: Path, line: Option<nat>, rows: seq<Value>, r: EntityRow) {
    && r.entity == entity.target
    && r.sourceIndex < |rows|
    && RowData(rt, entity, prefix, line, rows[r.sourceIndex]) == Some(r.data)
  }

  /** The results are the rows that survive, each at its own source position and
      with the data it yields on its own, in source order. */
  lemma {:induction false} RowPositions(rt: Runtime, entity: EntityMapping, prefix: Path, line: Option<nat>, rows: seq<Value>)
    ensures var results := RowsApplied(rt, entity, prefix, line, rows).results;
            && Increasing(results)
            && (forall r :: r in results <==> InPlace(rt, entity, prefix, line, rows, r))
  {
    if rows == [] {
      hide RowApplied, RowData;
      assert RowsApplied(rt, entity, prefix, line, rows).results == [];
    } else {
      var n := |rows| - 1;
      RowPositions(rt, entity, prefix, line, rows[..n]);
      LastRow(rt, entity, prefix, line, rows);
      LastInPlace(rt, entity, prefix, line, rows);
      hide RowApplied, RowData, RowsApplied;
      var before, last := RowsApplied(rt, entity, prefix, line, rows[..n]).results, RowApplied(rt, entity, prefix, line, rows[n], n).results;
      forall r ensures r in before + last <==> InPlace(rt, entity, prefix, line, rows, r) {
        assert r in before <==> InPlace(rt, entity, prefix, line, rows[..n], r);
      }
      assert forall i :: 0 <= i < |before| ==> before[i] in before;
    }
  }

  lemma LastInPlace(rt: Runtime, entity: EntityMapping, prefix: Path, line: Option<nat>, rows: seq<Value>)
    requires rows != []
    ensures var n := |rows| - 1;
            var last := RowApplied(rt, entity, prefix, line, rows[n], n).results;
            && |last| <= 1
            && forall r :: r in last <==> InPlace(rt, entity, prefix, line, rows, r) && r.sourceIndex == n
  {
    hide RowOutcome;
  }

  /** Changing one row leaves every other row's result as it was. */
  lemma {:induction false} RowIndependence(rt: Runtime, entity: EntityMapping, prefix: Path, line: Option<nat>,
                                           rows: seq<Value>, k: nat, other: Value, r: EntityRow)
    requires k < |rows| && r.sourceIndex != k
    ensures r in RowsApplied(rt, entity, prefix, line, rows).results
       <==> r in RowsApplied(rt, entity, prefix, line, rows[k := other]).results
  {
    RowPositions(rt, entity, prefix, line, rows);
    RowPositions(rt, entity, prefix, line, rows[k := other]);
  }

  // --------------------------------------------------------- unknown values

  /** Operators that transform the value they are given, and nothing else. */
  predicate Transforms(name: Value) {
    name in [Str("cast"), Str("trim"), Str("lower"), Str("upper"), Str("unit_convert"), Str("json_passthrough"),
             Str("parse_datetime"), Str("regex_extract")]
  }

  /** An unknown value stays unknown: no transforming operator turns Null into
      something, and none of them fails on it once its parameters are there. */
  lemma {:induction false} UnknownStaysUnknown(rt: Runtime, op: Operator, scope: Scope)
    requires Transforms(Get(op, "op"))
    ensures var outcome := ApplyOperator(rt, op, Null, scope);
            outcome == Done(Null) || (outcome.Failed? && outcome.failure.MissingParameter?)
  {
    hide WithSources, HashOf, MapValues, Convert;
  }

  /** Nothing is made of sources that are all unknown: no text, no identity. */
  lemma {:induction false} NothingFromNothing(rt: Runtime, scope: Scope, items: seq<Value>, separator: Value)
    requires AllSources(scope, items).Ok? && NonNull(AllSources(scope, items).value) == []
    ensures Coalesce(scope, items) == Done(Null)
    ensures Concat(rt, scope, items, separator) == Done(Null)
    ensures Hash(rt, scope, items) == Done(Null)
  {
    if items != [] {
      var rest := AllSources(scope, items[1..]).value;
      assert AllSources(scope, items).value == [SourceValue(scope, items[0]).value] + rest;
      NonNullConcat([SourceValue(scope, items[0]).value], rest);
      NonNullOne(SourceValue(scope, items[0]).value);
      NothingFromNothing(rt, scope, items[1..], separator);
    }
  }

  // --------------------------------------------------------------- coercion

  /** The narrowing of a value to its field's type: a typed value passes as it
      is; a number becomes its text on a text field, and a finite float the
      nearest integer on a whole field, no integer being nearer; anything else
      is refused, a boolean and a numeric text among it. Narrowing again changes
      nothing. */
  lemma CoercionExact(rt: Runtime, target: string, field: string, v: Value, other: int)
    ensures var r, expected := Coerced(rt, target, field, v), FieldType(target, field);
            && (r == Some(v) <==> HasTargetType(target, field, v))
            && (r.None? <==> expected.Some? && match expected.value
                             case Text => !v.Str? && !v.Int? && !v.Float?
                             case Whole => !v.Int? && !(v.Float? && v.number.Finite?)
                             case Instant => !v.DateTime?)
            && (expected == Some(Text) && (v.Int? || v.Float?) ==> r == Some(Str(rt.TextOf(v))))
            && (expected == Some(Whole) && v.Float? && v.number.Finite? ==>
                  && r.value.Int?
                  && Distance(v.number.r, r.value.i) <= Distance(v.number.r, other)
                  && (Distance(v.number.r, r.value.i) == Distance(v.number.r, other) && other != r.value.i ==> r.value.i % 2 == 0))
            && (r.Some? ==> Coerced(rt, target, field, r.value) == r)
  {
    hide FieldType;
    if v.Float? && v.number.Finite? {
      RoundIsNearest(v.number.r, other);
    }
  }

  function Distance(x: real, n: int): real {
    if x < n as real then n as real - x else x - n as real
  }

  /** No integer is nearer than the rounded one, and of two as near it is the even one. */
  lemma RoundIsNearest(x: real, other: int)
    ensures Distance(x, Round(x)) <= Distance(x, other)
    ensures Distance(x, Round(x)) == Distance(x, other) && other != Round(x) ==> Round(x) % 2 == 0
  {
    var n := Round(x);
    if other < n {
      assert other as real <= n as real - 1.0;
    } else if n < other {
      assert n as real + 1.0 <= other as real;
    }
  }

  /** A conversion to a whole unit gives a whole number: the nearest one. */
  lemma {:induction false} WholeUnits(rt: Runtime, v: Value, from: string, to: string)
    requires rt.lower(to) == "ms" || rt.lower(to) == "b"
    ensures var outcome := UnitConvert(rt, v, Str(from), Str(to));
            outcome.Done? && !outcome.value.Null? ==>
              && outcome.value.Int?
              && rt.toFloat(v).Converted? && rt.toFloat(v).value.Finite?
              && Factor(rt.lower(from), rt.lower(to)).Some?
              && -0.5 <= rt.toFloat(v).value.r * Factor(rt.lower(from), rt.lower(to)).value - outcome.value.i as real <= 0.5
  {
    hide Factor, Round;
  }
}
