/**
 The converse of the validator's soundness, for whole documents: an explicit null
 that matters, when it comes first in the operators of a rule, is reported as the
 mapping's own fault on some record.
 */
module HazardLaws {
  import opened Values
  import opened JsonPath
  import opened Mappings
  import opened Engine
  import opened EngineLaws
  import opened Validator
  import opened ValidatorLaws
  import opened RowLedger

  // ----------------------------------------------------- a record for a row

  /** A document in which a path reaches one row only. */
  function Wrap(path: Path, row: Value): Value {
    if path == [] then row
    else if path[0].Each? then List([Wrap(path[1..], row)])
    else Obj(map[path[0].name := Wrap(path[1..], row)])
  }

  lemma {:induction false} WrapReaches(path: Path, row: Value)
    requires !row.Null?
    ensures !Wrap(path, row).Null? && Rows([Wrap(path, row)], path) == [row]
  {
    if path != [] {
      var inner, outer := Wrap(path[1..], row), Wrap(path, row);
      WrapReaches(path[1..], row);
      assert Step(outer, path[0]) == [inner];
      assert [outer][1..] == [] && StepAll([outer], path[0]) == [inner];
    }
  }

  lemma RowIsReached(rt: Runtime, entity: EntityMapping, row: Value, line: Option<nat>)
    requires EntitySound(rt, entity) && !row.Null?
    ensures var (rows, prefix, _) := Extracted(entity, Wrap(PrefixOf(entity), row), line);
            rows == [row] && prefix == PrefixOf(entity)
  {
    hide FieldSound, KnownTarget, Rows, Wrap;
    WrapReaches(PrefixOf(entity), row);
    WrapNothing(row);
  }

  lemma WrapNothing(row: Value)
    ensures Wrap([], row) == row
  {
  }

  // -------------------------------------------------- its issue in the result

  predicate Blamed(issues: seq<Issue>) {
    exists i :: 0 <= i < |issues| && !Blameless(issues[i])
  }

  lemma BlamedIn(part: seq<Issue>, before: seq<Issue>, after: seq<Issue>)
    requires Blamed(part)
    ensures Blamed(before + part + after)
  {
    var i :| 0 <= i < |part| && !Blameless(part[i]);
    hide Blameless;
    assert (before + part + after)[|before| + i] == part[i];
  }

  /** A rule whose first operator fails by the mapping's fault reports it. */
  lemma FieldIsBlamed(rt: Runtime, rule: FieldRule, target: string, scope: Scope, line: Option<nat>)
    requires rule.operators != [] && SourcePath(rule.source, scope.prefix).Ok?
    requires Faulty(ApplyOperator(rt, rule.operators[0], Resolved(scope.row, SourcePath(rule.source, scope.prefix).value), scope))
    ensures Blamed(FieldOutcome(rt, rule, target, scope, line).1)
  {
    hide ApplyOperator, SourcePath, Resolved, MappingFault;
    assert !Blameless(FieldOutcome(rt, rule, target, scope, line).1[0]);
  }

  /** The field loop keeps the issues of every field. */
  lemma {:induction false} FieldsAreBlamed(rt: Runtime, target: string, scope: Scope, line: Option<nat>, rules: seq<FieldRule>, r: nat)
    requires r < |rules| && Blamed(FieldOutcome(rt, rules[r], target, scope, line).1)
    ensures Blamed(AfterFields(rt, target, scope, line, rules).issues)
  {
    hide FieldOutcome, Blamed, AfterField, AfterFields;
    var n := |rules| - 1;
    var before := AfterFields(rt, target, scope, line, rules[..n]);
    LastField(rt, target, scope, line, rules);
    var more := FieldAdds(rt, target, scope, line, before, rules[n]);
    if r == n {
      BlamedIn(FieldOutcome(rt, rules[n], target, scope, line).1, before.issues, more);
    } else {
      FieldsAreBlamed(rt, target, scope, line, rules[..n], r);
      BlamedIn(before.issues, [], FieldOutcome(rt, rules[n], target, scope, line).1 + more);
      assert [] + before.issues == before.issues;
      assert before.issues + (FieldOutcome(rt, rules[n], target, scope, line).1 + more)
          == before.issues + FieldOutcome(rt, rules[n], target, scope, line).1 + more;
    }
  }

  lemma FieldAdds(rt: Runtime, target: string, scope: Scope, line: Option<nat>, before: RowState, rule: FieldRule) returns (more: seq<Issue>)
    ensures AfterField(rt, target, scope, line, before, rule).issues
         == before.issues + FieldOutcome(rt, rule, target, scope, line).1 + more
  {
    hide FieldOutcome, Coerced;
    var raised, after := FieldOutcome(rt, rule, target, scope, line).1, AfterField(rt, target, scope, line, before, rule);
    more := after.issues[|before.issues + raised|..];
  }

  /** The record it shows on, for a hazard that comes first in its rule. */
  lemma {:induction false} HazardIsReported(rt: Runtime, mapping: Mapping, line: Option<nat>, e: nat, r: nat) returns (record: Value)
    requires Valid(rt, mapping) && e < |mapping| && r < |mapping[e].fields| && mapping[e].fields[r].operators != []
    requires NullHazard(rt, mapping[e].fields[r].operators[0])
    ensures Blamed(MappingApplied(rt, mapping, record, line).issues)
  {
    var entity, rule, prefix := mapping[e], mapping[e].fields[r], PrefixOf(mapping[e]);
    ValidEntities(rt, mapping);
    assert EntitySound(rt, entity);
    assert FieldSound(rt, entity.target, rule, prefix);
    hide Valid, Accepted, NullHazard, Faulty, ApplyOperator, SourcePath, Resolved, Extracted, PrefixOf, FieldOutcome, Blamed, AfterFields,
         MappingApplied, Before, Leads, Wrap, KnownTarget, FieldType, EntitySound;
    var source := SourcePath(rule.source, prefix).value;
    var row := HazardShows(rt, rule.operators[0], prefix, source);
    var scope := Scope(row, prefix);
    record := Wrap(prefix, row);
    FieldIsBlamed(rt, rule, entity.target, scope, line);
    FieldsAreBlamed(rt, entity.target, scope, line, entity.fields, r);
    RowIsReached(rt, entity, row, line);
    RowStands(rt, mapping, record, line, e, 0);
    LedIsBlamed(Before(rt, mapping, record, line, e, 0), Added(rt, mapping, record, line, e, 0), MappingApplied(rt, mapping, record, line));
  }

  lemma LedIsBlamed(before: Applied, own: Applied, whole: Applied)
    requires Leads(Append(before, own), whole) && Blamed(own.issues)
    ensures Blamed(whole.issues)
  {
    hide Blamed;
    var rest := whole.issues[|before.issues + own.issues|..];
    assert whole.issues == before.issues + own.issues + rest;
    BlamedIn(own.issues, before.issues, rest);
  }

  /** The nulls that matter come first in their rules, if there are any. */
  predicate HazardsFirst(rt: Runtime, mapping: Mapping) {
    forall e, r, o :: 0 <= e < |mapping| && 0 <= r < |mapping[e].fields| && 0 < o < |mapping[e].fields[r].operators| ==>
      !NullHazard(rt, mapping[e].fields[r].operators[o])
  }

  /** Soundness is exact: an accepted document whose only nulls that matter come
      first in their rules has none if and only if no record is ever reported for
      the mapping's own fault. */
  lemma {:induction false} SoundnessExact(rt: Runtime, mapping: Mapping, line: Option<nat>)
    requires Valid(rt, mapping) && HazardsFirst(rt, mapping)
    ensures NoHazard(rt, mapping) <==> forall record :: AllBlameless(MappingApplied(rt, mapping, record, line).issues)
  {
    hide Valid, NullHazard, MappingApplied, Blameless;
    if NoHazard(rt, mapping) {
      forall record ensures AllBlameless(MappingApplied(rt, mapping, record, line).issues) {
        MappingSound(rt, mapping, record, line);
      }
    } else {
      var e, r, o :| 0 <= e < |mapping| && 0 <= r < |mapping[e].fields| && 0 <= o < |mapping[e].fields[r].operators|
                     && NullHazard(rt, mapping[e].fields[r].operators[o]);
      var record := HazardIsReported(rt, mapping, line, e, r);
      assert !AllBlameless(MappingApplied(rt, mapping, record, line).issues);
    }
  }
}
