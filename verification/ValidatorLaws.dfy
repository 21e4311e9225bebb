/**
 What a clean bill from the validator means for the engine: a mapping it accepts
 cannot go wrong by its own fault, on any record. Explicit null parameters are
 the one gap, and `NullHazard` says exactly which of them matter.
 */
module ValidatorLaws {
  import opened Values
  import opened JsonPath
  import opened Mappings
  import opened Engine
  import opened Validator

  predicate Accepted(rt: Runtime, op: Operator, prefix: Path) {
    OperatorFlaws(rt, op, prefix) == Found([])
  }

  /** An explicit null the validator lets through and the engine trips on. */
  predicate NullHazard(rt: Runtime, op: Operator) {
    var name := Get(op, "op");
    name.Str? && Whitelisted(name.s).Some? && HazardOf(rt, Whitelisted(name.s).value, op)
  }

  predicate HazardOf(rt: Runtime, kind: Operation, op: Operator) {
    match kind
    case CastOp => Get(op, "to").Null? && Get(op, "on_error") != Str("null")
    case ParseDatetimeOp => Get(op, "format").Null?
    case CoalesceOp => Get(op, "sources").Null?
    case ConcatOp => Get(op, "sources").Null? || Parameter(op, "separator", Str("")).Null?
    case HashOp => Get(op, "sources").Null? || Get(op, "algorithm").Null?
    case UnitConvertOp => Get(op, "from").Null? || Get(op, "to").Null?
    case MapValuesOp => Get(op, "table").Null?
    case RegexOp => Get(op, "pattern").Null? && rt.extractor.Some?
    case _ => false
  }

  predicate Faulty(outcome: Outcome) {
    outcome.Failed? && MappingFault(outcome.failure)
  }

  // ----------------------------------------- reading an empty problem list

  lemma NoMissing(op: Operator, required: seq<string>)
    requires MissingFlaws(op, required) == []
    ensures forall p :: p in required ==> p in op
  {
  }

  lemma NoSourceFlaws(items: seq<Value>, prefix: Path)
    requires SourceFlaws(items, prefix) == []
    ensures forall i :: 0 <= i < |items| && items[i].Str? ==> SourcePath(items[i].s, prefix).Ok?
  {
    if items != [] {
      NoSourceFlaws(items[..|items| - 1], prefix);
    }
  }

  lemma AcceptedParts(rt: Runtime, op: Operator, prefix: Path) returns (kind: Operation)
    requires Accepted(rt, op, prefix)
    ensures "op" in op && op["op"].Str? && Whitelisted(op["op"].s) == Some(kind)
    ensures forall p :: p in Required(kind) ==> p in op
    ensures ParameterCheck(rt, kind, op) == Found([])
    ensures Get(op, "sources").List? ==>
              forall i :: 0 <= i < |op["sources"].items| && op["sources"].items[i].Str? ==>
                SourcePath(op["sources"].items[i].s, prefix).Ok?
  {
    hide ParameterCheck, UnexpectedFlaws, SourcePath;
    kind := Whitelisted(op["op"].s).value;
    NoMissing(op, Required(kind));
    if Get(op, "sources").List? {
      NoSourceFlaws(op["sources"].items, prefix);
    }
  }

  // ------------------------------------------------------------- dispatch

  /** The engine and the validator agree on what each whitelisted name means. */
  function Dispatched(rt: Runtime, kind: Operation, op: Operator, v: Value, scope: Scope): Outcome
    requires forall p :: p in Required(kind) ==> p in op
  {
    match kind
    case CastOp =>
      assert "to" in Required(kind);
      Cast(rt, v, op["to"], Parameter(op, "on_error", Str("reject")))
    case DefaultOp => Done(if v.Null? then Get(op, "value") else v)
    case TrimOp => OnText(rt, v, s => rt.Strip(s))
    case LowerOp => OnText(rt, v, rt.lower)
    case UpperOp => OnText(rt, v, rt.upper)
    case UnitConvertOp =>
      assert "from" in Required(kind) && "to" in Required(kind);
      UnitConvert(rt, v, op["from"], op["to"])
    case MapValuesOp => MapValues(rt, v, op)
    case PassthroughOp => Done(v)
    case ParseDatetimeOp =>
      assert "format" in Required(kind);
      ParseDatetime(rt, v, op["format"])
    case CoalesceOp => WithSources(rt, op, items => Coalesce(scope, items))
    case ConcatOp => WithSources(rt, op, items => Concat(rt, scope, items, Parameter(op, "separator", Str(""))))
    case HashOp => HashOf(rt, scope, op)
    case RegexOp =>
      assert "pattern" in Required(kind);
      RegexExtract(rt, v, op["pattern"], Parameter(op, "group", Int(0)))
  }

  lemma DispatchValue(rt: Runtime, kind: Operation, op: Operator, v: Value, scope: Scope)
    requires "op" in op && op["op"].Str? && Whitelisted(op["op"].s) == Some(kind)
    requires forall p :: p in Required(kind) ==> p in op
    requires kind.CastOp? || kind.DefaultOp? || kind.TrimOp? || kind.LowerOp? || kind.UpperOp? || kind.UnitConvertOp?
    ensures ApplyOperator(rt, op, v, scope) == Dispatched(rt, kind, op, v, scope)
  {
    hide Cast, UnitConvert, MapValues, ParseDatetime, WithSources, HashOf, RegexExtract, OnText;
    assert kind.CastOp? ==> "to" in Required(kind);
    assert kind.UnitConvertOp? ==> "from" in Required(kind) && "to" in Required(kind);
  }

  lemma DispatchOther(rt: Runtime, kind: Operation, op: Operator, v: Value, scope: Scope)
    requires "op" in op && op["op"].Str? && Whitelisted(op["op"].s) == Some(kind)
    requires forall p :: p in Required(kind) ==> p in op
    requires !(kind.CastOp? || kind.DefaultOp? || kind.TrimOp? || kind.LowerOp? || kind.UpperOp? || kind.UnitConvertOp?)
    ensures ApplyOperator(rt, op, v, scope) == Dispatched(rt, kind, op, v, scope)
  {
    hide Cast, UnitConvert, MapValues, ParseDatetime, WithSources, HashOf, RegexExtract, OnText;
    assert kind.ParseDatetimeOp? ==> "format" in Required(kind);
    assert kind.RegexOp? ==> "pattern" in Required(kind);
  }

  lemma Dispatch(rt: Runtime, kind: Operation, op: Operator, v: Value, scope: Scope)
    requires "op" in op && op["op"].Str? && Whitelisted(op["op"].s) == Some(kind)
    requires forall p :: p in Required(kind) ==> p in op
    ensures ApplyOperator(rt, op, v, scope) == Dispatched(rt, kind, op, v, scope)
  {
    hide ApplyOperator, Dispatched, Required, Whitelisted;
    if kind.CastOp? || kind.DefaultOp? || kind.TrimOp? || kind.LowerOp? || kind.UpperOp? || kind.UnitConvertOp? {
      DispatchValue(rt, kind, op, v, scope);
    } else {
      DispatchOther(rt, kind, op, v, scope);
    }
  }

  // ------------------------------------------------------------- soundness

  predicate Readable(items: seq<Value>, prefix: Path) {
    forall i :: 0 <= i < |items| ==> items[i].Str? && SourcePath(items[i].s, prefix).Ok?
  }

  lemma {:induction false} CoalesceSound(scope: Scope, items: seq<Value>)
    requires Readable(items, scope.prefix)
    ensures Coalesce(scope, items).Done?
  {
    hide SourcePath, Resolved;
    if items != [] {
      CoalesceSound(scope, items[1..]);
    }
  }

  lemma {:induction false} AllSourcesSound(scope: Scope, items: seq<Value>)
    requires Readable(items, scope.prefix)
    ensures AllSources(scope, items).Ok?
  {
    hide SourcePath, Resolved;
    if items != [] {
      AllSourcesSound(scope, items[1..]);
    }
  }

  lemma ReadableSources(rt: Runtime, op: Operator, prefix: Path)
    requires Sources(op) == Found([]) && !Get(op, "sources").Null?
    requires Get(op, "sources").List? ==>
               forall i :: 0 <= i < |op["sources"].items| && op["sources"].items[i].Str? ==>
                 SourcePath(op["sources"].items[i].s, prefix).Ok?
    ensures "sources" in op && op["sources"].List? && op["sources"].items != [] && Readable(op["sources"].items, prefix)
  {
    hide SourcePath;
  }

  lemma CastSound(rt: Runtime, op: Operator, v: Value)
    requires "to" in op && ParameterCheck(rt, CastOp, op) == Found([])
    requires !op["to"].Null? || Get(op, "on_error") == Str("null")
    ensures !Faulty(Cast(rt, v, op["to"], Parameter(op, "on_error", Str("reject"))))
  {
    assert Choice(op, "to", ["string", "integer", "float", "boolean"]) == Found([]);
    assert op["to"].Null? || op["to"] in [Str("string"), Str("integer"), Str("float"), Str("boolean")];
  }

  lemma UnitsSound(rt: Runtime, op: Operator, v: Value)
    requires "from" in op && "to" in op && ParameterCheck(rt, UnitConvertOp, op) == Found([])
    requires !op["from"].Null? && !op["to"].Null?
    ensures !Faulty(UnitConvert(rt, v, op["from"], op["to"]))
  {
    SupportedHaveFactors(rt.lower(op["from"].s), rt.lower(op["to"].s));
    hide Factor, SupportedUnits;
  }

  /** The validator's pairs of units are exactly those the engine can convert. */
  lemma SupportedHaveFactors(from: string, to: string)
    ensures SupportedUnits(from, to) <==> Factor(from, to).Some?
  {
  }

  lemma TableSound(rt: Runtime, op: Operator, v: Value)
    requires "table" in op && ParameterCheck(rt, MapValuesOp, op) == Found([])
    requires !op["table"].Null?
    ensures !Faulty(MapValues(rt, v, op))
  {
    assert op["table"].Obj?;
  }

  lemma RegexSound(rt: Runtime, op: Operator, v: Value)
    requires "pattern" in op && ParameterCheck(rt, RegexOp, op) == Found([])
    requires !op["pattern"].Null? || rt.extractor.None?
    ensures !Faulty(RegexExtract(rt, v, op["pattern"], Parameter(op, "group", Int(0))))
  {
    hide UnsupportedByExtractor;
  }

  lemma DispatchedSound(rt: Runtime, kind: Operation, op: Operator, v: Value, scope: Scope)
    requires forall p :: p in Required(kind) ==> p in op
    requires ParameterCheck(rt, kind, op) == Found([]) && !HazardOf(rt, kind, op)
    requires Get(op, "sources").List? ==>
               forall i :: 0 <= i < |op["sources"].items| && op["sources"].items[i].Str? ==>
                 SourcePath(op["sources"].items[i].s, scope.prefix).Ok?
    ensures !Faulty(Dispatched(rt, kind, op, v, scope))
  {
    hide UnitConvert, Cast, RegexExtract, MapValues, SourcePath, UnitCheck, RegexCheck, MapValuesCheck, Choice;
    match kind {
      case CastOp => assert "to" in Required(kind); CastSound(rt, op, v);
      case UnitConvertOp => assert "from" in Required(kind) && "to" in Required(kind); UnitsSound(rt, op, v);
      case CoalesceOp => ReadableSources(rt, op, scope.prefix); CoalesceSound(scope, op["sources"].items);
      case ConcatOp => ConcatSound(rt, op, scope);
      case HashOp => HashSound(rt, op, scope);
      case MapValuesOp => assert "table" in Required(kind); TableSound(rt, op, v);
      case ParseDatetimeOp => assert "format" in Required(kind); FormatSound(rt, op, v);
      case RegexOp => assert "pattern" in Required(kind); RegexSound(rt, op, v);
      case _ =>
    }
  }

  lemma FormatSound(rt: Runtime, op: Operator, v: Value)
    requires "format" in op && ParameterCheck(rt, ParseDatetimeOp, op) == Found([])
    requires !op["format"].Null?
    ensures !Faulty(ParseDatetime(rt, v, op["format"]))
  {
  }

  /** An operator the validator accepts never fails by the mapping's own fault,
      on any value and any row, unless a null parameter is one that matters. */
  lemma {:induction false} OperatorSound(rt: Runtime, op: Operator, v: Value, scope: Scope)
    requires Accepted(rt, op, scope.prefix)
    requires !NullHazard(rt, op)
    ensures !Faulty(ApplyOperator(rt, op, v, scope))
  {
    var kind := AcceptedParts(rt, op, scope.prefix);
    hide Accepted, ApplyOperator, Dispatched, ParameterCheck, SourcePath, Whitelisted, HazardOf, Required;
    Dispatch(rt, kind, op, v, scope);
    DispatchedSound(rt, kind, op, v, scope);
  }

  lemma ConcatSound(rt: Runtime, op: Operator, scope: Scope)
    requires ParameterCheck(rt, ConcatOp, op) == Found([])
    requires !Get(op, "sources").Null? && !Parameter(op, "separator", Str("")).Null?
    requires Get(op, "sources").List? ==>
               forall i :: 0 <= i < |op["sources"].items| && op["sources"].items[i].Str? ==>
                 SourcePath(op["sources"].items[i].s, scope.prefix).Ok?
    ensures !Faulty(WithSources(rt, op, items => Concat(rt, scope, items, Parameter(op, "separator", Str("")))))
  {
    hide SourcePath;
    ReadableSources(rt, op, scope.prefix);
    AllSourcesSound(scope, op["sources"].items);
  }

  lemma HashSound(rt: Runtime, op: Operator, scope: Scope)
    requires ParameterCheck(rt, HashOp, op) == Found([])
    requires !Get(op, "sources").Null? && !Get(op, "algorithm").Null?
    requires Get(op, "sources").List? ==>
               forall i :: 0 <= i < |op["sources"].items| && op["sources"].items[i].Str? ==>
                 SourcePath(op["sources"].items[i].s, scope.prefix).Ok?
    ensures !Faulty(HashOf(rt, scope, op))
  {
    hide SourcePath;
    ReadableSources(rt, op, scope.prefix);
    AllSourcesSound(scope, op["sources"].items);
    assert Get(op, "algorithm") == Str("sha256") by {
      assert Choice(op, "algorithm", ["sha256"]) == Found([]);
    }
  }

  // --------------------------------------------------------- and its converse

  /** A document that holds `v` at the end of a chain of keys. */
  function Nest(path: Path, v: Value): Value
    requires KeysOnly(path)
  {
    if path == [] then v else Obj(map[path[0].name := Nest(path[1..], v)])
  }

  lemma NestResolves(path: Path, v: Value)
    requires KeysOnly(path)
    ensures Resolved(Nest(path, v), path) == v
  {
  }

  /** A null that matters does go wrong: on some row, whatever path the operator's
      own value is read from. */
  lemma {:induction false} HazardShows(rt: Runtime, op: Operator, prefix: Path, source: Path) returns (row: Value)
    requires Accepted(rt, op, prefix) && KeysOnly(source)
    requires NullHazard(rt, op)
    ensures !row.Null? && Faulty(ApplyOperator(rt, op, Resolved(row, source), Scope(row, prefix)))
  {
    var kind := AcceptedParts(rt, op, prefix);
    row := Nest(source, Int(0));
    NestResolves(source, Int(0));
    assert forall p :: p in Required(kind) ==> p in op;
    if kind.ConcatOp? && !Get(op, "sources").Null? {
      row := SeparatorShows(rt, op, prefix);
    }
    var v, scope := Resolved(row, source), Scope(row, prefix);
    assert kind.ConcatOp? || v == Int(0);
    Dispatch(rt, kind, op, v, scope);
    hide Accepted, ApplyOperator, SourcePath, SupportedUnits, Resolved, Nest;
    match kind {
      case CastOp => assert "to" in Required(kind);
      case UnitConvertOp => assert "from" in Required(kind) && "to" in Required(kind);
      case CoalesceOp => assert "sources" in Required(kind);
      case ConcatOp => assert "sources" in Required(kind);
      case HashOp => assert "sources" in Required(kind) && "algorithm" in Required(kind);
      case MapValuesOp => assert "table" in Required(kind);
      case ParseDatetimeOp => assert "format" in Required(kind);
      case RegexOp => assert "pattern" in Required(kind);
      case _ =>
    }
  }

  lemma SeparatorShows(rt: Runtime, op: Operator, prefix: Path) returns (row: Value)
    requires ParameterCheck(rt, ConcatOp, op) == Found([])
    requires !Get(op, "sources").Null? && Parameter(op, "separator", Str("")).Null?
    requires Get(op, "sources").List? ==>
               forall i :: 0 <= i < |op["sources"].items| && op["sources"].items[i].Str? ==>
                 SourcePath(op["sources"].items[i].s, prefix).Ok?
    ensures !row.Null?
    ensures Faulty(WithSources(rt, op, items => Concat(rt, Scope(row, prefix), items, Parameter(op, "separator", Str("")))))
  {
    hide SourcePath;
    ReadableSources(rt, op, prefix);
    var items := op["sources"].items;
    var segments := SourcePath(items[0].s, prefix).value;
    NestResolves(segments, Int(0));
    row := Nest(segments, Int(0));
    var scope := Scope(row, prefix);
    AllSourcesSound(scope, items);
    var values := AllSources(scope, items).value;
    assert values[0] == Int(0);
    assert NonNull(values) == [Int(0)] + NonNull(values[1..]);
  }

  /** Exactly which accepted operators can still fail by the mapping's fault. */
  lemma {:induction false} HazardExact(rt: Runtime, op: Operator, prefix: Path)
    requires Accepted(rt, op, prefix)
    ensures NullHazard(rt, op)
        <==> exists v, row :: Faulty(ApplyOperator(rt, op, v, Scope(row, prefix)))
  {
    hide Accepted, NullHazard, ApplyOperator, Faulty;
    if NullHazard(rt, op) {
      var row := HazardShows(rt, op, prefix, []);
      assert Faulty(ApplyOperator(rt, op, Resolved(row, []), Scope(row, prefix)));
    } else {
      forall v, row ensures !Faulty(ApplyOperator(rt, op, v, Scope(row, prefix))) {
        OperatorSound(rt, op, v, Scope(row, prefix));
      }
    }
  }

  // -------------------------------------------------------- whole mappings

  /** No operator of the mapping carries a null that matters. */
  predicate NoHazard(rt: Runtime, mapping: Mapping) {
    forall e, r, o :: 0 <= e < |mapping| && 0 <= r < |mapping[e].fields| && 0 <= o < |mapping[e].fields[r].operators| ==>
      !NullHazard(rt, mapping[e].fields[r].operators[o])
  }

  predicate FieldSound(rt: Runtime, target: string, rule: FieldRule, prefix: Path) {
    && FieldType(target, rule.target).Some?
    && SourcePath(rule.source, prefix).Ok?
    && forall o :: 0 <= o < |rule.operators| ==> Accepted(rt, rule.operators[o], prefix)
  }

  predicate EntitySound(rt: Runtime, entity: EntityMapping) {
    && KnownTarget(entity.target)
    && entity.naturalKey != []
    && (entity.Iterated() ==> IteratePath(entity.iterate.value).Ok?)
    && forall r :: 0 <= r < |entity.fields| ==> FieldSound(rt, entity.target, entity.fields[r], PrefixOf(entity))
  }

  lemma OperatorsAccepted(rt: Runtime, target: string, rule: FieldRule, prefix: Path, index: nat)
    requires index <= |rule.operators|
    requires OperatorsFrom(rt, target, rule, prefix, index) == Found([])
    ensures forall o :: index <= o < |rule.operators| ==> Accepted(rt, rule.operators[o], prefix)
    decreases |rule.operators| - index
  {
    hide OperatorFlaws;
    if index < |rule.operators| {
      OperatorsAccepted(rt, target, rule, prefix, index + 1);
    }
  }

  lemma FieldsSound(rt: Runtime, target: string, rules: seq<FieldRule>, prefix: Path)
    requires FieldsFrom(rt, target, rules, prefix) == Found([])
    ensures forall r :: 0 <= r < |rules| ==> FieldSound(rt, target, rules[r], prefix)
  {
    hide FieldType, SourcePath, Accepted, OperatorFlaws;
    if rules != [] {
      OperatorsAccepted(rt, target, rules[0], prefix, 0);
      FieldsSound(rt, target, rules[1..], prefix);
      assert forall r :: 0 < r < |rules| ==> rules[r] == rules[1..][r - 1];
    }
  }

  lemma {:induction false} ValidEntities(rt: Runtime, mapping: Mapping)
    requires Valid(rt, mapping)
    ensures forall e :: 0 <= e < |mapping| ==> EntitySound(rt, mapping[e])
  {
    hide FieldSound, KnownTarget;
    if mapping != [] {
      var entity := mapping[0];
      FieldsSound(rt, entity.target, entity.fields, PrefixOf(entity));
      ValidEntities(rt, mapping[1..]);
      assert forall e :: 0 < e < |mapping| ==> mapping[e] == mapping[1..][e - 1];
    }
  }

  /** The issue is about the data, or about the regular-expression extractor. */
  predicate Blameless(issue: Issue) {
    !issue.reason.IterateUnsupported? && (issue.reason.Operation? ==> !MappingFault(issue.reason.failure))
  }

  predicate AllBlameless(issues: seq<Issue>) {
    forall i :: 0 <= i < |issues| ==> Blameless(issues[i])
  }

  lemma OperatorsSound(rt: Runtime, ops: seq<Operator>, v: Value, scope: Scope)
    requires forall o :: 0 <= o < |ops| ==> Accepted(rt, ops[o], scope.prefix) && !NullHazard(rt, ops[o])
    ensures !Faulty(ApplyOperators(rt, ops, v, scope))
    decreases |ops|
  {
    hide ApplyOperator, Accepted, NullHazard;
    if ops != [] {
      OperatorSound(rt, ops[0], v, scope);
      var first := ApplyOperator(rt, ops[0], v, scope);
      if first.Done? {
        OperatorsSound(rt, ops[1..], first.value, scope);
      }
    }
  }

  lemma FieldBlameless(rt: Runtime, rule: FieldRule, target: string, scope: Scope, line: Option<nat>)
    requires FieldSound(rt, target, rule, scope.prefix)
    requires forall o :: 0 <= o < |rule.operators| ==> !NullHazard(rt, rule.operators[o])
    ensures AllBlameless(FieldOutcome(rt, rule, target, scope, line).1)
  {
    hide ApplyOperators, Accepted, NullHazard, FieldType, SourcePath;
    var found := Lookup(scope, rule.source);
    OperatorsSound(rt, rule.operators, found.value, scope);
  }

  lemma AfterBlameless(rt: Runtime, target: string, scope: Scope, line: Option<nat>, st: RowState, rule: FieldRule)
    requires AllBlameless(st.issues) && AllBlameless(FieldOutcome(rt, rule, target, scope, line).1)
    ensures AllBlameless(AfterField(rt, target, scope, line, st, rule).issues)
  {
    hide FieldOutcome, Coerced;
  }

  lemma RowBlameless(rt: Runtime, target: string, scope: Scope, line: Option<nat>, rules: seq<FieldRule>)
    requires forall r :: 0 <= r < |rules| ==> FieldSound(rt, target, rules[r], scope.prefix)
    requires forall r, o :: 0 <= r < |rules| && 0 <= o < |rules[r].operators| ==> !NullHazard(rt, rules[r].operators[o])
    ensures AllBlameless(AfterFields(rt, target, scope, line, rules).issues)
  {
    hide FieldOutcome, FieldSound, NullHazard, AfterField;
    if rules != [] {
      var n := |rules| - 1;
      RowBlameless(rt, target, scope, line, rules[..n]);
      FieldBlameless(rt, rules[n], target, scope, line);
      AfterBlameless(rt, target, scope, line, AfterFields(rt, target, scope, line, rules[..n]), rules[n]);
    }
  }

  lemma RowsBlameless(rt: Runtime, entity: EntityMapping, prefix: Path, line: Option<nat>, rows: seq<Value>)
    requires forall r :: 0 <= r < |entity.fields| ==> FieldSound(rt, entity.target, entity.fields[r], prefix)
    requires forall r, o :: 0 <= r < |entity.fields| && 0 <= o < |entity.fields[r].operators| ==>
               !NullHazard(rt, entity.fields[r].operators[o])
    ensures AllBlameless(RowsApplied(rt, entity, prefix, line, rows).issues)
  {
    hide AfterFields, FieldSound, NullHazard, Blameless;
    if rows != [] {
      RowsBlameless(rt, entity, prefix, line, rows[..|rows| - 1]);
      RowBlameless(rt, entity.target, Scope(rows[|rows| - 1], prefix), line, entity.fields);
    }
  }

  /** A mapping the validator accepts, with no null that matters, meets no
      unsupported path, unknown operator, missing or malformed parameter,
      unknown cast target, unit pair or algorithm, whatever the record holds. */
  lemma {:induction false} MappingSound(rt: Runtime, mapping: Mapping, record: Value, line: Option<nat>)
    requires Valid(rt, mapping) && NoHazard(rt, mapping)
    ensures AllBlameless(MappingApplied(rt, mapping, record, line).issues)
  {
    ValidEntities(rt, mapping);
    EntitiesBlameless(rt, mapping, record, line);
  }

  lemma {:induction false} EntitiesBlameless(rt: Runtime, mapping: Mapping, record: Value, line: Option<nat>)
    requires forall e :: 0 <= e < |mapping| ==> EntitySound(rt, mapping[e])
    requires NoHazard(rt, mapping)
    ensures AllBlameless(MappingApplied(rt, mapping, record, line).issues)
  {
    hide RowsApplied, FieldSound, NullHazard, KnownTarget;
    if mapping != [] {
      var n := |mapping| - 1;
      EntitiesBlameless(rt, mapping[..n], record, line);
      var (rows, prefix, issues) := Extracted(mapping[n], record, line);
      assert prefix == PrefixOf(mapping[n]);
      RowsBlameless(rt, mapping[n], prefix, line, rows);
    }
  }

  // -------------------------------------------------------- and their codes

  /** The code of an unsupported path is that of no other reason. */
  lemma {:induction false} PathCodeExact(reason: Reason)
    ensures Code(reason) == "MAPPING_UNSUPPORTED_PATH"
        <==> reason.IterateUnsupported? || (reason.Operation? && reason.failure.UnsupportedPath?)
  {
    assert "MAPPING_UNSUPPORTED_PATH"[8] == 'U' && "MAPPING_MISSING_NATURAL_KEY"[8] == 'M' && "MULTIPLE_SESSIONS_IGNORED"[1] == 'U';
  }

  /** On an accepted document without such nulls, no record of any file is
      reported with that code, and none for a failure of the mapping's own. */
  lemma {:induction false} NoPathCode(rt: Runtime, mapping: Mapping, record: Value, line: Option<nat>, i: nat)
    requires Valid(rt, mapping) && NoHazard(rt, mapping)
    requires i < |MappingApplied(rt, mapping, record, line).issues|
    ensures Code(MappingApplied(rt, mapping, record, line).issues[i].reason) != "MAPPING_UNSUPPORTED_PATH"
  {
    MappingSound(rt, mapping, record, line);
    var issue := MappingApplied(rt, mapping, record, line).issues[i];
    hide MappingApplied, Valid, NoHazard, Code;
    PathCodeExact(issue.reason);
    assert Blameless(issue);
  }

  // -------------------------------------------------- when checking raises

  /** A parameter on which a check raises: a list or an object looked up in a
      set, or a text whose syntax probe raises what its clause does not catch. */
  predicate RaisingParameter(rt: Runtime, op: Operator) {
    var name := Get(op, "op");
    || Unhashable(name)
    || (name.Str? && Whitelisted(name.s).Some? && RaisesFor(rt, Whitelisted(name.s).value, op))
  }

  predicate RaisesFor(rt: Runtime, kind: Operation, op: Operator) {
    match kind
    case CastOp => Unhashable(Get(op, "to")) || Unhashable(Get(op, "on_error"))
    case MapValuesOp => Unhashable(Get(op, "on_unknown"))
    case HashOp => Unhashable(Get(op, "algorithm"))
    case ParseDatetimeOp =>
      var format := Get(op, "format");
      format.Str? && format.s != "" && format.s !in FORMAT_TOKENS && rt.dateFormat(format.s).Uncaught?
    case RegexOp => Get(op, "pattern").Str? && Get(op, "pattern").s != "" && rt.groups(Get(op, "pattern").s).Uncaught?
    case _ => false
  }

  lemma CheckRaises(rt: Runtime, kind: Operation, op: Operator)
    ensures ParameterCheck(rt, kind, op).Raised? <==> RaisesFor(rt, kind, op)
  {
    hide SupportedUnits, UnsupportedByExtractor;
  }

  lemma {:induction false} OperatorRaises(rt: Runtime, op: Operator, prefix: Path)
    ensures OperatorFlaws(rt, op, prefix).Raised? <==> RaisingParameter(rt, op)
  {
    hide ParameterCheck, RaisesFor, UnexpectedFlaws, MissingFlaws, InvalidFlaws, SourceListFlaws;
    var name := Get(op, "op");
    if name.Str? && Whitelisted(name.s).Some? {
      CheckRaises(rt, Whitelisted(name.s).value, op);
    }
    EmptyNameUnknown();
  }

  lemma EmptyNameUnknown()
    ensures Whitelisted("").None?
  {
  }

  predicate RuleRaises(rt: Runtime, rule: FieldRule) {
    exists o :: 0 <= o < |rule.operators| && RaisingParameter(rt, rule.operators[o])
  }

  predicate EntityRaises(rt: Runtime, entity: EntityMapping) {
    KnownTarget(entity.target) && exists r :: 0 <= r < |entity.fields| && RuleRaises(rt, entity.fields[r])
  }

  lemma OperatorsRaise(rt: Runtime, target: string, rule: FieldRule, prefix: Path, index: nat)
    requires index <= |rule.operators|
    ensures OperatorsFrom(rt, target, rule, prefix, index).Raised?
        <==> exists o :: index <= o < |rule.operators| && RaisingParameter(rt, rule.operators[o])
    decreases |rule.operators| - index
  {
    hide RaisingParameter, OperatorFlaws;
    if index < |rule.operators| {
      OperatorsRaise(rt, target, rule, prefix, index + 1);
      OperatorRaises(rt, rule.operators[index], prefix);
    }
  }

  lemma FieldsRaise(rt: Runtime, target: string, rules: seq<FieldRule>, prefix: Path)
    ensures FieldsFrom(rt, target, rules, prefix).Raised?
        <==> exists r :: 0 <= r < |rules| && RuleRaises(rt, rules[r])
  {
    hide FieldHead, OperatorsFrom, RuleRaises;
    if rules != [] {
      FieldRaises(rt, target, rules[0], prefix);
      FieldsRaise(rt, target, rules[1..], prefix);
      assert forall r :: 0 < r < |rules| ==> rules[r] == rules[1..][r - 1];
      assert forall r :: 0 <= r < |rules| - 1 ==> rules[1..][r] == rules[r + 1];
    }
  }

  lemma FieldRaises(rt: Runtime, target: string, rule: FieldRule, prefix: Path)
    ensures FieldProblems(rt, target, rule, prefix).Raised? <==> RuleRaises(rt, rule)
  {
    hide FieldHead, RaisingParameter;
    OperatorsRaise(rt, target, rule, prefix, 0);
  }

  /** Checking a document raises exactly when some operator of a known entity
      holds a list or an object where a set is asked, or a date format or a
      pattern on which the syntax probe raises what is not caught. */
  lemma {:induction false} ValidateRaises(rt: Runtime, mapping: Mapping)
    ensures Validated(rt, mapping).Raised? <==> exists e :: 0 <= e < |mapping| && EntityRaises(rt, mapping[e])
  {
    hide EntityHead, FieldsFrom, KnownTarget, RuleRaises;
    if mapping != [] {
      FieldsRaise(rt, mapping[0].target, mapping[0].fields, PrefixOf(mapping[0]));
      ValidateRaises(rt, mapping[1..]);
      assert forall e :: 0 < e < |mapping| ==> mapping[e] == mapping[1..][e - 1];
      assert forall e :: 0 <= e < |mapping| - 1 ==> mapping[1..][e] == mapping[e + 1];
    }
  }

  /** It does raise, on a document: a cast whose `to` is a list. */
  lemma {:induction false} ListRaises(rt: Runtime)
    ensures var op: Operator := map["op" := Str("cast"), "to" := List([])];
            var rules := [FieldRule("external_id", "$.id", true, [op])];
            Validated(rt, [EntityMapping("session", ["external_id"], rules, None)]).Raised?
  {
    var op: Operator := map["op" := Str("cast"), "to" := List([])];
    var rule := FieldRule("external_id", "$.id", true, [op]);
    var mapping := [EntityMapping("session", ["external_id"], [rule], None)];
    assert "op" != "to" && Unhashable(Get(op, "to"));
    assert RaisingParameter(rt, rule.operators[0]);
    assert RuleRaises(rt, mapping[0].fields[0]);
    assert EntityRaises(rt, mapping[0]);
    ValidateRaises(rt, mapping);
  }
}
