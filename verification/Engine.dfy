/**
 The mapping interpreter: operators, fields, rows and whole records, with the
 type gate every value passes on its way to a target field.

 Exceptions are values of `Outcome`: every one an operator raises is caught by
 the field around it. The loops of the source are methods, proved equal to the
 functions the laws are stated about.
 */
module Engine {
  import opened Values
  import opened JsonPath
  import opened Mappings

  datatype Outcome = Done(value: Value) | Failed(failure: Failure)

  /** The row an entity is read from, and the parsed `iterate` a source may
      repeat; an empty prefix stands for an entity that is not iterated. */
  datatype Scope = Scope(row: Value, prefix: Path)

  function Lookup(scope: Scope, path: string): Outcome {
    match SourcePath(path, scope.prefix)
    case Err(e) => Failed(UnsupportedPath(e))
    case Ok(segments) => Done(Resolved(scope.row, segments))
  }

  // -------------------------------------------------------------- operators

  /** `op.get(name, default)`. */
  function Parameter(op: Operator, name: string, default: Value): Value {
    if name in op then op[name] else default
  }

  predicate TrueText(s: string) { s in ["true", "1", "yes"] }

  predicate FalseText(s: string) { s in ["false", "0", "no"] }

  predicate Numeric(v: Value) {
    v.Int? || v.Bool? || v.Float? || v.Str? || v.Bytes?
  }

  /** The conversion itself, before `on_error` has its say. */
  function Convert(rt: Runtime, v: Value, to: Value): Outcome {
    if to == Str("string") then Done(Str(rt.TextOf(v)))
    else if to == Str("integer") then
      if !Numeric(v) then Failed(CastFailed)
      else match rt.toInt(v)
           case Converted(n) => Done(Int(n))
           case Malformed => Failed(CastFailed)
           case Overflowed => Failed(OperatorFailed)
    else if to == Str("float") then
      if !Numeric(v) then Failed(CastFailed)
      else match rt.toFloat(v)
           case Converted(x) => Done(Float(x))
           case Malformed => Failed(CastFailed)
           case Overflowed => Failed(OperatorFailed)
    else if to == Str("boolean") then
      if v.Bool? then Done(v)
      else
        var normalized := rt.lower(rt.Strip(rt.TextOf(v)));
        if TrueText(normalized) then Done(Bool(true))
        else if FalseText(normalized) then Done(Bool(false))
        else Failed(CastFailed)
    else Failed(UnknownCastTarget)
  }

  /** An unknown value stays unknown; `on_error: null` hides a refused value and
      an unknown target, but not a number out of range. */
  function Cast(rt: Runtime, v: Value, to: Value, onError: Value): Outcome {
    if v.Null? || (v.Str? && rt.Blank(v.s)) then Done(Null)
    else
      var converted := Convert(rt, v, to);
      if converted.Failed? && (converted.failure.CastFailed? || converted.failure.UnknownCastTarget?)
         && onError == Str("null")
      then Done(Null) else converted
  }

  function Factor(from: string, to: string): Option<real> {
    if from == "s" && to == "ms" then Some(1000.0)
    else if from == "min" && to == "ms" then Some(60000.0)
    else if from == "ns" && to == "ms" then Some(0.000001)
    else if from == "ms" && to == "s" then Some(0.001)
    else if from == "kb" && to == "b" then Some(1024.0)
    else if from == "mb" && to == "b" then Some(1048576.0)
    else None
  }

  function Scaled(x: Number, factor: real, whole: bool): Outcome {
    match x
    case Finite(r) => Done(if whole then Int(Round(r * factor)) else Float(Finite(r * factor)))
    case Infinite(_) => if whole then Failed(OperatorFailed) else Done(Float(x))
    case NaN => if whole then Failed(OperatorFailed) else Done(Float(x))
  }

  function UnitConvert(rt: Runtime, v: Value, from: Value, to: Value): Outcome {
    if v.Null? then Done(Null)
    else if !from.Str? then Failed(BadParameter("from"))
    else if !to.Str? then Failed(BadParameter("to"))
    else
      match Factor(rt.lower(from.s), rt.lower(to.s))
      case None => Failed(UnknownUnits)
      case Some(factor) =>
        if !Numeric(v) then Failed(OperatorFailed)
        else match rt.toFloat(v)
             case Converted(x) => Scaled(x, factor, rt.lower(to.s) in ["ms", "b"])
             case Malformed => Failed(OperatorFailed)
             case Overflowed => Failed(OperatorFailed)
  }

  /** `table[key]` when the table has the key, None to fall back on `on_unknown`. */
  function TableEntry(table: Value, key: string): Option<Outcome> {
    match table
    case Obj(entries) => if key in entries then Some(Done(entries[key])) else None
    case List(items) => if Str(key) in items then Some(Failed(BadParameter("table"))) else None
    case Str(text) => if Contains(text, key) then Some(Failed(BadParameter("table"))) else None
    case _ => Some(Failed(BadParameter("table")))
  }

  function MapValues(rt: Runtime, v: Value, op: Operator): Outcome {
    var key := if v.Null? then "null" else rt.TextOf(v);
    match TableEntry(Parameter(op, "table", Obj(map[])), key)
    case Some(found) => found
    case None =>
      var mode := Parameter(op, "on_unknown", Str("passthrough"));
      if mode == Str("null") then Done(Null)
      else if mode == Str("constant") then Done(Get(op, "constant"))
      else if mode == Str("reject") then Failed(OperatorFailed)
      else Done(v)
  }

  function ParseDatetime(rt: Runtime, v: Value, format: Value): Outcome {
    if v.Null? then Done(Null)
    else if !format.Str? then Failed(BadParameter("format"))
    else match rt.instant(v, format.s)
         case Answered(t) => Done(DateTime(t))
         case Declined => Failed(DatetimeUnreadable)
         case Uncaught => Failed(OperatorFailed)
  }

  function Texts(names: seq<string>): seq<Value> {
    seq(|names|, i requires 0 <= i < |names| => Str(names[i]))
  }

  /** The items of a `sources` parameter, as far as a loop can walk them: a text
      is walked by its characters, an object by its keys. */
  function SourceItems(rt: Runtime, sources: Value): Option<seq<Value>> {
    match sources
    case List(items) => Some(items)
    case Str(text) => Some(seq(|text|, i requires 0 <= i < |text| => Str([text[i]])))
    case Obj(fields) => Some(Texts(rt.keys(fields)))
    case _ => None
  }

  /** One source of a combining operator. */
  function SourceValue(scope: Scope, source: Value): Outcome {
    if source.Str? then Lookup(scope, source.s) else Failed(BadParameter("sources"))
  }

  function Coalesce(scope: Scope, sources: seq<Value>): Outcome {
    if sources == [] then Done(Null)
    else
      var first := SourceValue(scope, sources[0]);
      if first.Failed? || !first.value.Null? then first else Coalesce(scope, sources[1..])
  }

  /** Every source in order, up to the first that cannot be looked up. */
  function AllSources(scope: Scope, sources: seq<Value>): Result<seq<Value>, Failure> {
    if sources == [] then Ok([])
    else
      match SourceValue(scope, sources[0])
      case Failed(f) => Err(f)
      case Done(v) =>
        match AllSources(scope, sources[1..])
        case Err(f) => Err(f)
        case Ok(rest) => Ok([v] + rest)
  }

  function JoinTexts(rt: Runtime, parts: seq<Value>, separator: string): string
    requires parts != []
  {
    if |parts| == 1 then rt.TextOf(parts[0])
    else rt.TextOf(parts[0]) + separator + JoinTexts(rt, parts[1..], separator)
  }

  function Concat(rt: Runtime, scope: Scope, sources: seq<Value>, separator: Value): Outcome {
    match AllSources(scope, sources)
    case Err(f) => Failed(f)
    case Ok(values) =>
      var parts := NonNull(values);
      if parts == [] then Done(Null)
      else if !separator.Str? then Failed(BadParameter("separator"))
      else Done(Str(JoinTexts(rt, parts, separator.s)))
  }

  /** The dictionary a hash is taken of; a repeated source keeps one entry. */
  function SourceTable(sources: seq<Value>, values: seq<Value>): map<string, Value>
    requires |sources| == |values|
  {
    if sources == [] then map[]
    else
      var n := |sources| - 1;
      var before := SourceTable(sources[..n], values[..n]);
      if sources[n].Str? then before[sources[n].s := values[n]] else before
  }

  function Hash(rt: Runtime, scope: Scope, sources: seq<Value>): Outcome {
    match AllSources(scope, sources)
    case Err(f) => Failed(f)
    case Ok(values) =>
      if NonNull(values) == [] then Done(Null)
      else
        AllSourcesLength(scope, sources);
        match rt.digest(SourceTable(sources, values))
        case Some(text) => Done(Str(text))
        case None => Failed(OperatorFailed)
  }

  lemma AllSourcesLength(scope: Scope, sources: seq<Value>)
    ensures var r := AllSources(scope, sources); r.Ok? ==> |r.value| == |sources|
  {
  }

  /** Runs `use` on the items of `sources`, unless nothing can walk them. */
  function WithSources(rt: Runtime, op: Operator, use: seq<Value> -> Outcome): Outcome {
    if "sources" !in op then Failed(MissingParameter("sources"))
    else match SourceItems(rt, op["sources"])
         case None => Failed(BadParameter("sources"))
         case Some(items) => use(items)
  }

  function HashOf(rt: Runtime, scope: Scope, op: Operator): Outcome {
    if "sources" !in op then Failed(MissingParameter("sources"))
    else if Parameter(op, "algorithm", Str("sha256")) != Str("sha256") then Failed(UnknownAlgorithm)
    else WithSources(rt, op, items => Hash(rt, scope, items))
  }

  function RegexExtract(rt: Runtime, v: Value, pattern: Value, group: Value): Outcome {
    if v.Null? then Done(Null)
    else if rt.extractor.None? then Failed(ExtractorMissing)
    else if !pattern.Str? then Failed(BadParameter("pattern"))
    else if !group.Int? then Failed(BadParameter("group"))
    else match rt.extractor.value(rt.TextOf(v), pattern.s, group.i)
         case Converted(None) => Done(Null)
         case Converted(Some(text)) => Done(Str(text))
         case Malformed => Failed(ExtractorRefused)
         case Overflowed => Failed(OperatorFailed)
  }

  function OnText(rt: Runtime, v: Value, change: string -> string): Outcome {
    Done(if v.Null? then Null else Str(change(rt.TextOf(v))))
  }

  /** `_apply_operator`. */
  function ApplyOperator(rt: Runtime, op: Operator, v: Value, scope: Scope): Outcome {
    var name := Get(op, "op");
    if name == Str("cast") then
      if "to" !in op then Failed(MissingParameter("to"))
      else Cast(rt, v, op["to"], Parameter(op, "on_error", Str("reject")))
    else if name == Str("default") then Done(if v.Null? then Get(op, "value") else v)
    else if name == Str("trim") then OnText(rt, v, s => rt.Strip(s))
    else if name == Str("lower") then OnText(rt, v, rt.lower)
    else if name == Str("upper") then OnText(rt, v, rt.upper)
    else if name == Str("unit_convert") then
      if "from" !in op then Failed(MissingParameter("from"))
      else if "to" !in op then Failed(MissingParameter("to"))
      else UnitConvert(rt, v, op["from"], op["to"])
    else if name == Str("map_values") then MapValues(rt, v, op)
    else if name == Str("json_passthrough") then Done(v)
    else if name == Str("parse_datetime") then
      if "format" !in op then Failed(MissingParameter("format"))
      else ParseDatetime(rt, v, op["format"])
    else if name == Str("coalesce") then WithSources(rt, op, items => Coalesce(scope, items))
    else if name == Str("concat") then
      WithSources(rt, op, items => Concat(rt, scope, items, Parameter(op, "separator", Str(""))))
    else if name == Str("hash") then HashOf(rt, scope, op)
    else if name == Str("regex_extract") then
      if "pattern" !in op then Failed(MissingParameter("pattern"))
      else RegexExtract(rt, v, op["pattern"], Parameter(op, "group", Int(0)))
    else Failed(UnknownOperator)
  }

  /** The operators of a rule in declared order, up to the first failure. */
  function ApplyOperators(rt: Runtime, ops: seq<Operator>, v: Value, scope: Scope): Outcome
    decreases |ops|
  {
    if ops == [] then Done(v)
    else
      match ApplyOperator(rt, ops[0], v, scope)
      case Failed(f) => Failed(f)
      case Done(next) => ApplyOperators(rt, ops[1..], next, scope)
  }

  // ----------------------------------------------------------------- fields

  function SeverityOf(rule: FieldRule): Severity {
    if rule.required then Rejected else Warning
  }

  /** `_apply_field`: a value, and the issue of the step that failed. */
  function FieldOutcome(rt: Runtime, rule: FieldRule, target: string, scope: Scope, line: Option<nat>)
    : (Value, seq<Issue>)
  {
    match Lookup(scope, rule.source)
    case Failed(f) => (Null, [Issue(SeverityOf(rule), Operation(f), SourceOf(target, rule.target), line)])
    case Done(found) =>
      match ApplyOperators(rt, rule.operators, found, scope)
      case Failed(f) => (Null, [Issue(SeverityOf(rule), Operation(f), FieldOf(target, rule.target), line)])
      case Done(v) => (v, [])
  }

  method ApplyField(rt: Runtime, rule: FieldRule, target: string, scope: Scope, line: Option<nat>)
    returns (value: Value, issues: seq<Issue>)
    ensures (value, issues) == FieldOutcome(rt, rule, target, scope, line)
  {
    var found := Lookup(scope, rule.source);
    if found.Failed? {
      return Null, [Issue(SeverityOf(rule), Operation(found.failure), SourceOf(target, rule.target), line)];
    }
    value := found.value;
    for i := 0 to |rule.operators|
      invariant ApplyOperators(rt, rule.operators[i..], value, scope)
             == ApplyOperators(rt, rule.operators, found.value, scope)
    {
      assert rule.operators[i..][1..] == rule.operators[i + 1..];
      hide ApplyOperator;
      var outcome := ApplyOperator(rt, rule.operators[i], value, scope);
      if outcome.Failed? {
        return Null, [Issue(SeverityOf(rule), Operation(outcome.failure), FieldOf(target, rule.target), line)];
      }
      value := outcome.value;
    }
    return value, [];
  }

  /** `_coerce_target_type`: the value a field receives, None when it is refused. */
  function Coerced(rt: Runtime, target: string, field: string, v: Value): (r: Option<Value>)
    ensures r.Some? ==> HasTargetType(target, field, r.value)
    ensures r.Some? && !v.Null? ==> !r.value.Null?
  {
    var expected := FieldType(target, field);
    if HasTargetType(target, field, v) then Some(v)
    else if expected == Some(Text) && (v.Int? || v.Float?) then Some(Str(rt.TextOf(v)))
    else if expected == Some(Whole) && v.Float? && v.number.Finite? then Some(Int(Round(v.number.r)))
    else None
  }

  // ------------------------------------------------------------------- rows

  /** What the field loop of `_apply_entity` has built so far. */
  datatype RowState = RowState(data: map<string, Value>, issues: seq<Issue>, rejected: bool)

  function AfterField(rt: Runtime, target: string, scope: Scope, line: Option<nat>, st: RowState, rule: FieldRule)
    : RowState
  {
    var (value, raised) := FieldOutcome(rt, rule, target, scope, line);
    var place := FieldOf(target, rule.target);
    if value.Null? then
      if rule.required then
        RowState(st.data,
                 st.issues + raised + (if raised == [] then [Issue(Rejected, MissingRequiredField, place, line)] else []),
                 true)
      else st.(issues := st.issues + raised)
    else
      match Coerced(rt, target, rule.target, value)
      case Some(v) => st.(data := st.data[rule.target := v], issues := st.issues + raised)
      case None => RowState(st.data, st.issues + raised + [Issue(Rejected, TypeMismatch, place, line)], true)
  }

  function AfterFields(rt: Runtime, target: string, scope: Scope, line: Option<nat>, rules: seq<FieldRule>): RowState
  {
    if rules == [] then RowState(map[], [], false)
    else
      var n := |rules| - 1;
      AfterField(rt, target, scope, line, AfterFields(rt, target, scope, line, rules[..n]), rules[n])
  }

  /** `_apply_entity` on one row: its data, unless the row is rejected. */
  function RowOutcome(rt: Runtime, entity: EntityMapping, scope: Scope, line: Option<nat>)
    : (Option<map<string, Value>>, seq<Issue>)
  {
    var st := AfterFields(rt, entity.target, scope, line, entity.fields);
    (if st.rejected then None else Some(st.data), st.issues)
  }

  lemma NoFieldsYet(rt: Runtime, target: string, scope: Scope, line: Option<nat>, rules: seq<FieldRule>)
    ensures AfterFields(rt, target, scope, line, rules[..0]) == RowState(map[], [], false)
  {
  }

  lemma NextField(rt: Runtime, target: string, scope: Scope, line: Option<nat>, rules: seq<FieldRule>, i: nat)
    requires i < |rules|
    ensures AfterFields(rt, target, scope, line, rules[..i + 1])
         == AfterField(rt, target, scope, line, AfterFields(rt, target, scope, line, rules[..i]), rules[i])
  {
    hide AfterField;
    assert rules[..i + 1][..i] == rules[..i];
  }

  method ApplyEntity(rt: Runtime, entity: EntityMapping, scope: Scope, line: Option<nat>)
    returns (data: Option<map<string, Value>>, issues: seq<Issue>)
    ensures (data, issues) == RowOutcome(rt, entity, scope, line)
  {
    hide FieldOutcome, Coerced, AfterFields;
    var built: map<string, Value> := map[];
    var rejected := false;
    issues := [];
    NoFieldsYet(rt, entity.target, scope, line, entity.fields);
    for i := 0 to |entity.fields|
      invariant RowState(built, issues, rejected)
             == AfterFields(rt, entity.target, scope, line, entity.fields[..i])
    {
      var rule := entity.fields[i];
      NextField(rt, entity.target, scope, line, entity.fields, i);
      var value, raised := ApplyField(rt, rule, entity.target, scope, line);
      issues := issues + raised;
      if !value.Null? {
        var coerced := Coerced(rt, entity.target, rule.target, value);
        if coerced.None? {
          rejected := true;
          issues := issues + [Issue(Rejected, TypeMismatch, FieldOf(entity.target, rule.target), line)];
          continue;
        }
        value := coerced.value;
      }
      if value.Null? && rule.required {
        rejected := true;
        if raised == [] {
          issues := issues + [Issue(Rejected, MissingRequiredField, FieldOf(entity.target, rule.target), line)];
        }
      } else if !value.Null? {
        built := built[rule.target := value];
      }
    }
    assert entity.fields[..|entity.fields|] == entity.fields;
    data := if rejected then None else Some(built);
  }

  // ---------------------------------------------------------------- records

  datatype EntityRow = EntityRow(entity: string, data: map<string, Value>, sourceIndex: nat)

  datatype Applied = Applied(results: seq<EntityRow>, issues: seq<Issue>)

  function Append(a: Applied, b: Applied): Applied {
    Applied(a.results + b.results, a.issues + b.issues)
  }

  /** One row's contribution, at its position in the source list. */
  function RowApplied(rt: Runtime, entity: EntityMapping, prefix: Path, line: Option<nat>, row: Value, index: nat): Applied
  {
    var (data, issues) := RowOutcome(rt, entity, Scope(row, prefix), line);
    Applied(if data.Some? then [EntityRow(entity.target, data.value, index)] else [], issues)
  }

  function RowsApplied(rt: Runtime, entity: EntityMapping, prefix: Path, line: Option<nat>, rows: seq<Value>): Applied
  {
    if rows == [] then Applied([], [])
    else
      var n := |rows| - 1;
      Append(RowsApplied(rt, entity, prefix, line, rows[..n]), RowApplied(rt, entity, prefix, line, rows[n], n))
  }

  /** The rows an entity mapping reaches in a record, its prefix, and the issue
      of an `iterate` that does not designate a list. */
  function Extracted(entity: EntityMapping, record: Value, line: Option<nat>): (seq<Value>, Path, seq<Issue>) {
    if !entity.Iterated() then ([record], [], [])
    else
      match IteratePath(entity.iterate.value)
      case Err(e) => ([], [], [Issue(Rejected, IterateUnsupported(e), IterateOf(entity.target), line)])
      case Ok(prefix) =>
        var wrong := Wrong([], [record], prefix);
        (Rows([record], prefix), prefix,
         if wrong == [] then [] else [Issue(Rejected, IterateNotAList(wrong), IterateOf(entity.target), line)])
  }

  function EntityApplied(rt: Runtime, entity: EntityMapping, record: Value, line: Option<nat>): Applied {
    var (rows, prefix, issues) := Extracted(entity, record, line);
    Append(Applied([], issues), RowsApplied(rt, entity, prefix, line, rows))
  }

  function MappingApplied(rt: Runtime, mapping: Mapping, record: Value, line: Option<nat>): Applied {
    if mapping == [] then Applied([], [])
    else
      var n := |mapping| - 1;
      Append(MappingApplied(rt, mapping[..n], record, line), EntityApplied(rt, mapping[n], record, line))
  }

  method ExtractRows(entity: EntityMapping, record: Value, line: Option<nat>)
    returns (rows: seq<Value>, prefix: Path, issues: seq<Issue>)
    ensures (rows, prefix, issues) == Extracted(entity, record, line)
  {
    rows, prefix, issues := [record], [], [];
    if entity.Iterated() {
      var parsed := IteratePath(entity.iterate.value);
      match parsed {
        case Err(e) =>
          rows, issues := [], [Issue(Rejected, IterateUnsupported(e), IterateOf(entity.target), line)];
        case Ok(path) =>
          var wrong;
          prefix := path;
          rows, wrong := ResolveRows(record, prefix);
          if wrong != [] {
            issues := [Issue(Rejected, IterateNotAList(wrong), IterateOf(entity.target), line)];
          }
      }
    }
  }

  /** The row loop of `apply`, for one entity mapping. */
  method ApplyRows(rt: Runtime, entity: EntityMapping, prefix: Path, line: Option<nat>, rows: seq<Value>)
    returns (applied: Applied)
    ensures applied == RowsApplied(rt, entity, prefix, line, rows)
  {
    applied := Applied([], []);
    hide RowOutcome;
    for index := 0 to |rows|
      invariant applied == RowsApplied(rt, entity, prefix, line, rows[..index])
    {
      assert rows[..index + 1][..index] == rows[..index];
      var data, issues := ApplyEntity(rt, entity, Scope(rows[index], prefix), line);
      var results := applied.results;
      if data.Some? {
        results := results + [EntityRow(entity.target, data.value, index)];
      }
      applied := Applied(results, applied.issues + issues);
    }
    assert rows[..|rows|] == rows;
  }

  /** The body of the entity loop of `apply`. */
  method ApplyOne(rt: Runtime, entity: EntityMapping, record: Value, line: Option<nat>) returns (applied: Applied)
    ensures applied == EntityApplied(rt, entity, record, line)
  {
    var rows, prefix, issues := ExtractRows(entity, record, line);
    hide Extracted, RowsApplied;
    applied := ApplyRows(rt, entity, prefix, line, rows);
    assert [] + applied.results == applied.results;
    applied := Applied(applied.results, issues + applied.issues);
  }

  /** `apply`: one raw record, every entity mapping. */
  method Apply(rt: Runtime, mapping: Mapping, record: Value, line: Option<nat>)
    returns (results: seq<EntityRow>, issues: seq<Issue>)
    ensures Applied(results, issues) == MappingApplied(rt, mapping, record, line)
  {
    results, issues := [], [];
    hide EntityApplied;
    for i := 0 to |mapping|
      invariant Applied(results, issues) == MappingApplied(rt, mapping[..i], record, line)
    {
      assert mapping[..i + 1][..i] == mapping[..i];
      var applied := ApplyOne(rt, mapping[i], record, line);
      results, issues := results + applied.results, issues + applied.issues;
    }
    assert mapping[..|mapping|] == mapping;
  }
}
