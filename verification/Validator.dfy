/**
 The static checker of a mapping document. `Validated` lists its problems, or
 says that checking raised: a parameter that is a list or an object cannot be
 looked up in a set, and a syntax probe may raise what no clause catches.
 */
module Validator {
  import opened Values
  import opened JsonPath
  import opened Mappings

  datatype Problem =
    | UnknownEntity(target: string)
    | NoNaturalKey(target: string)
    | BadIterate(target: string, path: PathError)
    | KeyNotProduced(target: string, key: string, index: nat)
    | NoSequenceIndex(target: string)
    | UnknownField(target: string, field: string)
    | BadSource(target: string, field: string, path: PathError)
    | OperatorProblem(target: string, field: string, index: nat, what: Flaw)

  datatype Flaw =
    | NotWhitelisted
    | ParameterMissing(parameter: string)
    | ParametersNotAllowed(parameters: set<string>)
    | ParameterInvalid(parameter: string)
    | SourceRefused(index: nat, path: PathError)

  /** A list of problems, or an exception that kept it from being made. */
  datatype Checked<+T> = Found(problems: seq<T>) | Raised

  function Then<T>(a: Checked<T>, b: Checked<T>): Checked<T> {
    if a.Raised? || b.Raised? then Raised else Found(a.problems + b.problems)
  }

  lemma ThenAssoc<T>(a: Checked<T>, b: Checked<T>, c: Checked<T>)
    ensures Then(Then(a, b), c) == Then(a, Then(b, c))
  {
  }

  // ------------------------------------------------------- operator checks

  /** `_choice`: None passes, and so does a value of the set. */
  function Choice(op: Operator, parameter: string, allowed: seq<string>): Checked<string> {
    var v := Get(op, parameter);
    if v.Null? then Found([])
    else if Unhashable(v) then Raised
    else if v.Str? && v.s in allowed then Found([])
    else Found([parameter])
  }

  function Sources(op: Operator): Checked<string> {
    var v := Get(op, "sources");
    if v.Null? then Found([])
    else if v.List? && v.items != [] && forall i :: 0 <= i < |v.items| ==> v.items[i].Str? then Found([])
    else Found(["sources"])
  }

  function ConcatCheck(op: Operator): Checked<string> {
    var separator := Get(op, "separator");
    Then(Sources(op), if !separator.Null? && !separator.Str? then Found(["separator"]) else Found([]))
  }

  const FORMAT_TOKENS := ["iso8601", "unix_seconds", "unix_millis"]

  function FormatCheck(rt: Runtime, op: Operator): Checked<string> {
    var v := Get(op, "format");
    var timezone := Get(op, "timezone");
    if v.Null? then Found([])
    else if !v.Str? || v.s == "" then Found(["format"])
    else
      Then(if v.s in FORMAT_TOKENS then Found([])
           else match rt.dateFormat(v.s)
                case Answered(_) => Found([])
                case Declined => Found(["format"])
                case Uncaught => Raised,
           if !timezone.Null? && timezone != Str("UTC") then Found(["timezone"]) else Found([]))
  }

  predicate SupportedUnits(from: string, to: string) {
    (from, to) in {("s", "ms"), ("min", "ms"), ("ns", "ms"), ("ms", "s"), ("kb", "b"), ("mb", "b")}
  }

  function UnitCheck(rt: Runtime, op: Operator): Checked<string> {
    var from, to := Get(op, "from"), Get(op, "to");
    if from.Null? || to.Null? then Found([])
    else if !from.Str? || !to.Str? then Found(["from"])
    else if !SupportedUnits(rt.lower(from.s), rt.lower(to.s)) then Found(["to"])
    else Found([])
  }

  function MapValuesCheck(op: Operator): Checked<string> {
    var table, mode := Get(op, "table"), Get(op, "on_unknown");
    Then(if !table.Null? && !table.Obj? then Found(["table"]) else Found([]),
         Then(Choice(op, "on_unknown", ["passthrough", "null", "reject", "constant"]),
              if mode == Str("constant") && "constant" !in op then Found(["constant"]) else Found([])))
  }

  predicate UnsupportedByExtractor(pattern: string) {
    exists token | token in ["(?=", "(?!", "(?<=", "(?<!", "\\1", "\\2", "\\3"] :: Contains(pattern, token)
  }

  function RegexCheck(rt: Runtime, op: Operator): Checked<string> {
    var pattern := Get(op, "pattern");
    var group := if "group" in op then op["group"] else Int(0);
    var readable := pattern.Str? && pattern.s != "";
    var groups := if readable then rt.groups(pattern.s) else Declined;
    Then(
      if pattern.Null? then Found([])
      else if !readable then Found(["pattern"])
      else Then(match groups
                case Answered(_) => Found([])
                case Declined => Found(["pattern"])
                case Uncaught => Raised,
                if UnsupportedByExtractor(pattern.s) then Found(["pattern"]) else Found([])),
      if !group.Int? || group.i < 0 || (groups.Answered? && group.i > groups.value) then Found(["group"]) else Found([]))
  }

  function MaxBytesCheck(op: Operator): Checked<string> {
    var v := Get(op, "max_bytes");
    if v.Null? || (v.Int? && v.i >= 1) then Found([]) else Found(["max_bytes"])
  }

  datatype Operation =
    | CastOp | ParseDatetimeOp | DefaultOp | CoalesceOp | UnitConvertOp | MapValuesOp | TrimOp
    | LowerOp | UpperOp | RegexOp | ConcatOp | HashOp | PassthroughOp

  /** The whitelist, by name. */
  function Whitelisted(name: string): Option<Operation> {
    if name == "cast" then Some(CastOp)
    else if name == "parse_datetime" then Some(ParseDatetimeOp)
    else if name == "default" then Some(DefaultOp)
    else if name == "coalesce" then Some(CoalesceOp)
    else if name == "unit_convert" then Some(UnitConvertOp)
    else if name == "map_values" then Some(MapValuesOp)
    else if name == "trim" then Some(TrimOp)
    else if name == "lower" then Some(LowerOp)
    else if name == "upper" then Some(UpperOp)
    else if name == "regex_extract" then Some(RegexOp)
    else if name == "concat" then Some(ConcatOp)
    else if name == "hash" then Some(HashOp)
    else if name == "json_passthrough" then Some(PassthroughOp)
    else None
  }

  /** Required parameters, in the order their absence is reported. */
  function Required(kind: Operation): seq<string> {
    match kind
    case CastOp => ["to"]
    case ParseDatetimeOp => ["format"]
    case DefaultOp => ["value"]
    case CoalesceOp => ["sources"]
    case UnitConvertOp => ["from", "to"]
    case MapValuesOp => ["on_unknown", "table"]
    case RegexOp => ["pattern"]
    case ConcatOp => ["sources"]
    case HashOp => ["algorithm", "sources"]
    case _ => []
  }

  function Optional(kind: Operation): set<string> {
    match kind
    case CastOp => {"on_error"}
    case ParseDatetimeOp => {"timezone"}
    case MapValuesOp => {"constant"}
    case RegexOp => {"group"}
    case ConcatOp => {"separator"}
    case PassthroughOp => {"max_bytes"}
    case _ => {}
  }

  function ParameterCheck(rt: Runtime, kind: Operation, op: Operator): Checked<string> {
    match kind
    case CastOp =>
      Then(Choice(op, "to", ["string", "integer", "float", "boolean"]), Choice(op, "on_error", ["reject", "null"]))
    case ParseDatetimeOp => FormatCheck(rt, op)
    case CoalesceOp => Sources(op)
    case UnitConvertOp => UnitCheck(rt, op)
    case MapValuesOp => MapValuesCheck(op)
    case RegexOp => RegexCheck(rt, op)
    case ConcatOp => ConcatCheck(op)
    case HashOp => Then(Sources(op), Choice(op, "algorithm", ["sha256"]))
    case PassthroughOp => MaxBytesCheck(op)
    case _ => Found([])
  }

  function MissingFlaws(op: Operator, required: seq<string>): seq<Flaw> {
    if required == [] then []
    else (if required[0] in op then [] else [ParameterMissing(required[0])]) + MissingFlaws(op, required[1..])
  }

  function InvalidFlaws(parameters: seq<string>): seq<Flaw> {
    if parameters == [] then [] else [ParameterInvalid(parameters[0])] + InvalidFlaws(parameters[1..])
  }

  /** The `sources` of an operator are resolved like a field's own source. */
  function SourceFlaws(items: seq<Value>, prefix: Path): seq<Flaw> {
    if items == [] then []
    else
      var n := |items| - 1;
      SourceFlaws(items[..n], prefix) +
      (if !items[n].Str? then []
       else match SourcePath(items[n].s, prefix)
            case Ok(_) => []
            case Err(e) => [SourceRefused(n, e)])
  }

  function SourceListFlaws(op: Operator, prefix: Path): seq<Flaw> {
    var sources := Get(op, "sources");
    if sources.List? then SourceFlaws(sources.items, prefix) else []
  }

  function UnexpectedFlaws(op: Operator, kind: Operation): seq<Flaw> {
    var unexpected := op.Keys - Optional(kind) - (set p | p in Required(kind)) - {"op"};
    if unexpected == {} then [] else [ParametersNotAllowed(unexpected)]
  }

  /** Everything wrong with one operator of a field. */
  function OperatorFlaws(rt: Runtime, op: Operator, prefix: Path): Checked<Flaw> {
    var name := if "op" in op then op["op"] else Str("");
    if Unhashable(name) then Raised
    else if !name.Str? then Found([NotWhitelisted])
    else
      match Whitelisted(name.s)
      case None => Found([NotWhitelisted])
      case Some(kind) =>
        match ParameterCheck(rt, kind, op)
        case Raised => Raised
        case Found(invalid) =>
          Found(MissingFlaws(op, Required(kind)) + UnexpectedFlaws(op, kind) + InvalidFlaws(invalid)
                + SourceListFlaws(op, prefix))
  }

  // ------------------------------------------------------ fields, entities

  function Located(target: string, field: string, index: nat, flaws: seq<Flaw>): seq<Problem> {
    if flaws == [] then []
    else [OperatorProblem(target, field, index, flaws[0])] + Located(target, field, index, flaws[1..])
  }

  function OperatorProblems(rt: Runtime, target: string, rule: FieldRule, prefix: Path, index: nat): Checked<Problem>
    requires index < |rule.operators|
  {
    match OperatorFlaws(rt, rule.operators[index], prefix)
    case Raised => Raised
    case Found(flaws) => Found(Located(target, rule.target, index, flaws))
  }

  function OperatorsFrom(rt: Runtime, target: string, rule: FieldRule, prefix: Path, index: nat): Checked<Problem>
    requires index <= |rule.operators|
    decreases |rule.operators| - index
  {
    if index == |rule.operators| then Found([])
    else Then(OperatorProblems(rt, target, rule, prefix, index), OperatorsFrom(rt, target, rule, prefix, index + 1))
  }

  function FieldHead(target: string, rule: FieldRule, prefix: Path): seq<Problem> {
    (if FieldType(target, rule.target).None? then [UnknownField(target, rule.target)] else []) +
    (match SourcePath(rule.source, prefix)
     case Ok(_) => []
     case Err(e) => [BadSource(target, rule.target, e)])
  }

  function FieldProblems(rt: Runtime, target: string, rule: FieldRule, prefix: Path): Checked<Problem> {
    Then(Found(FieldHead(target, rule, prefix)), OperatorsFrom(rt, target, rule, prefix, 0))
  }

  function FieldsFrom(rt: Runtime, target: string, rules: seq<FieldRule>, prefix: Path): Checked<Problem> {
    if rules == [] then Found([])
    else Then(FieldProblems(rt, target, rules[0], prefix), FieldsFrom(rt, target, rules[1..], prefix))
  }

  predicate IsCall(target: string) {
    FieldType(target, "sequence_index").Some?
  }

  predicate Declared(entity: EntityMapping, field: string) {
    exists i :: 0 <= i < |entity.fields| && entity.fields[i].target == field
  }

  /** The values an entity's natural key may name: its mapped fields, and the
      position the engine gives the rows of an iterated call. */
  predicate Produced(entity: EntityMapping, field: string) {
    Declared(entity, field) || (IsCall(entity.target) && entity.Iterated() && field == "sequence_index")
  }

  function KeyProblems(entity: EntityMapping, keys: seq<string>): seq<Problem> {
    if keys == [] then []
    else
      var n := |keys| - 1;
      KeyProblems(entity, keys[..n]) +
      (if Produced(entity, keys[n]) then [] else [KeyNotProduced(entity.target, keys[n], n)])
  }

  /** The parsed `iterate` of an entity, empty when it has none or a bad one. */
  function PrefixOf(entity: EntityMapping): Path {
    if !entity.Iterated() then []
    else match IteratePath(entity.iterate.value)
         case Ok(prefix) => prefix
         case Err(_) => []
  }

  function EntityHead(entity: EntityMapping): seq<Problem> {
    (if entity.naturalKey == [] then [NoNaturalKey(entity.target)] else []) +
    (if entity.Iterated() && IteratePath(entity.iterate.value).Err?
     then [BadIterate(entity.target, IteratePath(entity.iterate.value).error)] else []) +
    KeyProblems(entity, entity.naturalKey) +
    (if IsCall(entity.target) && !entity.Iterated() && !Declared(entity, "sequence_index")
     then [NoSequenceIndex(entity.target)] else [])
  }

  function EntityProblems(rt: Runtime, entity: EntityMapping): Checked<Problem> {
    if !KnownTarget(entity.target) then Found([UnknownEntity(entity.target)])
    else Then(Found(EntityHead(entity)), FieldsFrom(rt, entity.target, entity.fields, PrefixOf(entity)))
  }

  function Validated(rt: Runtime, mapping: Mapping): Checked<Problem> {
    if mapping == [] then Found([])
    else Then(EntityProblems(rt, mapping[0]), Validated(rt, mapping[1..]))
  }

  /** A mapping the importer accepts. */
  predicate Valid(rt: Runtime, mapping: Mapping) {
    Validated(rt, mapping) == Found([])
  }

  // ---------------------------------------------------------------- methods

  /** `_validate_field`. */
  method ValidateField(rt: Runtime, rule: FieldRule, target: string, prefix: Path) returns (r: Checked<Problem>)
    ensures r == FieldProblems(rt, target, rule, prefix)
  {
    var errors: seq<Problem> := FieldHead(target, rule, prefix);
    hide OperatorProblems;
    for i := 0 to |rule.operators|
      invariant Then(Found(errors), OperatorsFrom(rt, target, rule, prefix, i)) == FieldProblems(rt, target, rule, prefix)
    {
      var found := OperatorProblems(rt, target, rule, prefix, i);
      ThenAssoc(Found(errors), found, OperatorsFrom(rt, target, rule, prefix, i + 1));
      if found.Raised? {
        return Raised;
      }
      errors := errors + found.problems;
    }
    return Found(errors);
  }

  /** The natural key loop of `_validate_entity`. */
  method ValidateKeys(entity: EntityMapping) returns (errors: seq<Problem>)
    ensures errors == KeyProblems(entity, entity.naturalKey)
  {
    errors := [];
    var keys := entity.naturalKey;
    for index := 0 to |keys|
      invariant errors == KeyProblems(entity, keys[..index])
    {
      assert keys[..index + 1][..index] == keys[..index];
      if !Produced(entity, keys[index]) {
        errors := errors + [KeyNotProduced(entity.target, keys[index], index)];
      }
    }
    assert keys[..|keys|] == keys;
  }

  /** The checks of `_validate_entity` that come before its fields. */
  method ValidateHead(entity: EntityMapping) returns (errors: seq<Problem>, prefix: Path)
    ensures errors == EntityHead(entity) && prefix == PrefixOf(entity)
  {
    errors := if entity.naturalKey == [] then [NoNaturalKey(entity.target)] else [];
    prefix := [];
    if entity.Iterated() {
      var parsed := IteratePath(entity.iterate.value);
      match parsed {
        case Ok(path) => prefix := path;
        case Err(e) => errors := errors + [BadIterate(entity.target, e)];
      }
    }
    hide KeyProblems, IteratePath;
    var keys := ValidateKeys(entity);
    errors := errors + keys;
    if IsCall(entity.target) && !entity.Iterated() && !Declared(entity, "sequence_index") {
      errors := errors + [NoSequenceIndex(entity.target)];
    }
  }

  /** `_validate_entity`. */
  method ValidateEntity(rt: Runtime, entity: EntityMapping) returns (r: Checked<Problem>)
    ensures r == EntityProblems(rt, entity)
  {
    if !KnownTarget(entity.target) {
      return Found([UnknownEntity(entity.target)]);
    }
    hide EntityHead, PrefixOf, FieldProblems, KnownTarget;
    var errors, prefix := ValidateHead(entity);
    for i := 0 to |entity.fields|
      invariant Then(Found(errors), FieldsFrom(rt, entity.target, entity.fields[i..], prefix)) == EntityProblems(rt, entity)
    {
      assert entity.fields[i..][1..] == entity.fields[i + 1..];
      var found := ValidateField(rt, entity.fields[i], entity.target, prefix);
      ThenAssoc(Found(errors), found, FieldsFrom(rt, entity.target, entity.fields[i + 1..], prefix));
      if found.Raised? {
        return Raised;
      }
      errors := errors + found.problems;
    }
    return Found(errors);
  }

  /** `validate`: every problem of a document, entity by entity. */
  method Validate(rt: Runtime, mapping: Mapping) returns (r: Checked<Problem>)
    ensures r == Validated(rt, mapping)
  {
    var errors: seq<Problem> := [];
    hide EntityProblems;
    for i := 0 to |mapping|
      invariant Then(Found(errors), Validated(rt, mapping[i..])) == Validated(rt, mapping)
    {
      assert mapping[i..][1..] == mapping[i + 1..];
      var found := ValidateEntity(rt, mapping[i]);
      ThenAssoc(Found(errors), found, Validated(rt, mapping[i + 1..]));
      if found.Raised? {
        return Raised;
      }
      errors := errors + found.problems;
    }
    return Found(errors);
  }
}
