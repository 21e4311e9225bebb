/**
 What the validator accepts, said without its lists of problems: a document is
 valid exactly when every entity, field and operator of it meets the contract.
 */
module DocumentLaws {
  import opened Values
  import opened JsonPath
  import opened Mappings
  import opened Engine
  import opened Validator
  import opened ValidatorLaws

  // --------------------------------------------------------------- operators

  /** The parameter is absent or null, or one of these texts. */
  predicate OneOf(op: Operator, parameter: string, allowed: set<string>) {
    Get(op, parameter).Null? || (Get(op, parameter).Str? && Get(op, parameter).s in allowed)
  }

  predicate Text(v: Value) {
    v.Str? && v.s != ""
  }

  predicate ListOfTexts(v: Value) {
    v.List? && v.items != [] && forall i :: 0 <= i < |v.items| ==> v.items[i].Str?
  }

  predicate FormatReadable(rt: Runtime, format: string) {
    format in {"iso8601", "unix_seconds", "unix_millis"} || rt.dateFormat(format).Answered?
  }

  /** The values each operator allows for the parameters it has; a null one is
      allowed everywhere but as the group of a pattern. */
  predicate ValuesMeet(rt: Runtime, kind: Operation, op: Operator) {
    match kind
    case CastOp => OneOf(op, "to", {"string", "integer", "float", "boolean"}) && OneOf(op, "on_error", {"reject", "null"})
    case ParseDatetimeOp =>
      var format := Get(op, "format");
      format.Null? || (Text(format) && FormatReadable(rt, format.s) && Get(op, "timezone") in {Null, Str("UTC")})
    case UnitConvertOp =>
      var from, to := Get(op, "from"), Get(op, "to");
      from.Null? || to.Null? || (from.Str? && to.Str? && Factor(rt.lower(from.s), rt.lower(to.s)).Some?)
    case MapValuesOp =>
      && (Get(op, "table").Null? || Get(op, "table").Obj?)
      && OneOf(op, "on_unknown", {"passthrough", "null", "constant", "reject"})
      && (Get(op, "on_unknown") == Str("constant") ==> "constant" in op)
    case RegexOp =>
      var pattern, group := Get(op, "pattern"), if "group" in op then op["group"] else Int(0);
      && group.Int? && group.i >= 0
      && (pattern.Null? || (Text(pattern) && !UnsupportedByExtractor(pattern.s)
                            && rt.groups(pattern.s).Answered? && group.i <= rt.groups(pattern.s).value))
    case CoalesceOp => Get(op, "sources").Null? || ListOfTexts(Get(op, "sources"))
    case ConcatOp =>
      && (Get(op, "sources").Null? || ListOfTexts(Get(op, "sources")))
      && (Get(op, "separator").Null? || Get(op, "separator").Str?)
    case HashOp => (Get(op, "sources").Null? || ListOfTexts(Get(op, "sources"))) && OneOf(op, "algorithm", {"sha256"})
    case PassthroughOp => Get(op, "max_bytes").Null? || (Get(op, "max_bytes").Int? && Get(op, "max_bytes").i >= 1)
    case DefaultOp => true
    case TrimOp => true
    case LowerOp => true
    case UpperOp => true
  }

  lemma ChoiceExact(op: Operator, parameter: string, allowed: seq<string>)
    ensures Choice(op, parameter, allowed) == Found([]) <==> OneOf(op, parameter, set a | a in allowed)
  {
  }

  lemma CastExact(rt: Runtime, op: Operator)
    ensures ParameterCheck(rt, CastOp, op) == Found([]) <==> ValuesMeet(rt, CastOp, op)
  {
    hide Choice, OneOf;
    ChoiceExact(op, "to", ["string", "integer", "float", "boolean"]);
    ChoiceExact(op, "on_error", ["reject", "null"]);
    assert (set a | a in ["string", "integer", "float", "boolean"]) == {"string", "integer", "float", "boolean"};
    assert (set a | a in ["reject", "null"]) == {"reject", "null"};
  }

  lemma MapValuesCheckExact(rt: Runtime, op: Operator)
    ensures ParameterCheck(rt, MapValuesOp, op) == Found([]) <==> ValuesMeet(rt, MapValuesOp, op)
  {
    hide Choice, OneOf;
    ChoiceExact(op, "on_unknown", ["passthrough", "null", "reject", "constant"]);
    assert (set a | a in ["passthrough", "null", "reject", "constant"]) == {"passthrough", "null", "constant", "reject"};
  }

  lemma HashExact(rt: Runtime, op: Operator)
    ensures ParameterCheck(rt, HashOp, op) == Found([]) <==> ValuesMeet(rt, HashOp, op)
  {
    hide Choice, OneOf;
    ChoiceExact(op, "algorithm", ["sha256"]);
    assert (set a | a in ["sha256"]) == {"sha256"};
  }

  lemma UnitExact(rt: Runtime, op: Operator)
    ensures ParameterCheck(rt, UnitConvertOp, op) == Found([]) <==> ValuesMeet(rt, UnitConvertOp, op)
  {
    hide SupportedUnits, Factor;
    var from, to := Get(op, "from"), Get(op, "to");
    if from.Str? && to.Str? {
      SupportedHaveFactors(rt.lower(from.s), rt.lower(to.s));
    }
  }

  /** A check finds nothing exactly when the values are among those allowed. */
  lemma {:induction false} ParametersExact(rt: Runtime, kind: Operation, op: Operator)
    ensures ParameterCheck(rt, kind, op) == Found([]) <==> ValuesMeet(rt, kind, op)
  {
    match kind {
      case CastOp => CastExact(rt, op);
      case MapValuesOp => MapValuesCheckExact(rt, op);
      case HashOp => HashExact(rt, op);
      case UnitConvertOp => UnitExact(rt, op);
      case _ => OtherExact(rt, kind, op);
    }
  }

  lemma OtherExact(rt: Runtime, kind: Operation, op: Operator)
    requires !kind.CastOp? && !kind.MapValuesOp? && !kind.HashOp? && !kind.UnitConvertOp?
    ensures ParameterCheck(rt, kind, op) == Found([]) <==> ValuesMeet(rt, kind, op)
  {
    hide Choice, OneOf, UnsupportedByExtractor;
  }

  /** The contract of one operator: its name is on the whitelist, it has every
      parameter it requires and none it does not know, their values are among
      those allowed, and its sources can be read. */
  predicate OperatorMeets(rt: Runtime, op: Operator, prefix: Path) {
    && "op" in op && op["op"].Str? && Whitelisted(op["op"].s).Some?
    && var kind := Whitelisted(op["op"].s).value;
       && (forall p :: p in Required(kind) ==> p in op)
       && (forall p :: p in op ==> p == "op" || p in Required(kind) || p in Optional(kind))
       && ValuesMeet(rt, kind, op)
       && TextsRead(SourceItemsOf(op), prefix)
  }

  predicate TextsRead(items: seq<Value>, prefix: Path) {
    forall i :: 0 <= i < |items| && items[i].Str? ==> SourcePath(items[i].s, prefix).Ok?
  }

  function SourceItemsOf(op: Operator): seq<Value> {
    if Get(op, "sources").List? then Get(op, "sources").items else []
  }

  lemma MissingExact(op: Operator, required: seq<string>)
    ensures MissingFlaws(op, required) == [] <==> forall p :: p in required ==> p in op
  {
    if required != [] {
      MissingExact(op, required[1..]);
      assert required == [required[0]] + required[1..];
    }
  }

  lemma LastSource(items: seq<Value>, prefix: Path)
    requires items != []
    ensures SourceFlaws(items, prefix) == []
        <==> SourceFlaws(items[..|items| - 1], prefix) == []
             && (items[|items| - 1].Str? ==> SourcePath(items[|items| - 1].s, prefix).Ok?)
  {
    hide SourcePath;
  }

  lemma {:induction false} SourcesExact(items: seq<Value>, prefix: Path)
    ensures SourceFlaws(items, prefix) == [] <==> TextsRead(items, prefix)
  {
    hide SourcePath, SourceFlaws;
    if items == [] {
      NoSources(prefix);
    } else {
      var n := |items| - 1;
      SourcesExact(items[..n], prefix);
      LastSource(items, prefix);
      assert forall i :: 0 <= i < n ==> items[i] == items[..n][i];
    }
  }

  lemma UnexpectedExact(op: Operator, kind: Operation)
    ensures UnexpectedFlaws(op, kind) == [] <==> forall p :: p in op ==> p == "op" || p in Required(kind) || p in Optional(kind)
  {
    hide Required, Optional;
    var unexpected := op.Keys - Optional(kind) - (set p | p in Required(kind)) - {"op"};
    if unexpected == {} {
      forall p | p in op ensures p == "op" || p in Required(kind) || p in Optional(kind) {
        assert p !in unexpected;
      }
    } else {
      var p :| p in unexpected;
      assert p in op;
    }
  }

  /** An operator has no problem exactly when it meets its contract. */
  lemma {:induction false} OperatorExact(rt: Runtime, op: Operator, prefix: Path)
    ensures Accepted(rt, op, prefix) <==> OperatorMeets(rt, op, prefix)
  {
    hide ParameterCheck, ValuesMeet, UnexpectedFlaws, MissingFlaws, SourceFlaws, Required, Optional, Whitelisted, TextsRead;
    SourcesExact(SourceItemsOf(op), prefix);
    assert SourceListFlaws(op, prefix) == [] <==> TextsRead(SourceItemsOf(op), prefix) by {
      NoSources(prefix);
    }
    if "op" in op && op["op"].Str? && Whitelisted(op["op"].s).Some? {
      var kind := Whitelisted(op["op"].s).value;
      ParametersExact(rt, kind, op);
      MissingExact(op, Required(kind));
      UnexpectedExact(op, kind);
      FourEmpty(MissingFlaws(op, Required(kind)), UnexpectedFlaws(op, kind), SourceListFlaws(op, prefix));
    } else {
      EmptyNameUnknown();
    }
  }

  lemma NoSources(prefix: Path)
    ensures SourceFlaws([], prefix) == []
  {
  }

  lemma FourEmpty(a: seq<Flaw>, b: seq<Flaw>, d: seq<Flaw>)
    ensures forall invalid :: a + b + InvalidFlaws(invalid) + d == [] <==> a == [] && b == [] && invalid == [] && d == []
  {
  }

  // ---------------------------------------------------- fields and entities

  /** The contract of a field: the schema has it, its source can be read in the
      scope of its entity, and each of its operators meets its own. */
  predicate FieldMeets(rt: Runtime, target: string, rule: FieldRule, prefix: Path) {
    && FieldType(target, rule.target).Some?
    && SourcePath(rule.source, prefix).Ok?
    && forall o :: 0 <= o < |rule.operators| ==> OperatorMeets(rt, rule.operators[o], prefix)
  }

  /** The contract of an entity: a known target, a natural key made of fields it
      produces, a readable `iterate`, a position for calls, and sound fields. */
  predicate EntityMeets(rt: Runtime, entity: EntityMapping) {
    && KnownTarget(entity.target)
    && entity.naturalKey != []
    && (forall k :: 0 <= k < |entity.naturalKey| ==> Produced(entity, entity.naturalKey[k]))
    && (entity.Iterated() ==> IteratePath(entity.iterate.value).Ok?)
    && (IsCall(entity.target) && !entity.Iterated() ==> Declared(entity, "sequence_index"))
    && forall r :: 0 <= r < |entity.fields| ==> FieldMeets(rt, entity.target, entity.fields[r], PrefixOf(entity))
  }

  lemma {:induction false} OperatorsExact(rt: Runtime, target: string, rule: FieldRule, prefix: Path, index: nat)
    requires index <= |rule.operators|
    ensures OperatorsFrom(rt, target, rule, prefix, index) == Found([])
        <==> forall o :: index <= o < |rule.operators| ==> OperatorMeets(rt, rule.operators[o], prefix)
    decreases |rule.operators| - index
  {
    hide OperatorFlaws, OperatorMeets;
    if index < |rule.operators| {
      OperatorsExact(rt, target, rule, prefix, index + 1);
      OperatorExact(rt, rule.operators[index], prefix);
    }
  }

  lemma FieldExact(rt: Runtime, target: string, rule: FieldRule, prefix: Path)
    ensures FieldProblems(rt, target, rule, prefix) == Found([]) <==> FieldMeets(rt, target, rule, prefix)
  {
    hide OperatorsFrom, OperatorMeets, FieldType, SourcePath;
    OperatorsExact(rt, target, rule, prefix, 0);
  }

  lemma {:induction false} FieldsExact(rt: Runtime, target: string, rules: seq<FieldRule>, prefix: Path)
    ensures FieldsFrom(rt, target, rules, prefix) == Found([])
        <==> forall r :: 0 <= r < |rules| ==> FieldMeets(rt, target, rules[r], prefix)
  {
    hide FieldProblems, FieldMeets;
    if rules != [] {
      FieldExact(rt, target, rules[0], prefix);
      FieldsExact(rt, target, rules[1..], prefix);
      assert forall r :: 0 < r < |rules| ==> rules[r] == rules[1..][r - 1];
      assert forall r :: 0 <= r < |rules| - 1 ==> rules[1..][r] == rules[r + 1];
    }
  }

  lemma {:induction false} KeysExact(entity: EntityMapping, keys: seq<string>)
    ensures KeyProblems(entity, keys) == [] <==> forall k :: 0 <= k < |keys| ==> Produced(entity, keys[k])
  {
    hide Produced;
    if keys != [] {
      KeysExact(entity, keys[..|keys| - 1]);
    }
  }

  lemma EntityExact(rt: Runtime, entity: EntityMapping)
    ensures EntityProblems(rt, entity) == Found([]) <==> EntityMeets(rt, entity)
  {
    hide KnownTarget, Produced, IteratePath, FieldsFrom, FieldMeets, Declared, IsCall, PrefixOf, KeyProblems;
    KeysExact(entity, entity.naturalKey);
    FieldsExact(rt, entity.target, entity.fields, PrefixOf(entity));
  }

  lemma NothingToCheck(rt: Runtime)
    ensures Validated(rt, []) == Found([])
  {
  }

  lemma FirstEntity(rt: Runtime, mapping: Mapping)
    requires mapping != []
    ensures Validated(rt, mapping) == Found([])
        <==> EntityProblems(rt, mapping[0]) == Found([]) && Validated(rt, mapping[1..]) == Found([])
  {
    hide EntityProblems;
  }

  /** A document is valid exactly when each of its entities meets the contract. */
  lemma {:induction false} ValidExact(rt: Runtime, mapping: Mapping)
    ensures Valid(rt, mapping) <==> forall e :: 0 <= e < |mapping| ==> EntityMeets(rt, mapping[e])
  {
    hide EntityProblems, EntityMeets, Validated;
    if mapping == [] {
      NothingToCheck(rt);
    } else {
      FirstEntity(rt, mapping);
      EntityExact(rt, mapping[0]);
      ValidExact(rt, mapping[1..]);
      assert forall e :: 0 < e < |mapping| ==> mapping[e] == mapping[1..][e - 1];
      assert forall e :: 0 <= e < |mapping| - 1 ==> mapping[1..][e] == mapping[e + 1];
    }
  }
}
