/**
 Which problems the validator lists: each of them exactly when the document has
 the fault it names, said without the lists it is collected in.
 */
module ProblemLaws {
  import opened Values
  import opened JsonPath
  import opened Mappings
  import opened Validator
  import D = DocumentLaws
  import O = OperatorMeanings

  // ------------------------------------------------------------ the contract

  const OPERATORS := {"cast", "parse_datetime", "default", "coalesce", "unit_convert", "map_values", "trim", "lower", "upper",
                      "regex_extract", "concat", "hash", "json_passthrough"}

  /** The parameters an operator has to have. */
  function Needs(name: string): set<string> {
    if name == "cast" then {"to"}
    else if name == "parse_datetime" then {"format"}
    else if name == "default" then {"value"}
    else if name == "coalesce" || name == "concat" then {"sources"}
    else if name == "hash" then {"sources", "algorithm"}
    else if name == "unit_convert" then {"from", "to"}
    else if name == "map_values" then {"table", "on_unknown"}
    else if name == "regex_extract" then {"pattern"}
    else {}
  }

  /** And those it may have. */
  function Allows(name: string): set<string> {
    if name == "cast" then {"on_error"}
    else if name == "parse_datetime" then {"timezone"}
    else if name == "concat" then {"separator"}
    else if name == "map_values" then {"constant"}
    else if name == "regex_extract" then {"group"}
    else if name == "json_passthrough" then {"max_bytes"}
    else {}
  }

  /** Which operator a name is for. */
  predicate KindIs(name: string, kind: Operation) {
    match kind
    case CastOp => name == "cast"
    case ParseDatetimeOp => name == "parse_datetime"
    case DefaultOp => name == "default"
    case CoalesceOp => name == "coalesce"
    case UnitConvertOp => name == "unit_convert"
    case MapValuesOp => name == "map_values"
    case TrimOp => name == "trim"
    case LowerOp => name == "lower"
    case UpperOp => name == "upper"
    case RegexOp => name == "regex_extract"
    case ConcatOp => name == "concat"
    case HashOp => name == "hash"
    case PassthroughOp => name == "json_passthrough"
  }

  lemma Names(name: string)
    ensures Whitelisted(name).Some? <==> name in OPERATORS
    ensures Whitelisted(name).Some? ==> KindIs(name, Whitelisted(name).value)
  {
  }

  lemma OperatorNames()
    ensures forall a, b :: a in OPERATORS && b in OPERATORS && a != b ==> |a| != |b| || a[0] != b[0]
  {
  }

  lemma NeedsAre(name: string, kind: Operation)
    requires KindIs(name, kind)
    ensures (forall p :: p in Required(kind) <==> p in Needs(name)) && Optional(kind) == Allows(name)
  {
    OperatorNames();
  }

  // ------------------------------------------------------------ wrong values

  /** The parameter has a value, and it is none of these texts. */
  predicate NotOneOf(op: Operator, parameter: string, allowed: set<string>) {
    parameter in op && op[parameter] != Null && !(op[parameter].Str? && op[parameter].s in allowed)
  }

  predicate BadSources(op: Operator) {
    "sources" in op && op["sources"] != Null && !D.ListOfTexts(op["sources"])
  }

  predicate Has(op: Operator, parameter: string) {
    parameter in op && op[parameter] != Null
  }

  /** Which values the parameters of an operator do not take. */
  predicate BadCast(op: Operator, p: string) {
    || (p == "to" && NotOneOf(op, p, {"string", "integer", "float", "boolean"}))
    || (p == "on_error" && NotOneOf(op, p, {"reject", "null"}))
  }

  predicate BadDate(rt: Runtime, op: Operator, p: string) {
    && Has(op, "format")
    && ((p == "format" && (!D.Text(op[p])
                           || (op[p].s !in {"iso8601", "unix_seconds", "unix_millis"} && rt.dateFormat(op[p].s).Declined?)))
        || (p == "timezone" && D.Text(op["format"]) && Has(op, p) && op[p] != Str("UTC")))
  }

  predicate BadUnits(rt: Runtime, op: Operator, p: string) {
    && Has(op, "from") && Has(op, "to")
    && var texts := op["from"].Str? && op["to"].Str?;
       || (p == "from" && !texts)
       || (p == "to" && texts && !O.Convertible(rt.lower(op["from"].s), rt.lower(op["to"].s)))
  }

  predicate BadTable(op: Operator, p: string) {
    || (p == "table" && Has(op, p) && !op[p].Obj?)
    || (p == "on_unknown" && NotOneOf(op, p, {"passthrough", "null", "reject", "constant"}))
    || (p == "constant" && p !in op && "on_unknown" in op && op["on_unknown"] == Str("constant"))
  }

  predicate At(text: string, i: int, part: string) {
    0 <= i && i + |part| <= |text| && text[i..i + |part|] == part
  }

  /** A pattern that looks ahead or behind, or refers to one of its first groups. */
  predicate Unsupported(pattern: string) {
    exists i :: 0 <= i < |pattern| &&
      (At(pattern, i, "(?=") || At(pattern, i, "(?!") || At(pattern, i, "(?<=") || At(pattern, i, "(?<!")
       || At(pattern, i, "\\1") || At(pattern, i, "\\2") || At(pattern, i, "\\3"))
  }

  lemma ContainsMeans(text: string, part: string)
    ensures Contains(text, part) <==> exists i :: At(text, i, part)
  {
    if Contains(text, part) {
      var i, j :| 0 <= i <= j <= |text| && text[i..j] == part;
      assert At(text, i, part);
    }
    if i :| At(text, i, part) {
      assert text[i..i + |part|] == part;
    }
  }

  lemma UnsupportedMeans(pattern: string)
    ensures UnsupportedByExtractor(pattern) <==> Unsupported(pattern)
  {
    hide Contains, At;
    SomeAt(pattern, "(?=");
    SomeAt(pattern, "(?!");
    SomeAt(pattern, "(?<=");
    SomeAt(pattern, "(?<!");
    SomeAt(pattern, "\\1");
    SomeAt(pattern, "\\2");
    SomeAt(pattern, "\\3");
  }

  lemma SomeAt(pattern: string, token: string)
    requires token != ""
    ensures Contains(pattern, token) <==> exists i :: 0 <= i < |pattern| && At(pattern, i, token)
  {
    ContainsMeans(pattern, token);
    hide Contains;
    if i :| At(pattern, i, token) {
      assert i < |pattern|;
    }
  }

  predicate BadPattern(rt: Runtime, op: Operator, p: string) {
    || (p == "pattern" && Has(op, p) && (!D.Text(op[p]) || rt.groups(op[p].s).Declined? || Unsupported(op[p].s)))
    || (p == "group" && p in op
        && (!op[p].Int? || op[p].i < 0
            || ("pattern" in op && D.Text(op["pattern"]) && rt.groups(op["pattern"].s).Answered?
                && op[p].i > rt.groups(op["pattern"].s).value)))
  }

  /** The parameter's value is not one that the operator takes. */
  predicate BadValue(rt: Runtime, name: string, op: Operator, p: string) {
    if name == "cast" then BadCast(op, p)
    else if name == "parse_datetime" then BadDate(rt, op, p)
    else if name == "coalesce" then p == "sources" && BadSources(op)
    else if name == "concat" then (p == "sources" && BadSources(op)) || (p == "separator" && Has(op, p) && !op[p].Str?)
    else if name == "hash" then (p == "sources" && BadSources(op)) || (p == "algorithm" && NotOneOf(op, p, {"sha256"}))
    else if name == "unit_convert" then BadUnits(rt, op, p)
    else if name == "map_values" then BadTable(op, p)
    else if name == "regex_extract" then BadPattern(rt, op, p)
    else if name == "json_passthrough" then p == "max_bytes" && Has(op, p) && !(op[p].Int? && op[p].i >= 1)
    else false
  }

  lemma UnitsSame(from: string, to: string)
    ensures SupportedUnits(from, to) <==> O.Convertible(from, to)
  {
  }

  lemma ChoiceMeans(op: Operator, parameter: string, allowed: seq<string>, p: string)
    requires Choice(op, parameter, allowed).Found?
    ensures p in Choice(op, parameter, allowed).problems <==> p == parameter && NotOneOf(op, p, set a | a in allowed)
  {
  }

  lemma SourcesMean(op: Operator, p: string)
    ensures Sources(op).Found? && (p in Sources(op).problems <==> p == "sources" && BadSources(op))
  {
  }

  lemma ThenHas<T>(a: Checked<T>, b: Checked<T>, x: T)
    ensures Then(a, b).Found? <==> a.Found? && b.Found?
    ensures Then(a, b).Found? ==> (x in Then(a, b).problems <==> x in a.problems || x in b.problems)
  {
  }

  lemma CastMeans(rt: Runtime, op: Operator, p: string)
    requires ParameterCheck(rt, CastOp, op).Found?
    ensures p in ParameterCheck(rt, CastOp, op).problems <==> BadCast(op, p)
  {
    var to, mode := ["string", "integer", "float", "boolean"], ["reject", "null"];
    ThenHas(Choice(op, "to", to), Choice(op, "on_error", mode), p);
    hide Then, Choice, NotOneOf;
    ChoiceMeans(op, "to", to, p);
    ChoiceMeans(op, "on_error", mode, p);
    assert (set a | a in to) == {"string", "integer", "float", "boolean"} && (set a | a in mode) == {"reject", "null"};
  }

  lemma DateMeans(rt: Runtime, op: Operator, p: string)
    requires ParameterCheck(rt, ParseDatetimeOp, op).Found?
    ensures p in ParameterCheck(rt, ParseDatetimeOp, op).problems <==> BadDate(rt, op, p)
  {
    assert "format"[0] != "timezone"[0];
  }

  lemma UnitMeans(rt: Runtime, op: Operator, p: string)
    ensures ParameterCheck(rt, UnitConvertOp, op).Found?
    ensures p in ParameterCheck(rt, UnitConvertOp, op).problems <==> BadUnits(rt, op, p)
  {
    if Has(op, "from") && Has(op, "to") && op["from"].Str? && op["to"].Str? {
      UnitsSame(rt.lower(op["from"].s), rt.lower(op["to"].s));
    }
    hide SupportedUnits, O.Convertible;
    assert "from"[0] != "to"[0];
  }

  lemma TableMeans(rt: Runtime, op: Operator, p: string)
    requires ParameterCheck(rt, MapValuesOp, op).Found?
    ensures p in ParameterCheck(rt, MapValuesOp, op).problems <==> BadTable(op, p)
  {
    var modes := ["passthrough", "null", "reject", "constant"];
    ChoiceMeans(op, "on_unknown", modes, p);
    hide Choice, NotOneOf;
    assert (set a | a in modes) == {"passthrough", "null", "reject", "constant"};
    assert "table"[0] != "on_unknown"[0] && "constant"[0] != "table"[0] && "constant"[0] != "on_unknown"[0];
  }

  lemma RegexMeans(rt: Runtime, op: Operator, p: string)
    requires ParameterCheck(rt, RegexOp, op).Found?
    ensures p in ParameterCheck(rt, RegexOp, op).problems <==> BadPattern(rt, op, p)
  {
    if "pattern" in op && op["pattern"].Str? {
      UnsupportedMeans(op["pattern"].s);
    }
    hide UnsupportedByExtractor, Unsupported;
    assert "pattern"[0] != "group"[0];
  }

  lemma HashMeans(rt: Runtime, op: Operator, p: string)
    requires ParameterCheck(rt, HashOp, op).Found?
    ensures p in ParameterCheck(rt, HashOp, op).problems <==>
            (p == "sources" && BadSources(op)) || (p == "algorithm" && NotOneOf(op, p, {"sha256"}))
  {
    SourcesMean(op, p);
    ThenHas(Sources(op), Choice(op, "algorithm", ["sha256"]), p);
    hide Then, Choice, NotOneOf, Sources, BadSources;
    ChoiceMeans(op, "algorithm", ["sha256"], p);
    assert (set a | a in ["sha256"]) == {"sha256"};
  }

  lemma OtherMeans(rt: Runtime, kind: Operation, op: Operator, p: string)
    requires ParameterCheck(rt, kind, op).Found?
    ensures var found := p in ParameterCheck(rt, kind, op).problems;
            && (kind.CoalesceOp? ==> (found <==> p == "sources" && BadSources(op)))
            && (kind.ConcatOp? ==> (found <==> (p == "sources" && BadSources(op)) || (p == "separator" && Has(op, p) && !op[p].Str?)))
            && (kind.PassthroughOp? ==> (found <==> p == "max_bytes" && Has(op, p) && !(op[p].Int? && op[p].i >= 1)))
            && (kind.DefaultOp? || kind.TrimOp? || kind.LowerOp? || kind.UpperOp? ==> !found)
  {
    SourcesMean(op, p);
    hide Sources, BadSources;
  }

  /** The parameters a check names are those with a value not taken. */
  lemma {:induction false} ValuesMean(rt: Runtime, name: string, kind: Operation, op: Operator, p: string)
    requires KindIs(name, kind) && ParameterCheck(rt, kind, op).Found?
    ensures p in ParameterCheck(rt, kind, op).problems <==> BadValue(rt, name, op, p)
  {
    hide ParameterCheck, NotOneOf, BadSources, Has, BadCast, BadDate, BadUnits, BadTable, BadPattern;
    OperatorNames();
    match kind {
      case CastOp => CastMeans(rt, op, p);
      case ParseDatetimeOp => DateMeans(rt, op, p);
      case UnitConvertOp => UnitMeans(rt, op, p);
      case MapValuesOp => TableMeans(rt, op, p);
      case RegexOp => RegexMeans(rt, op, p);
      case HashOp => HashMeans(rt, op, p);
      case _ => OtherMeans(rt, kind, op, p);
    }
  }

  // --------------------------------------------------------------- operators

  /** The operator has this flaw. */
  ghost predicate Flawed(rt: Runtime, op: Operator, prefix: Path, flaw: Flaw) {
    if !("op" in op && op["op"].Str? && op["op"].s in OPERATORS) then flaw == NotWhitelisted
    else
      var name := op["op"].s;
      match flaw
      case NotWhitelisted => false
      case ParameterMissing(p) => p in Needs(name) && p !in op
      case ParametersNotAllowed(ps) => ps != {} && forall p :: p in ps <==> p in op && p != "op" && p !in Needs(name) && p !in Allows(name)
      case ParameterInvalid(p) => BadValue(rt, name, op, p)
      case SourceRefused(i, e) =>
        && "sources" in op && op["sources"].List? && i < |op["sources"].items| && op["sources"].items[i].Str?
        && SourcePath(op["sources"].items[i].s, prefix) == Err(e)
  }

  lemma {:induction false} MissingMeans(op: Operator, required: seq<string>, flaw: Flaw)
    ensures flaw in MissingFlaws(op, required) <==> flaw.ParameterMissing? && flaw.parameter in required && flaw.parameter !in op
  {
    if required != [] {
      MissingMeans(op, required[1..], flaw);
      assert required == [required[0]] + required[1..];
    }
  }

  lemma {:induction false} InvalidMeans(parameters: seq<string>, flaw: Flaw)
    ensures flaw in InvalidFlaws(parameters) <==> flaw.ParameterInvalid? && flaw.parameter in parameters
  {
    if parameters != [] {
      InvalidMeans(parameters[1..], flaw);
      assert parameters == [parameters[0]] + parameters[1..];
    }
  }

  lemma {:induction false} RefusedMeans(items: seq<Value>, prefix: Path, flaw: Flaw)
    ensures flaw in SourceFlaws(items, prefix) <==>
            && flaw.SourceRefused? && flaw.index < |items| && items[flaw.index].Str?
            && SourcePath(items[flaw.index].s, prefix) == Err(flaw.path)
  {
    hide SourcePath;
    if items != [] {
      RefusedMeans(items[..|items| - 1], prefix, flaw);
    }
  }

  lemma UnexpectedMeans(op: Operator, name: string, kind: Operation, flaw: Flaw)
    requires KindIs(name, kind)
    ensures flaw in UnexpectedFlaws(op, kind) <==>
            && flaw.ParametersNotAllowed? && flaw.parameters != {}
            && forall p :: p in flaw.parameters <==> p in op && p != "op" && p !in Needs(name) && p !in Allows(name)
  {
    NeedsAre(name, kind);
    hide Required, Optional, Needs, Allows, KindIs;
    var unexpected := op.Keys - Optional(kind) - (set p | p in Required(kind)) - {"op"};
    assert forall p :: p in unexpected <==> p in op && p != "op" && p !in Needs(name) && p !in Allows(name);
    if flaw.ParametersNotAllowed? && forall p :: p in flaw.parameters <==> p in op && p != "op" && p !in Needs(name) && p !in Allows(name) {
      assert flaw.parameters == unexpected;
    }
  }

  lemma FourHave(a: seq<Flaw>, b: seq<Flaw>, c: seq<Flaw>, d: seq<Flaw>, flaw: Flaw)
    ensures flaw in a + b + c + d <==> flaw in a || flaw in b || flaw in c || flaw in d
  {
  }

  lemma SourceListMeans(op: Operator, prefix: Path, flaw: Flaw)
    ensures flaw in SourceListFlaws(op, prefix) <==>
            && flaw.SourceRefused? && "sources" in op && op["sources"].List? && flaw.index < |op["sources"].items|
            && op["sources"].items[flaw.index].Str? && SourcePath(op["sources"].items[flaw.index].s, prefix) == Err(flaw.path)
  {
    hide SourcePath, SourceFlaws;
    if Get(op, "sources").List? {
      RefusedMeans(op["sources"].items, prefix, flaw);
    }
  }

  /** The flaws found in an operator are those it has. */
  lemma {:induction false} FlawsExact(rt: Runtime, op: Operator, prefix: Path, flaw: Flaw)
    requires OperatorFlaws(rt, op, prefix).Found?
    ensures flaw in OperatorFlaws(rt, op, prefix).problems <==> Flawed(rt, op, prefix, flaw)
  {
    hide ParameterCheck, MissingFlaws, UnexpectedFlaws, InvalidFlaws, SourceListFlaws, Whitelisted, KindIs, Needs, Allows, BadValue,
      Required, Optional, SourcePath;
    Names("");
    EmptyName();
    if "op" in op && op["op"].Str? {
      var name := op["op"].s;
      Names(name);
      if Whitelisted(name).Some? {
        var kind := Whitelisted(name).value;
        var invalid := ParameterCheck(rt, kind, op).problems;
        FourHave(MissingFlaws(op, Required(kind)), UnexpectedFlaws(op, kind), InvalidFlaws(invalid), SourceListFlaws(op, prefix), flaw);
        MissingMeans(op, Required(kind), flaw);
        NeedsAre(name, kind);
        UnexpectedMeans(op, name, kind, flaw);
        InvalidMeans(invalid, flaw);
        SourceListMeans(op, prefix, flaw);
        if flaw.ParameterInvalid? {
          ValuesMean(rt, name, kind, op, flaw.parameter);
        }
      }
    }
  }

  lemma EmptyName()
    ensures "" !in OPERATORS
  {
  }

  // ------------------------------------------------------- fields, entities

  lemma {:induction false} LocatedMeans(target: string, field: string, index: nat, flaws: seq<Flaw>, problem: Problem)
    ensures problem in Located(target, field, index, flaws) <==>
            && problem.OperatorProblem? && problem.target == target && problem.field == field && problem.index == index
            && problem.what in flaws
  {
    if flaws != [] {
      LocatedMeans(target, field, index, flaws[1..], problem);
      assert flaws == [flaws[0]] + flaws[1..];
    }
  }

  lemma {:induction false} OperatorsMean(rt: Runtime, target: string, rule: FieldRule, prefix: Path, index: nat, problem: Problem)
    requires index <= |rule.operators| && OperatorsFrom(rt, target, rule, prefix, index).Found?
    ensures problem in OperatorsFrom(rt, target, rule, prefix, index).problems <==>
            && problem.OperatorProblem? && problem.target == target && problem.field == rule.target
            && index <= problem.index < |rule.operators| && Flawed(rt, rule.operators[problem.index], prefix, problem.what)
    decreases |rule.operators| - index
  {
    hide OperatorFlaws, Flawed, Located;
    if index < |rule.operators| {
      var here := OperatorProblems(rt, target, rule, prefix, index);
      ThenHas(here, OperatorsFrom(rt, target, rule, prefix, index + 1), problem);
      OperatorsMean(rt, target, rule, prefix, index + 1, problem);
      LocatedMeans(target, rule.target, index, OperatorFlaws(rt, rule.operators[index], prefix).problems, problem);
      if problem.OperatorProblem? {
        FlawsExact(rt, rule.operators[index], prefix, problem.what);
      }
    }
  }

  /** The field has this problem. */
  ghost predicate FieldHas(rt: Runtime, target: string, rule: FieldRule, prefix: Path, problem: Problem) {
    match problem
    case UnknownField(t, f) => t == target && f == rule.target && FieldType(target, f).None?
    case BadSource(t, f, e) => t == target && f == rule.target && SourcePath(rule.source, prefix) == Err(e)
    case OperatorProblem(t, f, i, what) =>
      t == target && f == rule.target && i < |rule.operators| && Flawed(rt, rule.operators[i], prefix, what)
    case _ => false
  }

  lemma FieldMeans(rt: Runtime, target: string, rule: FieldRule, prefix: Path, problem: Problem)
    requires FieldProblems(rt, target, rule, prefix).Found?
    ensures problem in FieldProblems(rt, target, rule, prefix).problems <==> FieldHas(rt, target, rule, prefix, problem)
  {
    hide OperatorsFrom, Flawed, FieldType, SourcePath;
    ThenHas(Found(FieldHead(target, rule, prefix)), OperatorsFrom(rt, target, rule, prefix, 0), problem);
    OperatorsMean(rt, target, rule, prefix, 0, problem);
  }

  lemma {:induction false} FieldsMean(rt: Runtime, target: string, rules: seq<FieldRule>, prefix: Path, problem: Problem)
    requires FieldsFrom(rt, target, rules, prefix).Found?
    ensures problem in FieldsFrom(rt, target, rules, prefix).problems <==>
            exists r :: 0 <= r < |rules| && FieldHas(rt, target, rules[r], prefix, problem)
  {
    hide FieldProblems, FieldHas;
    if rules != [] {
      ThenHas(FieldProblems(rt, target, rules[0], prefix), FieldsFrom(rt, target, rules[1..], prefix), problem);
      FieldMeans(rt, target, rules[0], prefix, problem);
      FieldsMean(rt, target, rules[1..], prefix, problem);
      if r :| 0 <= r < |rules| && FieldHas(rt, target, rules[r], prefix, problem) {
        assert r > 0 ==> rules[1..][r - 1] == rules[r];
      }
      assert forall r :: 0 <= r < |rules| - 1 ==> rules[1..][r] == rules[r + 1];
    }
  }

  /** The entity has a rule for this field. */
  predicate Maps(entity: EntityMapping, field: string) {
    exists i :: 0 <= i < |entity.fields| && entity.fields[i].target == field
  }

  /** The entity is a call, which needs a position. */
  predicate NeedsPosition(entity: EntityMapping) {
    entity.target == "model_call" || entity.target == "tool_call"
  }

  /** What its own checks find wrong with an entity, its fields apart. */
  predicate HeadHas(entity: EntityMapping, problem: Problem) {
    match problem
    case NoNaturalKey(t) => t == entity.target && entity.naturalKey == []
    case BadIterate(t, e) => t == entity.target && entity.Iterated() && IteratePath(entity.iterate.value) == Err(e)
    case KeyNotProduced(t, k, i) =>
      && t == entity.target && i < |entity.naturalKey| && entity.naturalKey[i] == k
      && !Maps(entity, k) && !(NeedsPosition(entity) && entity.Iterated() && k == "sequence_index")
    case NoSequenceIndex(t) => t == entity.target && NeedsPosition(entity) && !entity.Iterated() && !Maps(entity, "sequence_index")
    case _ => false
  }

  lemma CallsNeedPositions(entity: EntityMapping)
    ensures IsCall(entity.target) <==> NeedsPosition(entity)
  {
    assert "sequence_index"[1] == 'e' && "session"[0] != "model_call"[0] && "session"[0] != "tool_call"[0];
    assert forall f :: f in ["external_id", "agent_name", "outcome", "started_at", "ended_at", "duration_ms"] ==> f[1] != 'e';
  }

  lemma {:induction false} KeysMean(entity: EntityMapping, keys: seq<string>, problem: Problem)
    ensures problem in KeyProblems(entity, keys) <==>
            && problem.KeyNotProduced? && problem.target == entity.target && problem.index < |keys| && keys[problem.index] == problem.key
            && !Maps(entity, problem.key) && !(NeedsPosition(entity) && entity.Iterated() && problem.key == "sequence_index")
  {
    CallsNeedPositions(entity);
    hide IsCall, Declared, Maps, NeedsPosition;
    if keys != [] {
      var n := |keys| - 1;
      KeysMean(entity, keys[..n], problem);
      DeclaredIs(entity, keys[n]);
    }
  }

  lemma DeclaredIs(entity: EntityMapping, field: string)
    ensures Declared(entity, field) <==> Maps(entity, field)
  {
  }

  lemma HeadMeans(entity: EntityMapping, problem: Problem)
    ensures problem in EntityHead(entity) <==> HeadHas(entity, problem)
  {
    hide IsCall, Declared, Maps, NeedsPosition, KeyProblems, IteratePath;
    KeysMean(entity, entity.naturalKey, problem);
    CallsNeedPositions(entity);
    DeclaredIs(entity, "sequence_index");
  }

  /** The prefix a source of the entity may repeat. */
  predicate PrefixIs(entity: EntityMapping, prefix: Path) {
    if entity.Iterated() && IteratePath(entity.iterate.value).Ok? then Ok(prefix) == IteratePath(entity.iterate.value) else prefix == []
  }

  /** The entity has this problem: an unknown target is checked no further. */
  ghost predicate EntityHas(rt: Runtime, entity: EntityMapping, problem: Problem) {
    if !(entity.target in {"session", "model_call", "tool_call"}) then problem == UnknownEntity(entity.target)
    else
      || HeadHas(entity, problem)
      || exists r, prefix :: 0 <= r < |entity.fields| && PrefixIs(entity, prefix)
                             && FieldHas(rt, entity.target, entity.fields[r], prefix, problem)
  }

  lemma EntityMeans(rt: Runtime, entity: EntityMapping, problem: Problem)
    requires EntityProblems(rt, entity).Found?
    ensures problem in EntityProblems(rt, entity).problems <==> EntityHas(rt, entity, problem)
  {
    hide EntityHead, HeadHas, FieldHas, FieldsFrom, IteratePath;
    if KnownTarget(entity.target) {
      ThenHas(Found(EntityHead(entity)), FieldsFrom(rt, entity.target, entity.fields, PrefixOf(entity)), problem);
      HeadMeans(entity, problem);
      FieldsMean(rt, entity.target, entity.fields, PrefixOf(entity), problem);
      assert PrefixIs(entity, PrefixOf(entity)) && forall prefix :: PrefixIs(entity, prefix) ==> prefix == PrefixOf(entity);
    }
  }

  /** A problem is listed exactly when an entity of the document has it. */
  lemma {:induction false} ProblemsExact(rt: Runtime, mapping: Mapping, problem: Problem)
    requires Validated(rt, mapping).Found?
    ensures problem in Validated(rt, mapping).problems <==> exists e :: 0 <= e < |mapping| && EntityHas(rt, mapping[e], problem)
  {
    hide EntityProblems, EntityHas;
    if mapping != [] {
      ThenHas(EntityProblems(rt, mapping[0]), Validated(rt, mapping[1..]), problem);
      EntityMeans(rt, mapping[0], problem);
      ProblemsExact(rt, mapping[1..], problem);
      if e :| 0 <= e < |mapping| && EntityHas(rt, mapping[e], problem) {
        assert e > 0 ==> mapping[1..][e - 1] == mapping[e];
      }
      assert forall e :: 0 <= e < |mapping| - 1 ==> mapping[1..][e] == mapping[e + 1];
    }
  }
}
