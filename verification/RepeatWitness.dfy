/**
 Two lines of one session, under a mapping the checker accepts, of which a new
 run stores only one call: the input on which the position fallback loses one.
 */
module RepeatWitness {
  import opened Values
  import opened JsonPath
  import opened Mappings
  import opened Engine
  import opened EngineLaws
  import Validator
  import opened Normalizer
  import opened NormalizerLaws
  import opened Accounting
  import opened Store
  import opened Importing
  import opened ImportLaws
  import opened Preview
  import opened PreviewLaws
  import opened Repeats

  /** A session, and its model calls listed under it. */
  const SESSION_RULES := EntityMapping("session", ["external_id"], [FieldRule("external_id", "$.id", true, [])], None)
  const CALL_RULES := EntityMapping("model_call", ["sequence_index"], [], Some("$.c"))
  const LISTED_CALLS: Mapping := [SESSION_RULES, CALL_RULES]

  /** One line of session "a" with one call. */
  function Round(n: int): Value {
    Obj(map["id" := Str("a"), "c" := List([Int(n)])])
  }

  lemma Paths()
    ensures PathOf("$.id") == Ok([Key("id")])
    ensures PathOf("$.c") == Ok([Key("c")])
  {
    var id, c := "$.id", "$.c";
    assert id[1..] == ".id" && ".id"[1..] == "id" && "id"[1..] == "d" && "d"[1..] == "";
    assert RunLength("") == 0 && RunLength("d") == 1 && IdentLength("id") == 2 && IdentLength("c") == 1 by { assert "c"[1..] == ""; }
    assert ".id"[1..3] == "id" && ".id"[3..] == "" && ".c"[1..2] == "c" && ".c"[1..] == "c" && ".c"[2..] == "" && c[1..] == ".c";
    assert FirstSegment(".id", 1) == Ok((Key("id"), 3));
    assert FirstSegment(".c", 1) == Ok((Key("c"), 2));
    assert [Key("id")] + [] == [Key("id")] && [Key("c")] + [] == [Key("c")];
  }

  const CALLS: Path := [Key("c"), Each]

  lemma CallsPath()
    ensures IteratePath("$.c") == Ok(CALLS) && CALLS[1..] == [Each] && [Each][1..] == []
  {
    Paths();
    hide PathOf;
    assert [Key("c")] + [Each] == CALLS;
  }

  /** The rows of one value, when a segment leads from it to one value. */
  lemma OneStep(wrong: seq<Mismatch>, value: Value, next: Value, path: Path)
    requires path != [] && Step(value, path[0]) == [next] && Fits(value, path[0])
    ensures Rows([value], path) == Rows([next], path[1..])
    ensures Wrong(wrong, [value], path) == Wrong(wrong, [next], path[1..])
  {
    hide Step, Fits;
    assert [value][1..] == [] && StepAll([value], path[0]) == [next] + StepAll([], path[0]);
    assert StepAll([value], path[0]) == [next];
    assert NotedAll(wrong, [value], path[0]) == NotedAll(wrong, [value][1..], path[0]) == wrong;
  }

  lemma RoundRows(rt: Runtime, n: int, line: Option<nat>)
    ensures Extracted(CALL_RULES, Round(n), line) == ([Int(n)], CALLS, [])
    ensures Extracted(SESSION_RULES, Round(n), line) == ([Round(n)], [], [])
  {
    CallsPath();
    Different();
    hide IteratePath, Rows, Wrong, StepAll;
    assert Step(Round(n), Key("c")) == [List([Int(n)])];
    OneStep([], Round(n), List([Int(n)]), CALLS);
    OneStep([], List([Int(n)]), Int(n), [Each]);
    AtTheEnd(Int(n));
  }

  lemma AtTheEnd(value: Value)
    ensures Rows([value], []) == [value] && Wrong([], [value], []) == []
  {
  }

  lemma OneRow(rt: Runtime, entity: EntityMapping, prefix: Path, line: Option<nat>, row: Value)
    ensures RowsApplied(rt, entity, prefix, line, [row]) == RowApplied(rt, entity, prefix, line, row, 0)
  {
    hide RowApplied;
    var rows := [row];
    assert rows[..0] == [] && RowsApplied(rt, entity, prefix, line, []) == Applied([], []);
    var only := RowApplied(rt, entity, prefix, line, row, 0);
    assert [] + only.results == only.results && [] + only.issues == only.issues;
  }

  lemma IdIsFound(n: int)
    ensures SourcePath("$.id", []) == Ok([Key("id")]) && Lookup(Scope(Round(n), []), "$.id") == Done(Str("a"))
  {
    Paths();
    Different();
    hide PathOf;
    var path: Path := [Key("id")];
    assert path[0..] == path && path[1..] == [];
    assert Resolved(Round(n), path) == Resolved(Str("a"), []);
  }

  lemma IdIsTyped(rt: Runtime)
    ensures Coerced(rt, "session", "external_id", Str("a")) == Some(Str("a"))
  {
  }

  lemma RoundId(rt: Runtime, n: int, line: Option<nat>)
    ensures RowOutcome(rt, SESSION_RULES, Scope(Round(n), []), line) == (Some(map["external_id" := Str("a")]), [])
  {
    hide Lookup, Round, AfterFields, Coerced;
    IdIsFound(n);
    IdIsTyped(rt);
    var scope, rule := Scope(Round(n), []), SESSION_RULES.fields[0];
    assert FieldOutcome(rt, rule, "session", scope, line) == (Str("a"), []);
    assert [rule][..0] == [] && SESSION_RULES.fields == [rule];
    NoFields(rt, "session", scope, line);
    LastField(rt, "session", scope, line, [rule]);
    assert AfterField(rt, "session", scope, line, RowState(map[], [], false), rule) == RowState(map["external_id" := Str("a")], [], false);
  }

  lemma RoundApplied(rt: Runtime, n: int, line: Option<nat>)
    ensures EntityApplied(rt, SESSION_RULES, Round(n), line) ==
            Applied([EntityRow("session", map["external_id" := Str("a")], 0)], [])
    ensures EntityApplied(rt, CALL_RULES, Round(n), line) == Applied([EntityRow("model_call", map[], 0)], [])
  {
    hide Extracted, Round, RowsApplied;
    RoundRows(rt, n, line);
    RoundId(rt, n, line);
    OneRow(rt, SESSION_RULES, [], line, Round(n));
    OneRow(rt, CALL_RULES, CALLS, line, Int(n));
  }

  lemma RoundResults(rt: Runtime, n: int, line: Option<nat>)
    ensures var rows := MappingApplied(rt, LISTED_CALLS, Round(n), line).results;
            && Entries(rows, "session") == [EntityRow("session", map["external_id" := Str("a")], 0)]
            && Entries(rows, "model_call") == [EntityRow("model_call", map[], 0)]
    ensures ByTarget(LISTED_CALLS, "session") == Some(SESSION_RULES) && ByTarget(LISTED_CALLS, "model_call") == Some(CALL_RULES)
  {
    hide EntityApplied, Round;
    RoundApplied(rt, n, line);
    Different();
    EntriesOfOnly(rt, LISTED_CALLS, Round(n), line, 0);
    EntriesOfOnly(rt, LISTED_CALLS, Round(n), line, 1);
  }

  lemma Different()
    ensures "session" != "model_call" && "id" != "c" && "external_id" != "outcome" && "external_id" != "agent_name"
    ensures KnownTargets(LISTED_CALLS) && Unnumbered(Models, LISTED_CALLS, 1)
    ensures OnlyOne(LISTED_CALLS, "session", 0) && OnlyOne(LISTED_CALLS, "model_call", 1)
  {
    assert "session"[0] != "model_call"[0] && "external_id"[0] != "outcome"[0] && "external_id"[0] != "agent_name"[0];
  }

  lemma RoundSession(rt: Runtime, source: int, line: Option<nat>)
    ensures var made := SessionMade(rt, SESSION_RULES, map["external_id" := Str("a")], source, line);
            && made.Part? && |made.entities| == 1 && made.entities[0].id == Tag(line, "session", 0)
            && SessionKeyOf(made.entities[0]) == SessionKey(source, rt.TextOf(Str("a")))
  {
    Different();
    var data: map<string, Value> := map["external_id" := Str("a")];
    assert ["external_id"][1..] == [] && MissingKeys(["external_id"], data) == [];
    assert NameFrom(rt, "session", "agent_name", data, line, false) == (None, []);
    assert MakeSession(rt, Tag(line, "session", 0), source, None, data).Built?;
  }

  lemma RoundCall(rt: Runtime, session: Tag, line: Option<nat>)
    ensures var made := ModelCallPart(rt, CALL_RULES, session, line, EntityRow("model_call", map[], 0), 0);
            made.Part? && |made.entities| == 1 && made.entities[0].index == 0
  {
    var row := EntityRow("model_call", map[], 0);
    var data := Numbered(row);
    assert data == map["sequence_index" := Int(0)];
    assert "sequence_index"[1] != "status"[1];
    assert ["sequence_index"][1..] == [] && MissingKeys(["sequence_index"], data) == [];
    assert "model_name" !in data && "provider_name" !in data by { assert "model_name"[0] != "sequence_index"[0] && "provider_name"[0] != "sequence_index"[0]; }
    assert NameFrom(rt, "model_call", "model_name", data, line, false) == (None, []);
    assert NameFrom(rt, "model_call", "provider_name", data, line, false) == (None, []);
    assert StatusOf(data) == Built("unknown");
  }

  lemma OneTurn(rt: Runtime, entity: EntityMapping, session: Tag, line: Option<nat>, row: EntityRow)
    ensures ModelCallParts(rt, entity, session, line, [row]) == Join(Part([], [], []), ModelCallPart(rt, entity, session, line, row, 0))
  {
    hide ModelCallPart;
    assert [row][..0] == [];
  }

  lemma RoundNormalized(rt: Runtime, source: int, line: nat, n: int)
    ensures var r := ResultOf(rt, LISTED_CALLS, source, line, Round(n));
            && |r.sessions| == 1 && SessionKeyOf(r.sessions[0]) == SessionKey(source, rt.TextOf(Str("a")))
            && Models.Indices(r) == [0]
  {
    hide MappingApplied, Entries, ByTarget, SessionMade, ModelCallPart, ModelCallParts, ToolCallsOf, SessionKeyOf, Round;
    var at := Some(line);
    NoEscape(rt, LISTED_CALLS, Round(n), source, at);
    RoundResults(rt, n, at);
    RoundSession(rt, source, at);
    RoundCall(rt, Tag(at, "session", 0), at);
    OneTurn(rt, CALL_RULES, Tag(at, "session", 0), at, EntityRow("model_call", map[], 0));
    var rows := MappingApplied(rt, LISTED_CALLS, Round(n), at).results;
    var made := SessionMade(rt, SESSION_RULES, map["external_id" := Str("a")], source, at);
    assert SessionsOf(rt, LISTED_CALLS, rows, source, at).entities == made.entities by { assert [] + made.entities == made.entities; }
  }

  lemma SessionFieldsValid(rt: Runtime)
    ensures Validator.FieldsFrom(rt, "session", SESSION_RULES.fields, []) == Validator.Found([])
  {
    IdIsFound(0);
    hide SourcePath, Lookup, Round;
    assert Validator.FieldProblems(rt, "session", SESSION_RULES.fields[0], []) == Validator.Found([]);
    hide Validator.FieldProblems;
    assert SESSION_RULES.fields[1..] == [] && Validator.FieldsFrom(rt, "session", [], []) == Validator.Found([]);
  }

  lemma SessionRulesValid(rt: Runtime)
    ensures Validator.EntityProblems(rt, SESSION_RULES) == Validator.Found([])
  {
    SessionFieldsValid(rt);
    hide PathOf, Validator.FieldsFrom;
    assert Validator.KeyProblems(SESSION_RULES, []) == [] && ["external_id"][..0] == [];
    assert SESSION_RULES.fields[0].target == "external_id";
    assert Validator.KeyProblems(SESSION_RULES, ["external_id"]) == [];
    assert Validator.EntityHead(SESSION_RULES) == [];
  }

  lemma CallRulesValid(rt: Runtime)
    ensures Validator.EntityProblems(rt, CALL_RULES) == Validator.Found([])
  {
    Paths();
    hide PathOf;
    assert Validator.KeyProblems(CALL_RULES, []) == [] && ["sequence_index"][..0] == [];
    assert Validator.Produced(CALL_RULES, "sequence_index");
    assert Validator.KeyProblems(CALL_RULES, ["sequence_index"]) == [];
    assert Validator.EntityHead(CALL_RULES) == [];
  }

  lemma ListedIsValid(rt: Runtime)
    ensures Validator.Valid(rt, LISTED_CALLS)
  {
    SessionRulesValid(rt);
    CallRulesValid(rt);
    hide Validator.EntityProblems;
    assert LISTED_CALLS[1..] == [CALL_RULES] && [CALL_RULES][1..] == [];
    assert Validator.Validated(rt, []) == Validator.Found([]);
    assert Validator.Validated(rt, [CALL_RULES]) == Validator.Found([]);
  }

  /** The loss is real: an accepted mapping, two lines of one session, and only
      one of their two calls is stored. */
  lemma {:induction false} RoundsAreLost(rt: Runtime, db: Db, source: int, run: nat)
    requires NewRun(db, run, 2)
    ensures var pass := Pass(rt, LISTED_CALLS, source, run, [Round(1), Round(2)]);
            && Validator.Valid(rt, LISTED_CALLS)
            && |pass.On(db).modelCalls.Keys| < |db.modelCalls.Keys| + |AllFor(pass.Results(), "model_call")|
  {
    hide ImportLines, Validator.Valid, ResultOf, ResultsOf, Round, NewRun, AllFor, Taken, CallKeySeq, AllNew, SessionKeyOf, Unnumbered, CallKeys;
    var pass := Pass(rt, LISTED_CALLS, source, run, [Round(1), Round(2)]);
    ListedIsValid(rt);
    Different();
    ResultAt(rt, LISTED_CALLS, source, 1, pass.records, 0);
    ResultAt(rt, LISTED_CALLS, source, 1, pass.records, 1);
    RoundNormalized(rt, source, 1, 1);
    RoundNormalized(rt, source, 2, 2);
    assert 0 in [0];
    assert SharesKey(Models, pass.Results()[0], pass.Results()[1]);
    EveryCallStored(Models, pass, db);
    PositionsRestart(Models, pass, db, 1);
  }
}
