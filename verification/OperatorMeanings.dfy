/**
 What each operator computes, on `ApplyOperator` and without the functions it is
 made of: the numbers of a conversion, the texts of a cast, the modes of a table,
 the sources of a combination.
 */
module OperatorMeanings {
  import opened Values
  import opened JsonPath
  import opened Mappings
  import opened Engine
  import opened EngineLaws
  import opened OperatorLaws

  predicate Named(op: Operator, name: string) {
    "op" in op && op["op"] == Str(name)
  }

  /** `str(v)`: a text is its own. */
  predicate TextIs(rt: Runtime, v: Value, t: string) {
    if v.Str? then t == v.s else t == rt.text(v)
  }

  /** What `int` and `float` are tried on. */
  predicate Countable(v: Value) {
    match v
    case Null => false
    case List(_) => false
    case Obj(_) => false
    case DateTime(_) => false
    case _ => true
  }

  // ------------------------------------------------------------------- cast

  /** An unknown value, or the empty cell of a table. */
  predicate Empty(rt: Runtime, v: Value) {
    v.Null? || (v.Str? && forall i :: 0 <= i < |v.s| ==> rt.isSpace(v.s[i]))
  }

  lemma BlankMeans(rt: Runtime, s: string)
    ensures rt.Blank(s) <==> forall i :: 0 <= i < |s| ==> rt.isSpace(s[i])
  {
    LeftStripEnds(rt, s);
    RightStripEnds(rt, rt.LeftStrip(s));
    hide Runtime.LeftStrip, Runtime.RightStrip;
    var left := rt.LeftStrip(s);
    assert forall i :: 0 <= i < |left| ==> left[i] == s[|s| - |left| + i];
  }

  /** What a cast that is refused gives. */
  predicate Refuses(op: Operator, why: Failure, outcome: Outcome) {
    outcome == if "on_error" in op && op["on_error"] == Str("null") then Done(Null) else Failed(why)
  }

  lemma CastNames()
    ensures "string" != "integer" && "string" != "float" && "string" != "boolean" && "integer" != "float" && "integer" != "boolean" && "float" != "boolean"
    ensures "reject" != "null"
  {
    assert "string"[0] != "integer"[0] && "string"[0] != "float"[0] && "string"[0] != "boolean"[0] && "integer"[0] != "float"[0];
    assert "integer"[0] != "boolean"[0] && "float"[0] != "boolean"[0] && "reject"[0] != "null"[0];
  }

  lemma CastIs(rt: Runtime, op: Operator, v: Value, scope: Scope)
    requires Named(op, "cast") && "to" in op
    ensures ApplyOperator(rt, op, v, scope)
         == Cast(rt, v, op["to"], if "on_error" in op then op["on_error"] else Str("reject"))
  {
    hide Cast;
  }

  /** What a cast to a number gives, of what the conversion says. */
  predicate NumberIs<T>(op: Operator, v: Value, read: Conversion<T>, made: Value, outcome: Outcome) {
    if Countable(v) && read.Converted? then outcome == Done(made)
    else if Countable(v) && read.Overflowed? then outcome == Failed(OperatorFailed)
    else Refuses(op, CastFailed, outcome)
  }

  predicate WordIs(rt: Runtime, op: Operator, v: Value, t: string, outcome: Outcome) {
    var word := rt.lower(rt.Strip(t));
    if v.Bool? then outcome == Done(v)
    else if word == "true" || word == "1" || word == "yes" then outcome == Done(Bool(true))
    else if word == "false" || word == "0" || word == "no" then outcome == Done(Bool(false))
    else Refuses(op, CastFailed, outcome)
  }

  lemma NumberCast(rt: Runtime, op: Operator, v: Value)
    requires v != Null && !(v.Str? && rt.Blank(v.s))
    ensures var onError := if "on_error" in op then op["on_error"] else Str("reject");
            && NumberIs(op, v, rt.toInt(v), Int(if rt.toInt(v).Converted? then rt.toInt(v).value else 0), Cast(rt, v, Str("integer"), onError))
            && NumberIs(op, v, rt.toFloat(v), Float(if rt.toFloat(v).Converted? then rt.toFloat(v).value else NaN), Cast(rt, v, Str("float"), onError))
  {
    CastNames();
    hide Runtime.Blank, Runtime.Strip, TrueText, FalseText;
  }

  lemma WordCast(rt: Runtime, op: Operator, v: Value, t: string)
    requires v != Null && !(v.Str? && rt.Blank(v.s)) && TextIs(rt, v, t)
    ensures WordIs(rt, op, v, t, Cast(rt, v, Str("boolean"), if "on_error" in op then op["on_error"] else Str("reject")))
  {
    CastNames();
    BooleanWords();
    hide Runtime.Blank, Runtime.Strip, Numeric;
  }

  lemma OtherCast(rt: Runtime, op: Operator, v: Value, to: Value, t: string)
    requires v != Null && !(v.Str? && rt.Blank(v.s)) && TextIs(rt, v, t)
    requires to != Str("integer") && to != Str("float") && to != Str("boolean")
    ensures var r := Cast(rt, v, to, if "on_error" in op then op["on_error"] else Str("reject"));
            if to == Str("string") then r == Done(Str(t)) else Refuses(op, UnknownCastTarget, r)
  {
    CastNames();
    hide Runtime.Blank, Runtime.Strip, TrueText, FalseText, Numeric;
  }

  /** A cast, target by target. */
  lemma {:induction false} CastMeans(rt: Runtime, op: Operator, v: Value, scope: Scope, t: string)
    requires Named(op, "cast") && "to" in op && TextIs(rt, v, t)
    ensures var r, to := ApplyOperator(rt, op, v, scope), op["to"];
            if Empty(rt, v) then r == Done(Null)
            else if to == Str("string") then r == Done(Str(t))
            else if to == Str("integer") then NumberIs(op, v, rt.toInt(v), Int(if rt.toInt(v).Converted? then rt.toInt(v).value else 0), r)
            else if to == Str("float") then NumberIs(op, v, rt.toFloat(v), Float(if rt.toFloat(v).Converted? then rt.toFloat(v).value else NaN), r)
            else if to == Str("boolean") then WordIs(rt, op, v, t, r)
            else Refuses(op, UnknownCastTarget, r)
  {
    CastIs(rt, op, v, scope);
    CastNames();
    if v.Str? {
      BlankMeans(rt, v.s);
    }
    hide Runtime.Strip, Runtime.Blank, ApplyOperator, Convert, NumberIs, WordIs, Refuses, TextIs;
    if !Empty(rt, v) {
      NumberCast(rt, op, v);
      WordCast(rt, op, v, t);
      if op["to"] != Str("integer") && op["to"] != Str("float") && op["to"] != Str("boolean") {
        OtherCast(rt, op, v, op["to"], t);
      }
    }
  }

  lemma BooleanWords()
    ensures "true" != "false" && "true" != "0" && "true" != "no" && "1" != "false" && "1" != "0" && "1" != "no"
    ensures "yes" != "false" && "yes" != "0" && "yes" != "no"
  {
    assert "true"[0] != "false"[0] && "true"[0] != "no"[0] && "yes"[0] != "false"[0] && "yes"[0] != "no"[0] && "yes"[0] != "0"[0];
    assert "true"[0] != "0"[0] && "1"[0] != "false"[0] && "1"[0] != "0"[0] && "1"[0] != "no"[0];
  }

  // ------------------------------------------------------------------ units

  /** How much a unit is, in seconds or in bytes. */
  function Size(unit: string): real {
    if unit == "min" then 60.0
    else if unit == "ms" then 0.001
    else if unit == "ns" then 0.000000001
    else if unit == "kb" then 1024.0
    else if unit == "mb" then 1024.0 * 1024.0
    else 1.0
  }

  predicate Convertible(from: string, to: string) {
    || (from in {"s", "min", "ns"} && to == "ms")
    || (from == "ms" && to == "s")
    || (from in {"kb", "mb"} && to == "b")
  }

  lemma UnitNames()
    ensures forall a, b :: a in {"s", "min", "ns", "ms", "kb", "mb", "b"} && b in {"s", "min", "ns", "ms", "kb", "mb", "b"} ==>
              (a == b <==> |a| == |b| && a[0] == b[0] && a[|a| - 1] == b[|b| - 1])
  {
  }

  lemma UnitsIs(rt: Runtime, op: Operator, v: Value, scope: Scope)
    requires Named(op, "unit_convert") && "from" in op && "to" in op
    ensures ApplyOperator(rt, op, v, scope) == UnitConvert(rt, v, op["from"], op["to"])
  {
    hide UnitConvert;
  }

  /** A conversion keeps the quantity: `y` of the one unit are `x` of the other.
      Whole units take the nearest integer, no integer being nearer. */
  lemma {:induction false} UnitsMean(rt: Runtime, op: Operator, v: Value, scope: Scope, x: real, y: real, other: int)
    requires Named(op, "unit_convert") && "from" in op && "to" in op && op["from"].Str? && op["to"].Str?
    requires Convertible(rt.lower(op["from"].s), rt.lower(op["to"].s))
    requires Countable(v) && rt.toFloat(v) == Converted(Finite(x))
    requires y * Size(rt.lower(op["to"].s)) == x * Size(rt.lower(op["from"].s))
    ensures var r := ApplyOperator(rt, op, v, scope);
            if rt.lower(op["to"].s) == "s" then r == Done(Float(Finite(y)))
            else r.Done? && r.value.Int? && Distance(y, r.value.i) <= Distance(y, other)
  {
    hide ApplyOperator, UnitConvert, Factor, Size, Round, Distance, Convertible;
    UnitsIs(rt, op, v, scope);
    var from, to := rt.lower(op["from"].s), rt.lower(op["to"].s);
    FactorKeeps(from, to, x, y);
    ScaledIs(rt, v, op["from"], op["to"], x, y);
    RoundIsNearest(y, other);
    SecondsOrWhole(from, to);
  }

  lemma ScaledIs(rt: Runtime, v: Value, from: Value, to: Value, x: real, y: real)
    requires from.Str? && to.Str? && Factor(rt.lower(from.s), rt.lower(to.s)).Some?
    requires Countable(v) && rt.toFloat(v) == Converted(Finite(x))
    requires x * Factor(rt.lower(from.s), rt.lower(to.s)).value == y
    ensures UnitConvert(rt, v, from, to) == Done(if rt.lower(to.s) == "ms" || rt.lower(to.s) == "b" then Int(Round(y)) else Float(Finite(y)))
  {
    hide Factor, Round, Scaled;
    var factor, whole := Factor(rt.lower(from.s), rt.lower(to.s)).value, rt.lower(to.s) in ["ms", "b"];
    assert rt.toFloat(v).value.r == x && rt.toFloat(v).value.r * factor == y;
    FiniteIsScaled(rt.toFloat(v).value, factor, whole, y);
  }

  lemma FiniteIsScaled(x: Number, factor: real, whole: bool, y: real)
    requires x.Finite? && x.r * factor == y
    ensures Scaled(x, factor, whole) == Done(if whole then Int(Round(y)) else Float(Finite(y)))
  {
  }

  lemma SecondsOrWhole(from: string, to: string)
    requires Convertible(from, to)
    ensures to == "s" <==> !(to == "ms" || to == "b")
  {
    UnitNames();
  }

  lemma FactorKeeps(from: string, to: string, x: real, y: real)
    requires Convertible(from, to) && y * Size(to) == x * Size(from)
    ensures Factor(from, to).Some? && x * Factor(from, to).value == y
  {
    UnitNames();
  }

  lemma OtherUnits(from: string, to: string)
    requires !Convertible(from, to)
    ensures Factor(from, to).None?
  {
    UnitNames();
  }

  /** Seconds and minutes, in milliseconds: a thousand and sixty thousand. */
  lemma {:induction false} SecondsAndMinutes(rt: Runtime, op: Operator, v: Value, scope: Scope, n: int)
    requires Named(op, "unit_convert") && "from" in op && "to" in op && op["from"].Str? && op["to"].Str?
    requires rt.lower(op["to"].s) == "ms" && Countable(v) && rt.toFloat(v) == Converted(Finite(n as real))
    ensures rt.lower(op["from"].s) == "s" ==> ApplyOperator(rt, op, v, scope) == Done(Int(1000 * n))
    ensures rt.lower(op["from"].s) == "min" ==> ApplyOperator(rt, op, v, scope) == Done(Int(60000 * n))
  {
    UnitNames();
    var x := n as real;
    if rt.lower(op["from"].s) == "s" {
      UnitsMean(rt, op, v, scope, x, 1000.0 * x, 1000 * n);
    } else if rt.lower(op["from"].s) == "min" {
      UnitsMean(rt, op, v, scope, x, 60000.0 * x, 60000 * n);
    }
  }

  /** What is not a finite number, or not a pair of units. */
  lemma {:induction false} UnitsRefuse(rt: Runtime, op: Operator, v: Value, scope: Scope)
    requires Named(op, "unit_convert") && "from" in op && "to" in op && op["from"].Str? && op["to"].Str?
    ensures var r, to := ApplyOperator(rt, op, v, scope), rt.lower(op["to"].s);
            if v.Null? then r == Done(Null)
            else if !Convertible(rt.lower(op["from"].s), to) then r == Failed(UnknownUnits)
            else if !Countable(v) || !rt.toFloat(v).Converted? then r == Failed(OperatorFailed)
            else !rt.toFloat(v).value.Finite? ==> r == if to == "s" then Done(Float(rt.toFloat(v).value)) else Failed(OperatorFailed)
  {
    UnitsIs(rt, op, v, scope);
    UnitNames();
    var from, to := rt.lower(op["from"].s), rt.lower(op["to"].s);
    if Convertible(from, to) {
      FactorKeeps(from, to, 0.0, 0.0);
    } else {
      OtherUnits(from, to);
    }
    hide ApplyOperator, Factor, Size, Round;
  }

  // ------------------------------------------------------- texts and defaults

  /** The operators on texts, and the two that need none. */
  lemma {:induction false} TextsMean(rt: Runtime, op: Operator, v: Value, scope: Scope, t: string)
    requires TextIs(rt, v, t)
    ensures Named(op, "trim") ==> ApplyOperator(rt, op, v, scope) == Done(if v.Null? then Null else Str(rt.Strip(t)))
    ensures Named(op, "lower") ==> ApplyOperator(rt, op, v, scope) == Done(if v.Null? then Null else Str(rt.lower(t)))
    ensures Named(op, "upper") ==> ApplyOperator(rt, op, v, scope) == Done(if v.Null? then Null else Str(rt.upper(t)))
    ensures Named(op, "json_passthrough") ==> ApplyOperator(rt, op, v, scope) == Done(v)
    ensures Named(op, "default") ==> ApplyOperator(rt, op, v, scope) == Done(if v != Null then v else if "value" in op then op["value"] else Null)
  {
    OperatorNames();
    hide Runtime.Strip, Cast, UnitConvert, MapValues, ParseDatetime, WithSources, HashOf, RegexExtract;
  }

  lemma OperatorNames()
    ensures forall a, b :: a in ALL_NAMES && b in ALL_NAMES && a != b ==> |a| != |b| || a[0] != b[0]
  {
  }

  const ALL_NAMES := {"cast", "default", "trim", "lower", "upper", "unit_convert", "map_values", "json_passthrough",
                      "parse_datetime", "coalesce", "concat", "hash", "regex_extract"}

  /** A name that is none of these fails; and so does a parameter that is read
      and not there. */
  lemma {:induction false} UnknownNames(rt: Runtime, op: Operator, v: Value, scope: Scope)
    ensures !("op" in op && op["op"].Str? && op["op"].s in ALL_NAMES) ==> ApplyOperator(rt, op, v, scope) == Failed(UnknownOperator)
    ensures Named(op, "cast") && "to" !in op ==> ApplyOperator(rt, op, v, scope) == Failed(MissingParameter("to"))
    ensures Named(op, "unit_convert") && "from" in op && "to" !in op ==> ApplyOperator(rt, op, v, scope) == Failed(MissingParameter("to"))
    ensures Named(op, "unit_convert") && "from" !in op ==> ApplyOperator(rt, op, v, scope) == Failed(MissingParameter("from"))
    ensures Named(op, "parse_datetime") && "format" !in op ==> ApplyOperator(rt, op, v, scope) == Failed(MissingParameter("format"))
    ensures Named(op, "regex_extract") && "pattern" !in op ==> ApplyOperator(rt, op, v, scope) == Failed(MissingParameter("pattern"))
    ensures (Named(op, "coalesce") || Named(op, "concat") || Named(op, "hash")) && "sources" !in op ==>
              ApplyOperator(rt, op, v, scope) == Failed(MissingParameter("sources"))
  {
    hide Cast, UnitConvert, MapValues, ParseDatetime, RegexExtract, OnText;
  }

  // -------------------------------------------------------------- map_values

  /** A table, and what it does with a value it does not have. */
  lemma {:induction false} TableMeans(rt: Runtime, op: Operator, v: Value, scope: Scope, key: string)
    requires Named(op, "map_values") && "table" in op && op["table"].Obj?
    requires if v.Null? then key == "null" else TextIs(rt, v, key)
    ensures var r, table := ApplyOperator(rt, op, v, scope), op["table"].fields;
            if key in table then r == Done(table[key])
            else if "on_unknown" in op && op["on_unknown"] == Str("null") then r == Done(Null)
            else if "on_unknown" in op && op["on_unknown"] == Str("reject") then r == Failed(OperatorFailed)
            else if "on_unknown" in op && op["on_unknown"] == Str("constant") then
              r == Done(if "constant" in op then op["constant"] else Null)
            else r == Done(v)
  {
    MapValuesIs(rt, op, v, scope);
    Modes();
    hide ApplyOperator;
  }

  lemma MapValuesIs(rt: Runtime, op: Operator, v: Value, scope: Scope)
    requires Named(op, "map_values")
    ensures ApplyOperator(rt, op, v, scope) == MapValues(rt, v, op)
  {
    hide MapValues;
  }

  lemma Modes()
    ensures "passthrough" != "null" && "passthrough" != "constant" && "passthrough" != "reject"
    ensures "null" != "constant" && "null" != "reject" && "constant" != "reject"
  {
    assert "passthrough"[0] != "null"[0] && "passthrough"[0] != "constant"[0] && "passthrough"[0] != "reject"[0];
    assert "null"[0] != "constant"[0] && "null"[0] != "reject"[0] && "constant"[0] != "reject"[0];
  }

  // --------------------------------------------------- dates and extractions

  /** A date is what the library reads with the format, or a failure that tells
      an unreadable one from an exception the engine does not expect. */
  lemma {:induction false} DatesMean(rt: Runtime, op: Operator, v: Value, scope: Scope)
    requires Named(op, "parse_datetime") && "format" in op && op["format"].Str?
    ensures ApplyOperator(rt, op, v, scope) ==
            if v.Null? then Done(Null)
            else match rt.instant(v, op["format"].s)
                 case Answered(t) => Done(DateTime(t))
                 case Declined => Failed(DatetimeUnreadable)
                 case Uncaught => Failed(OperatorFailed)
  {
    DateIs(rt, op, v, scope);
    hide ApplyOperator;
  }

  lemma DateIs(rt: Runtime, op: Operator, v: Value, scope: Scope)
    requires Named(op, "parse_datetime") && "format" in op
    ensures ApplyOperator(rt, op, v, scope) == ParseDatetime(rt, v, op["format"])
  {
    hide ParseDatetime;
  }

  /** The extractor is asked for the group of the pattern, group 0 when none is
      given; no match gives Null. */
  lemma {:induction false} ExtractionMeans(rt: Runtime, op: Operator, v: Value, scope: Scope, t: string, group: int)
    requires Named(op, "regex_extract") && "pattern" in op && op["pattern"].Str? && TextIs(rt, v, t)
    requires if "group" in op then op["group"] == Int(group) else group == 0
    ensures ApplyOperator(rt, op, v, scope) ==
            if v.Null? then Done(Null)
            else match rt.extractor
                 case None => Failed(ExtractorMissing)
                 case Some(extract) =>
                   match extract(t, op["pattern"].s, group)
                   case Converted(found) => Done(if found.None? then Null else Str(found.value))
                   case Malformed => Failed(ExtractorRefused)
                   case Overflowed => Failed(OperatorFailed)
  {
    RegexIs(rt, op, v, scope);
    hide ApplyOperator;
  }

  lemma RegexIs(rt: Runtime, op: Operator, v: Value, scope: Scope)
    requires Named(op, "regex_extract") && "pattern" in op
    ensures ApplyOperator(rt, op, v, scope) == RegexExtract(rt, v, op["pattern"], Parameter(op, "group", Int(0)))
  {
    hide RegexExtract;
  }

  // ----------------------------------------------------------- combinations

  /** The sources of a combination, and what the row holds for each. */
  ghost predicate ReadsAs(scope: Scope, op: Operator, names: seq<string>, values: seq<Value>) {
    && "sources" in op && op["sources"].List? && |op["sources"].items| == |names| == |values|
    && (forall i :: 0 <= i < |names| ==> op["sources"].items[i] == Str(names[i]))
    && forall i :: 0 <= i < |names| ==> Lookup(scope, names[i]) == Done(values[i])
  }

  lemma ReadsIs(scope: Scope, op: Operator, names: seq<string>, values: seq<Value>)
    requires ReadsAs(scope, op, names, values)
    ensures var items := op["sources"].items; AllRead(scope, items) && AllSources(scope, items) == Ok(values)
  {
    hide Lookup;
    var items := op["sources"].items;
    SourcesInOrder(scope, items);
    hide AllSources;
    assert AllSources(scope, items).value == values;
  }

  lemma CombinationIs(rt: Runtime, op: Operator, v: Value, scope: Scope)
    requires "sources" in op && op["sources"].List?
    ensures var items := op["sources"].items;
            && (Named(op, "coalesce") ==> ApplyOperator(rt, op, v, scope) == Coalesce(scope, items))
            && (Named(op, "concat") ==>
                  ApplyOperator(rt, op, v, scope) == Concat(rt, scope, items, if "separator" in op then op["separator"] else Str("")))
            && (Named(op, "hash") && "algorithm" in op && op["algorithm"] == Str("sha256") ==>
                  ApplyOperator(rt, op, v, scope) == Hash(rt, scope, items))
  {
    hide Coalesce, Concat, Hash, Cast, UnitConvert, MapValues, ParseDatetime, RegexExtract, OnText;
    OperatorNames();
  }

  /** `coalesce` gives the first known value of its sources. */
  lemma {:induction false} CoalesceMeans(rt: Runtime, op: Operator, v: Value, scope: Scope, names: seq<string>, values: seq<Value>, i: nat)
    requires Named(op, "coalesce") && ReadsAs(scope, op, names, values)
    ensures i < |values| && values[i] != Null && (forall j :: 0 <= j < i ==> values[j] == Null) ==>
              ApplyOperator(rt, op, v, scope) == Done(values[i])
    ensures (forall j :: 0 <= j < |values| ==> values[j] == Null) ==> ApplyOperator(rt, op, v, scope) == Done(Null)
  {
    hide Lookup, ApplyOperator, Coalesce, AllSources;
    CombinationIs(rt, op, v, scope);
    ReadsIs(scope, op, names, values);
    CoalesceIsFirstKnown(scope, op["sources"].items, i);
  }

  /** `concat` joins the texts of the known values. */
  lemma {:induction false} ConcatMeans(rt: Runtime, op: Operator, v: Value, scope: Scope, names: seq<string>, values: seq<Value>)
    requires Named(op, "concat") && ReadsAs(scope, op, names, values) && ("separator" in op ==> op["separator"].Str?)
    ensures var known, separator := NonNull(values), if "separator" in op then op["separator"].s else "";
            ApplyOperator(rt, op, v, scope) == Done(if known == [] then Null else Str(JoinTexts(rt, known, separator)))
  {
    hide Lookup, ApplyOperator, AllSources, JoinTexts, NonNull;
    CombinationIs(rt, op, v, scope);
    ReadsIs(scope, op, names, values);
  }

  /** One part is joined as its text; `JoinConcat` says the rest. */
  lemma JoinMeans(rt: Runtime, part: Value, separator: string, t: string)
    requires TextIs(rt, part, t)
    ensures JoinTexts(rt, [part], separator) == t
  {
  }

  /** `hash` digests the names of its sources with their values, once any is
      known. */
  lemma {:induction false} HashMeans(rt: Runtime, op: Operator, v: Value, scope: Scope, names: seq<string>, values: seq<Value>,
                                     table: map<string, Value>)
    requires Named(op, "hash") && "algorithm" in op && op["algorithm"] == Str("sha256") && ReadsAs(scope, op, names, values)
    requires (forall name :: name in table <==> name in names)
    requires forall i :: 0 <= i < |names| ==> table[names[i]] == values[i]
    ensures ApplyOperator(rt, op, v, scope) ==
            if forall i :: 0 <= i < |values| ==> values[i] == Null then Done(Null)
            else match rt.digest(table)
                 case Some(text) => Done(Str(text))
                 case None => Failed(OperatorFailed)
  {
    var items := op["sources"].items;
    hide Lookup, ApplyOperator, AllSources, Hash, NonNull, SourceTable;
    CombinationIs(rt, op, v, scope);
    ReadsIs(scope, op, names, values);
    HashIs(rt, scope, items);
    NoneKnown(values);
    TableOf(items, names, values, table);
  }

  lemma {:induction false} TableOf(items: seq<Value>, names: seq<string>, values: seq<Value>, table: map<string, Value>)
    requires |items| == |names| == |values| && forall i :: 0 <= i < |names| ==> items[i] == Str(names[i])
    requires (forall name :: name in table <==> name in names)
    requires forall i :: 0 <= i < |names| ==> table[names[i]] == values[i]
    ensures SourceTable(items, values) == table
  {
    TableHolds(items, names, values);
    hide SourceTable;
    var made := SourceTable(items, values);
    assert made.Keys == table.Keys;
    forall name | name in table ensures made[name] == table[name] {
      var i :| 0 <= i < |names| && names[i] == name;
      var j := LastOf(items, names, values, name);
    }
  }

  lemma {:induction false} TableHolds(items: seq<Value>, names: seq<string>, values: seq<Value>)
    requires |items| == |names| == |values| && forall i :: 0 <= i < |names| ==> items[i] == Str(names[i])
    ensures forall name :: name in SourceTable(items, values) <==> name in names
  {
    if names != [] {
      var n := |names| - 1;
      TableHolds(items[..n], names[..n], values[..n]);
      assert names == names[..n] + [names[n]];
    }
  }

  lemma {:induction false} LastOf(items: seq<Value>, names: seq<string>, values: seq<Value>, name: string) returns (j: nat)
    requires |items| == |names| == |values| && (forall i :: 0 <= i < |names| ==> items[i] == Str(names[i])) && name in names
    ensures j < |names| && names[j] == name
    ensures name in SourceTable(items, values) && SourceTable(items, values)[name] == values[j]
  {
    var n := |names| - 1;
    if names[n] == name {
      j := n;
    } else {
      assert name in names[..n];
      j := LastOf(items[..n], names[..n], values[..n], name);
    }
  }

  // ------------------------------------------------------- lists of operators

  /** No operator keeps the value, one operator is itself; `OperatorsCompose`
      says the rest. */
  lemma {:induction false} OneOperator(rt: Runtime, op: Operator, v: Value, scope: Scope)
    ensures ApplyOperators(rt, [], v, scope) == Done(v)
    ensures ApplyOperators(rt, [op], v, scope) == ApplyOperator(rt, op, v, scope)
  {
    hide ApplyOperator;
    assert [op][1..] == [];
  }
}
