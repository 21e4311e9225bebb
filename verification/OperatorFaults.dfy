/**
 What an operator does with parameters that are not what they should be, on
 `ApplyOperator` and without the functions it is made of: which failure each
 gives, and which odd parameters are taken all the same.
 */
module OperatorFaults {
  import opened Values
  import opened JsonPath
  import opened Mappings
  import opened Engine
  import opened OperatorLaws
  import opened OperatorMeanings

  /** Units, formats, patterns and algorithms of another kind. An unknown value is
      not looked at with them, and comes out unknown. */
  lemma {:induction false} KindsMean(rt: Runtime, op: Operator, v: Value, scope: Scope)
    ensures Named(op, "unit_convert") && "from" in op && "to" in op && v != Null && !op["from"].Str? ==>
              ApplyOperator(rt, op, v, scope) == Failed(BadParameter("from"))
    ensures Named(op, "unit_convert") && "from" in op && "to" in op && v != Null && op["from"].Str? && !op["to"].Str? ==>
              ApplyOperator(rt, op, v, scope) == Failed(BadParameter("to"))
    ensures Named(op, "parse_datetime") && "format" in op && v != Null && !op["format"].Str? ==>
              ApplyOperator(rt, op, v, scope) == Failed(BadParameter("format"))
    ensures Named(op, "unit_convert") && "from" in op && "to" in op ==> ApplyOperator(rt, op, Null, scope) == Done(Null)
    ensures Named(op, "parse_datetime") && "format" in op ==> ApplyOperator(rt, op, Null, scope) == Done(Null)
    ensures Named(op, "regex_extract") && "pattern" in op ==> ApplyOperator(rt, op, Null, scope) == Done(Null)
    ensures Named(op, "regex_extract") && "pattern" in op && v != Null ==>
              && (rt.extractor.None? ==> ApplyOperator(rt, op, v, scope) == Failed(ExtractorMissing))
              && (rt.extractor.Some? && !op["pattern"].Str? ==> ApplyOperator(rt, op, v, scope) == Failed(BadParameter("pattern")))
              && (rt.extractor.Some? && op["pattern"].Str? && "group" in op && !op["group"].Int? ==>
                    ApplyOperator(rt, op, v, scope) == Failed(BadParameter("group")))
  {
    OperatorNames();
    if Named(op, "unit_convert") && "from" in op && "to" in op {
      UnitsIs(rt, op, v, scope);
      UnitsIs(rt, op, Null, scope);
    } else if Named(op, "parse_datetime") && "format" in op {
      DateIs(rt, op, v, scope);
      DateIs(rt, op, Null, scope);
    } else if Named(op, "regex_extract") && "pattern" in op {
      RegexIs(rt, op, v, scope);
      RegexIs(rt, op, Null, scope);
    }
    hide ApplyOperator, Factor;
  }

  lemma HashWith(rt: Runtime, op: Operator, v: Value, scope: Scope)
    requires Named(op, "hash")
    ensures ApplyOperator(rt, op, v, scope) == HashOf(rt, scope, op)
  {
    OperatorNames();
    hide HashOf, Cast, UnitConvert, MapValues, ParseDatetime, WithSources, RegexExtract, OnText;
  }

  /** The one algorithm is the one taken without any. */
  lemma {:induction false} AlgorithmMeans(rt: Runtime, op: Operator, v: Value, scope: Scope)
    requires Named(op, "hash") && "sources" in op
    ensures "algorithm" in op && op["algorithm"] != Str("sha256") ==> ApplyOperator(rt, op, v, scope) == Failed(UnknownAlgorithm)
    ensures "algorithm" !in op ==> ApplyOperator(rt, op, v, scope) == ApplyOperator(rt, op["algorithm" := Str("sha256")], v, scope)
  {
    OperatorNames();
    ParameterNames();
    HashWith(rt, op, v, scope);
    HashWith(rt, op["algorithm" := Str("sha256")], v, scope);
    hide ApplyOperator, Hash, SourceItems;
  }

  lemma ParameterNames()
    ensures "algorithm" != "sources" && "algorithm" != "op" && "sources" != "op" && "table" != "op" && "table" != "on_unknown"
    ensures "table" != "constant" && "sources" != "separator"
  {
    assert "algorithm"[0] != "sources"[0] && "algorithm"[0] != "op"[0] && "sources"[0] != "op"[0] && "table"[0] != "op"[0];
    assert "table"[0] != "on_unknown"[0] && "table"[0] != "constant"[0] && "sources"[1] != "separator"[1];
  }

  /** A table that is no object: a list or a text without the key is an empty
      table, one with the key fails, and so does anything else. */
  lemma {:induction false} OddTables(rt: Runtime, op: Operator, v: Value, scope: Scope, key: string)
    requires Named(op, "map_values")
    requires if v.Null? then key == "null" else TextIs(rt, v, key)
    ensures var r, empty := ApplyOperator(rt, op, v, scope), ApplyOperator(rt, op["table" := Obj(map[])], v, scope);
            if "table" !in op then r == empty
            else
              match op["table"]
              case Obj(_) => true
              case List(items) => r == if Str(key) in items then Failed(BadParameter("table")) else empty
              case Str(text) => r == if Contains(text, key) then Failed(BadParameter("table")) else empty
              case _ => r == Failed(BadParameter("table"))
  {
    ParameterNames();
    MapValuesIs(rt, op, v, scope);
    MapValuesIs(rt, op["table" := Obj(map[])], v, scope);
    hide ApplyOperator, Contains;
  }

  // ---------------------------------------------------------------- sources

  predicate Combines(op: Operator) {
    Named(op, "coalesce") || Named(op, "concat") || Named(op, "hash")
  }

  /** What the walk of a `sources` value that is no list visits: the characters of
      a text, the keys of an object in the runtime's order. */
  predicate Walks(rt: Runtime, sources: Value, items: seq<Value>) {
    match sources
    case Str(text) => |items| == |text| && forall i :: 0 <= i < |items| ==> items[i] == Str([text[i]])
    case Obj(fields) => |items| == |rt.keys(fields)| && forall i :: 0 <= i < |items| ==> items[i] == Str(rt.keys(fields)[i])
    case _ => false
  }

  lemma WalksIs(rt: Runtime, sources: Value, items: seq<Value>)
    requires Walks(rt, sources, items)
    ensures SourceItems(rt, sources) == SourceItems(rt, List(items)) == Some(items)
  {
    var walked := SourceItems(rt, sources).value;
    assert |walked| == |items| && forall i :: 0 <= i < |items| ==> walked[i] == items[i];
    assert walked == items;
  }

  /** A combination depends on its `sources` by the items they walk. */
  lemma SameSources(rt: Runtime, op: Operator, other: Operator, v: Value, scope: Scope)
    requires Combines(op) && "sources" in op && "sources" in other && SourceItems(rt, op["sources"]) == SourceItems(rt, other["sources"])
    requires forall name :: name != "sources" ==> (name in op <==> name in other) && (name in op ==> op[name] == other[name])
    ensures ApplyOperator(rt, op, v, scope) == ApplyOperator(rt, other, v, scope)
  {
    OperatorNames();
    ParameterNames();
    assert Get(op, "op") == Get(other, "op");
    assert Parameter(op, "separator", Str("")) == Parameter(other, "separator", Str(""));
    assert Parameter(op, "algorithm", Str("sha256")) == Parameter(other, "algorithm", Str("sha256"));
    hide SourceItems, Coalesce, Concat, Hash, Cast, UnitConvert, MapValues, ParseDatetime, RegexExtract, OnText, Parameter, Get;
  }

  /** Sources that are a text or an object are taken for the list they walk as,
      and sources that nothing can walk fail. */
  lemma {:induction false} OddSources(rt: Runtime, op: Operator, v: Value, scope: Scope, items: seq<Value>)
    requires Combines(op) && "sources" in op && ("algorithm" in op && Named(op, "hash") ==> op["algorithm"] == Str("sha256"))
    ensures Walks(rt, op["sources"], items) ==> ApplyOperator(rt, op, v, scope) == ApplyOperator(rt, op["sources" := List(items)], v, scope)
    ensures !op["sources"].List? && !op["sources"].Str? && !op["sources"].Obj? ==>
              ApplyOperator(rt, op, v, scope) == Failed(BadParameter("sources"))
  {
    if Walks(rt, op["sources"], items) {
      WalksIs(rt, op["sources"], items);
      SameSources(rt, op, op["sources" := List(items)], v, scope);
    }
    OperatorNames();
    hide Coalesce, Concat, Hash, Cast, UnitConvert, MapValues, ParseDatetime, RegexExtract, OnText, Walks;
  }

  /** A source that cannot be read, and why. */
  predicate Unreadable(scope: Scope, source: Value, why: Failure) {
    if source.Str? then SourcePath(source.s, scope.prefix).Err? && why == UnsupportedPath(SourcePath(source.s, scope.prefix).error)
    else why == BadParameter("sources")
  }

  lemma UnreadableFails(scope: Scope, source: Value, why: Failure)
    requires Unreadable(scope, source, why)
    ensures SourceValue(scope, source) == Failed(why)
  {
    hide SourcePath;
  }

  /** The sources before are read, and this one is not. */
  ghost predicate FailsAt(scope: Scope, items: seq<Value>, i: nat, why: Failure) {
    && i < |items| && Unreadable(scope, items[i], why)
    && forall j :: 0 <= j < i ==> items[j].Str? && SourcePath(items[j].s, scope.prefix).Ok?
  }

  lemma {:induction false} FirstFailure(scope: Scope, items: seq<Value>, i: nat, why: Failure)
    requires FailsAt(scope, items, i, why)
    ensures AllSources(scope, items) == Err(why)
  {
    hide SourcePath;
    if i == 0 {
      UnreadableFails(scope, items[0], why);
    } else {
      assert forall j :: 0 <= j < |items| - 1 ==> items[1..][j] == items[j + 1];
      FirstFailure(scope, items[1..], i - 1, why);
      assert SourceValue(scope, items[0]).Done?;
    }
  }

  lemma {:induction false} FirstKnownFailure(scope: Scope, items: seq<Value>, i: nat, why: Failure)
    requires FailsAt(scope, items, i, why) && forall j :: 0 <= j < i ==> Lookup(scope, items[j].s) == Done(Null)
    ensures Coalesce(scope, items) == Failed(why)
  {
    hide SourcePath, Lookup;
    if i == 0 {
      hide SourceValue;
      UnreadableFails(scope, items[0], why);
    } else {
      assert forall j :: 0 <= j < |items| - 1 ==> items[1..][j] == items[j + 1];
      FirstKnownFailure(scope, items[1..], i - 1, why);
      assert SourceValue(scope, items[0]) == Done(Null);
    }
  }

  lemma CoalesceIs(rt: Runtime, op: Operator, v: Value, scope: Scope)
    requires Named(op, "coalesce") && "sources" in op && op["sources"].List?
    ensures ApplyOperator(rt, op, v, scope) == Coalesce(scope, op["sources"].items)
  {
    OperatorNames();
    hide Coalesce, Concat, Hash, Cast, UnitConvert, MapValues, ParseDatetime, RegexExtract, OnText;
  }

  lemma OthersAre(rt: Runtime, op: Operator, v: Value, scope: Scope)
    requires "sources" in op && op["sources"].List?
    ensures Named(op, "concat") ==>
              ApplyOperator(rt, op, v, scope) == Concat(rt, scope, op["sources"].items, if "separator" in op then op["separator"] else Str(""))
    ensures Named(op, "hash") && ("algorithm" in op ==> op["algorithm"] == Str("sha256")) ==>
              ApplyOperator(rt, op, v, scope) == Hash(rt, scope, op["sources"].items)
  {
    OperatorNames();
    hide Coalesce, Concat, Hash, Cast, UnitConvert, MapValues, ParseDatetime, RegexExtract, OnText;
  }

  /** A source that cannot be read fails a concatenation and a hash, the first of
      them with its reason; a coalescence gets to it only when all before it are
      unknown. */
  lemma {:induction false} RefusedSources(rt: Runtime, op: Operator, v: Value, scope: Scope, i: nat, why: Failure)
    requires "sources" in op && op["sources"].List? && FailsAt(scope, op["sources"].items, i, why)
    ensures Named(op, "concat") || (Named(op, "hash") && ("algorithm" in op ==> op["algorithm"] == Str("sha256"))) ==>
              ApplyOperator(rt, op, v, scope) == Failed(why)
    ensures Named(op, "coalesce") && (forall j :: 0 <= j < i ==> Lookup(scope, op["sources"].items[j].s) == Done(Null)) ==>
              ApplyOperator(rt, op, v, scope) == Failed(why)
  {
    hide ApplyOperator, AllSources, Coalesce, Lookup, SourcePath;
    var items := op["sources"].items;
    FirstFailure(scope, items, i, why);
    OthersAre(rt, op, v, scope);
    if Named(op, "coalesce") && forall j :: 0 <= j < i ==> Lookup(scope, items[j].s) == Done(Null) {
      CoalesceIs(rt, op, v, scope);
      FirstKnownFailure(scope, items, i, why);
    }
  }

  /** A separator of another kind fails once there is something to join. */
  lemma {:induction false} OddSeparator(rt: Runtime, op: Operator, v: Value, scope: Scope, names: seq<string>, values: seq<Value>)
    requires Named(op, "concat") && ReadsAs(scope, op, names, values) && "separator" in op && !op["separator"].Str?
    ensures ApplyOperator(rt, op, v, scope)
         == if forall i :: 0 <= i < |values| ==> values[i] == Null then Done(Null) else Failed(BadParameter("separator"))
  {
    hide Lookup, ApplyOperator, AllSources, JoinTexts, NonNull;
    CombinationIs(rt, op, v, scope);
    ReadsIs(scope, op, names, values);
    NoneKnown(values);
  }
}
