/**
 What the operators of a mapping mean: laws of each family that do not depend on
 how it is computed.
 */
module OperatorLaws {
  import opened Values
  import opened JsonPath
  import opened Mappings
  import opened Engine

  /** Operators compose in declared order. */
  lemma {:induction false} OperatorsCompose(rt: Runtime, first: seq<Operator>, last: seq<Operator>, v: Value, scope: Scope)
    ensures var middle := ApplyOperators(rt, first, v, scope);
            ApplyOperators(rt, first + last, v, scope)
            == if middle.Failed? then middle else ApplyOperators(rt, last, middle.value, scope)
    decreases |first|
  {
    hide ApplyOperator;
    if first == [] {
      assert first + last == last;
    } else {
      assert (first + last)[1..] == first[1..] + last;
      var next := ApplyOperator(rt, first[0], v, scope);
      if next.Done? {
        OperatorsCompose(rt, first[1..], last, next.value, scope);
      }
    }
  }

  // ----------------------------------------------------------- combining

  predicate AllRead(scope: Scope, sources: seq<Value>) {
    forall i :: 0 <= i < |sources| ==> SourceValue(scope, sources[i]).Done?
  }

  /** `coalesce` gives the value of a source that is known when every source
      before it is not, and Null exactly when none is known. */
  lemma {:induction false} CoalesceIsFirstKnown(scope: Scope, sources: seq<Value>, i: nat)
    requires AllRead(scope, sources)
    ensures i < |sources| && SourceValue(scope, sources[i]) != Done(Null)
            && (forall j :: 0 <= j < i ==> SourceValue(scope, sources[j]) == Done(Null)) ==>
              Coalesce(scope, sources) == SourceValue(scope, sources[i])
    ensures Coalesce(scope, sources) == Done(Null) <==> forall j :: 0 <= j < |sources| ==> SourceValue(scope, sources[j]) == Done(Null)
  {
    hide SourceValue;
    if sources != [] {
      var rest := sources[1..];
      assert forall j :: 0 <= j < |rest| ==> rest[j] == sources[j + 1];
      assert SourceValue(scope, sources[0]).Done?;
      CoalesceIsFirstKnown(scope, rest, if i > 0 then i - 1 else 0);
      assert forall j :: 0 < j < |sources| ==> sources[j] == rest[j - 1];
    }
  }

  /** The known parts are joined in order, one separator between neighbours. */
  lemma {:induction false} JoinConcat(rt: Runtime, a: seq<Value>, b: seq<Value>, separator: string)
    requires a != [] && b != []
    ensures JoinTexts(rt, a + b, separator) == JoinTexts(rt, a, separator) + separator + JoinTexts(rt, b, separator)
    decreases |a|
  {
    assert (a + b)[1..] == a[1..] + b;
    if |a| > 1 {
      JoinConcat(rt, a[1..], b, separator);
    } else {
      assert a[1..] + b == b;
    }
  }

  lemma {:induction false} SourcesInOrder(scope: Scope, sources: seq<Value>)
    ensures var r := AllSources(scope, sources);
            && (r.Ok? <==> AllRead(scope, sources))
            && (r.Ok? ==> |r.value| == |sources| && forall i :: 0 <= i < |sources| ==> SourceValue(scope, sources[i]) == Done(r.value[i]))
  {
    hide SourceValue;
    if sources != [] {
      SourcesInOrder(scope, sources[1..]);
      assert forall j :: 0 < j < |sources| ==> sources[j] == sources[1..][j - 1];
      assert forall j :: 0 <= j < |sources| - 1 ==> sources[1..][j] == sources[j + 1];
    }
  }

  /** `concat` skips unknown sources: they might as well not be listed. */
  lemma {:induction false} ConcatSkipsUnknown(rt: Runtime, scope: Scope, before: seq<Value>, source: Value, after: seq<Value>, separator: Value)
    requires SourceValue(scope, source) == Done(Null)
    ensures Concat(rt, scope, before + [source] + after, separator) == Concat(rt, scope, before + after, separator)
  {
    hide SourceValue, JoinTexts;
    AllSourcesConcat(scope, before, after);
    AllSourcesConcat(scope, before, [source]);
    AllSourcesConcat(scope, before + [source], after);
    UnknownAlone(scope, source);
    var a, b := AllSources(scope, before), AllSources(scope, after);
    if a.Ok? && b.Ok? {
      NonNullConcat(a.value, b.value);
      NonNullConcat(a.value, [Null]);
      NonNullConcat(a.value + [Null], b.value);
      NonNullOne(Null);
      assert NonNull(a.value) + [] == NonNull(a.value);
    }
  }

  lemma UnknownAlone(scope: Scope, source: Value)
    requires SourceValue(scope, source) == Done(Null)
    ensures AllSources(scope, [source]) == Ok([Null])
  {
    hide SourceValue;
    assert [source][1..] == [] && AllSources(scope, []) == Ok([]);
    assert [Null] + [] == [Null];
  }

  lemma {:induction false} AllSourcesConcat(scope: Scope, a: seq<Value>, b: seq<Value>)
    ensures AllSources(scope, a + b) ==
            var first, second := AllSources(scope, a), AllSources(scope, b);
            if first.Err? then first else if second.Err? then second else Ok(first.value + second.value)
    decreases |a|
  {
    hide SourceValue;
    if a == [] {
      assert a + b == b;
      if AllSources(scope, b).Ok? {
        assert [] + AllSources(scope, b).value == AllSources(scope, b).value;
      }
    } else {
      assert (a + b)[1..] == a[1..] + b;
      AllSourcesConcat(scope, a[1..], b);
      if AllSources(scope, a).Ok? && AllSources(scope, b).Ok? {
        var head, rest := SourceValue(scope, a[0]).value, AllSources(scope, a[1..]).value;
        assert [head] + (rest + AllSources(scope, b).value) == [head] + rest + AllSources(scope, b).value;
      }
    }
  }

  // --------------------------------------------------------------- identity

  ghost predicate SameNames(a: seq<Value>, b: seq<Value>) {
    forall v :: v in a <==> v in b
  }

  lemma {:induction false} TableIs(scope: Scope, sources: seq<Value>, values: seq<Value>)
    requires |sources| == |values| && forall i :: 0 <= i < |sources| ==> sources[i].Str? && SourceValue(scope, sources[i]) == Done(values[i])
    ensures forall name :: name in SourceTable(sources, values) <==> Str(name) in sources
    ensures forall name :: name in SourceTable(sources, values) ==> SourceValue(scope, Str(name)) == Done(SourceTable(sources, values)[name])
  {
    hide SourceValue;
    if sources != [] {
      var n := |sources| - 1;
      TableIs(scope, sources[..n], values[..n]);
      assert sources == sources[..n] + [sources[n]];
    }
  }

  lemma KnownIn(scope: Scope, sources: seq<Value>, values: seq<Value>)
    requires |sources| == |values| && forall i :: 0 <= i < |sources| ==> SourceValue(scope, sources[i]) == Done(values[i])
    ensures NonNull(values) == [] <==> forall v :: v in sources ==> SourceValue(scope, v) == Done(Null)
  {
    hide SourceValue;
    NoneKnown(values);
    if NonNull(values) == [] {
      forall v | v in sources ensures SourceValue(scope, v) == Done(Null) {
        var i :| 0 <= i < |sources| && sources[i] == v;
        assert values[i] == Null;
      }
    } else {
      var i :| 0 <= i < |values| && values[i] != Null;
      assert sources[i] in sources;
    }
  }

  lemma {:induction false} NoneKnown(values: seq<Value>)
    ensures NonNull(values) == [] <==> forall i :: 0 <= i < |values| ==> values[i] == Null
  {
    if values != [] {
      NoneKnown(values[1..]);
      assert forall i :: 0 < i < |values| ==> values[i] == values[1..][i - 1];
      assert forall i :: 0 <= i < |values| - 1 ==> values[1..][i] == values[i + 1];
    }
  }

  /** A hash is of what its sources are, not of the order they are listed in,
      nor of how often: the same sources give the same identity. */
  lemma {:induction false} HashIgnoresOrder(rt: Runtime, scope: Scope, a: seq<Value>, b: seq<Value>)
    requires SameNames(a, b) && AllRead(scope, a) && AllRead(scope, b)
    ensures Hash(rt, scope, a) == Hash(rt, scope, b)
  {
    SourcesInOrder(scope, a);
    SourcesInOrder(scope, b);
    OnlyNamesRead(scope, a);
    OnlyNamesRead(scope, b);
    hide SourceValue, SourceTable, NonNull, AllSources;
    var x, y := AllSources(scope, a).value, AllSources(scope, b).value;
    TableIs(scope, a, x);
    TableIs(scope, b, y);
    KnownIn(scope, a, x);
    KnownIn(scope, b, y);
    SameTable(scope, SourceTable(a, x), SourceTable(b, y));
    HashIs(rt, scope, a);
    HashIs(rt, scope, b);
  }

  lemma HashIs(rt: Runtime, scope: Scope, sources: seq<Value>)
    requires AllSources(scope, sources).Ok?
    ensures var values := AllSources(scope, sources).value;
            && |values| == |sources|
            && Hash(rt, scope, sources)
               == if NonNull(values) == [] then Done(Null)
                  else match rt.digest(SourceTable(sources, values))
                       case Some(text) => Done(Str(text))
                       case None => Failed(OperatorFailed)
  {
    hide NonNull, SourceTable, SourceValue;
    AllSourcesLength(scope, sources);
  }

  lemma SameTable(scope: Scope, a: map<string, Value>, b: map<string, Value>)
    requires a.Keys == b.Keys
    requires forall name :: name in a ==> SourceValue(scope, Str(name)) == Done(a[name])
    requires forall name :: name in b ==> SourceValue(scope, Str(name)) == Done(b[name])
    ensures a == b
  {
    hide SourceValue;
    forall name | name in a ensures a[name] == b[name] {
      assert Done(a[name]) == Done(b[name]);
    }
  }

  lemma OnlyNamesRead(scope: Scope, sources: seq<Value>)
    requires AllRead(scope, sources)
    ensures forall i :: 0 <= i < |sources| ==> sources[i].Str?
  {
    hide Lookup;
  }

  // ------------------------------------------------------------------- cast

  /** With `on_error: null`, a cast fails exactly when the conversion runs out of
      range: that error is not among those `on_error` covers. */
  lemma {:induction false} CastToNull(rt: Runtime, v: Value, to: Value)
    ensures Cast(rt, v, to, Str("null")).Failed? <==>
            && !v.Null? && !(v.Str? && rt.Blank(v.s)) && Numeric(v)
            && ((to == Str("integer") && rt.toInt(v).Overflowed?) || (to == Str("float") && rt.toFloat(v).Overflowed?))
  {
    Targets();
    hide TrueText, FalseText;
  }

  lemma Targets()
    ensures Str("string") != Str("integer") && Str("string") != Str("float") && Str("integer") != Str("float")
  {
    assert "string"[0] != "integer"[0] && "string"[0] != "float"[0] && "integer"[0] != "float"[0];
  }

  /** It does fail: an infinite float, of which `int` raises OverflowError. */
  lemma {:induction false} InfiniteIsNotCast(rt: Runtime)
    requires rt.toInt(Float(Infinite(false))).Overflowed?
    ensures Cast(rt, Float(Infinite(false)), Str("integer"), Str("null")).Failed?
  {
    CastToNull(rt, Float(Infinite(false)), Str("integer"));
  }

  /** A cast that succeeds gives a value of the type it names, or Null. */
  lemma {:induction false} CastTypes(rt: Runtime, v: Value, to: Value, onError: Value)
    requires Cast(rt, v, to, onError).Done? && !Cast(rt, v, to, onError).value.Null?
    ensures var r := Cast(rt, v, to, onError).value;
            && (to == Str("string") ==> r.Str?) && (to == Str("integer") ==> r.Int?)
            && (to == Str("float") ==> r.Float?) && (to == Str("boolean") ==> r.Bool?)
            && to in [Str("string"), Str("integer"), Str("float"), Str("boolean")]
  {
    hide TrueText, FalseText;
  }

  // -------------------------------------------------------------- map_values

  /** With an object for a table, `map_values` fails exactly on a value the table
      lacks when unknown ones are rejected; a value it has is always mapped. */
  lemma {:induction false} MapValuesExact(rt: Runtime, v: Value, op: Operator)
    requires Parameter(op, "table", Obj(map[])).Obj?
    ensures var table, key := Parameter(op, "table", Obj(map[])).fields, if v.Null? then "null" else rt.TextOf(v);
            && (key in table ==> MapValues(rt, v, op) == Done(table[key]))
            && (MapValues(rt, v, op).Failed? <==> key !in table && Parameter(op, "on_unknown", Str("passthrough")) == Str("reject"))
  {
    assert "null"[0] != "reject"[0] && "constant"[0] != "reject"[0];
  }

  // -------------------------------------------------------------------- trim

  lemma {:induction false} RightStripEnds(rt: Runtime, s: string)
    ensures var r := rt.RightStrip(s);
            && r <= s && (r != [] ==> !rt.isSpace(r[|r| - 1]))
            && forall i :: |r| <= i < |s| ==> rt.isSpace(s[i])
  {
    if s != [] && rt.isSpace(s[|s| - 1]) {
      RightStripEnds(rt, s[..|s| - 1]);
    }
  }

  lemma {:induction false} LeftStripEnds(rt: Runtime, s: string)
    ensures var r := rt.LeftStrip(s);
            && |r| <= |s| && s[|s| - |r|..] == r
            && forall i :: 0 <= i < |s| - |r| ==> rt.isSpace(s[i])
  {
    if s != [] && rt.isSpace(s[0]) {
      LeftStripEnds(rt, s[1..]);
    }
  }

  /** `trim` keeps a stretch of the text that neither starts nor ends with white
      space, and drops nothing but white space; trimming again changes nothing. */
  lemma {:induction false} StripExact(rt: Runtime, s: string)
    ensures var r := rt.Strip(s);
            && (exists from: nat, to: nat :: Stretch(rt, s, from, to, r))
            && (r != [] ==> !rt.isSpace(r[0]) && !rt.isSpace(r[|r| - 1]))
            && rt.Strip(r) == r
  {
    hide Runtime.LeftStrip, Runtime.RightStrip, Stretch;
    var left, r := rt.LeftStrip(s), rt.Strip(s);
    LeftStripEnds(rt, s);
    RightStripEnds(rt, left);
    StretchOf(rt, s, left, r);
    StripFixed(rt, r);
  }

  lemma StripFixed(rt: Runtime, r: string)
    requires r != [] ==> !rt.isSpace(r[0]) && !rt.isSpace(r[|r| - 1])
    ensures rt.LeftStrip(r) == r && rt.RightStrip(r) == r
  {
  }

  lemma StretchOf(rt: Runtime, s: string, left: string, r: string)
    requires |left| <= |s| && s[|s| - |left|..] == left && (forall i :: 0 <= i < |s| - |left| ==> rt.isSpace(s[i]))
    requires |r| <= |left| && left[..|r|] == r && (forall i :: |r| <= i < |left| ==> rt.isSpace(left[i]))
    ensures Stretch(rt, s, |s| - |left|, |s| - |left| + |r|, r)
  {
    var from := |s| - |left|;
    assert forall i :: from <= i < |s| ==> s[i] == left[i - from];
    assert forall i :: 0 <= i < |r| ==> r[i] == left[i];
    assert r == s[from..from + |r|];
  }

  predicate Stretch(rt: Runtime, s: string, from: nat, to: nat, r: string) {
    && from <= to <= |s| && r == s[from..to]
    && (forall i :: 0 <= i < from ==> rt.isSpace(s[i]))
    && forall i :: to <= i < |s| ==> rt.isSpace(s[i])
  }
}
