/**
 What the dashboard's totals promise: the points of a chart sum to the overview,
 and aggregating the two kinds of calls apart is what keeps a join from counting
 each call once per call of the other kind.
 */
module AggregateLaws {
  import opened Values
  import opened Aggregates

  // ------------------------------------------------------------------ sums

  lemma LastOf<T>(items: seq<T>, f: T -> Measures)
    requires items != []
    ensures Total(items, f) == Plus(Total(items[..|items| - 1], f), f(items[|items| - 1]))
  {
  }

  lemma {:induction false} SameTotal<T>(items: seq<T>, f: T -> Measures, g: T -> Measures)
    requires forall i :: 0 <= i < |items| ==> f(items[i]) == g(items[i])
    ensures Total(items, f) == Total(items, g)
  {
    hide Plus;
    if items != [] {
      SameTotal(items[..|items| - 1], f, g);
    }
  }

  lemma {:induction false} ZeroTotal<T>(items: seq<T>, f: T -> Measures)
    requires forall i :: 0 <= i < |items| ==> f(items[i]) == ZERO
    ensures Total(items, f) == ZERO
  {
    hide Plus;
    if items != [] {
      ZeroTotal(items[..|items| - 1], f);
      PlusLaws(ZERO, ZERO, ZERO);
    }
  }

  /** The sum of sums. */
  lemma {:induction false} PlusTotal<T>(items: seq<T>, f: T -> Measures, g: T -> Measures, both: T -> Measures)
    requires forall i :: 0 <= i < |items| ==> both(items[i]) == Plus(f(items[i]), g(items[i]))
    ensures Total(items, both) == Plus(Total(items, f), Total(items, g))
  {
    hide Plus;
    if items == [] {
      PlusLaws(ZERO, ZERO, ZERO);
    } else {
      var n := |items| - 1;
      PlusTotal(items[..n], f, g, both);
      Interchange(Total(items[..n], f), Total(items[..n], g), f(items[n]), g(items[n]));
    }
  }

  lemma Interchange(a: Measures, b: Measures, c: Measures, d: Measures)
    ensures Plus(Plus(a, b), Plus(c, d)) == Plus(Plus(a, c), Plus(b, d))
  {
  }

  function FixLeft<A, B>(g: (A, B) -> Measures, a: A): B -> Measures {
    (b: B) => g(a, b)
  }

  function FixRight<A, B>(g: (A, B) -> Measures, b: B): A -> Measures {
    (a: A) => g(a, b)
  }

  function RowSums<A, B>(g: (A, B) -> Measures, right: seq<B>): A -> Measures {
    (a: A) => Total(right, FixLeft(g, a))
  }

  function ColumnSums<A, B>(g: (A, B) -> Measures, left: seq<A>): B -> Measures {
    (b: B) => Total(left, FixRight(g, b))
  }

  /** Summing by rows or by columns is the same. */
  lemma {:induction false} Swap<A, B>(left: seq<A>, right: seq<B>, g: (A, B) -> Measures)
    ensures Total(left, RowSums(g, right)) == Total(right, ColumnSums(g, left))
  {
    hide Plus;
    if left == [] {
      ZeroTotal(right, ColumnSums(g, left));
    } else {
      var n := |left| - 1;
      Swap(left[..n], right, g);
      forall i | 0 <= i < |right| ensures
        ColumnSums(g, left)(right[i]) == Plus(ColumnSums(g, left[..n])(right[i]), FixLeft(g, left[n])(right[i]))
      {
        LastOf(left, FixRight(g, right[i]));
      }
      PlusTotal(right, ColumnSums(g, left[..n]), FixLeft(g, left[n]), ColumnSums(g, left));
      LastOf(left, RowSums(g, right));
    }
  }

  // ------------------------------------------------------- columns of a kind

  /** The columns about tool calls, and those about model calls. */
  function ToolPart(m: Measures): Measures {
    ZERO.(toolCalls := m.toolCalls, errors := m.errors, statusKnown := m.statusKnown)
  }

  function ModelPart(m: Measures): Measures {
    ZERO.(modelCalls := m.modelCalls, input := m.input, output := m.output, cacheRead := m.cacheRead,
          tokensPresent := m.tokensPresent, cachePresent := m.cachePresent)
  }

  lemma PartsAdd(a: Measures, b: Measures)
    ensures ToolPart(Plus(a, b)) == Plus(ToolPart(a), ToolPart(b)) && ModelPart(Plus(a, b)) == Plus(ModelPart(a), ModelPart(b))
    ensures ToolPart(ZERO) == ZERO && ModelPart(ZERO) == ZERO
  {
  }

  lemma {:induction false} PartTotal<T>(items: seq<T>, f: T -> Measures, tools: T -> Measures, models: T -> Measures)
    requires forall i :: 0 <= i < |items| ==> tools(items[i]) == ToolPart(f(items[i])) && models(items[i]) == ModelPart(f(items[i]))
    ensures ToolPart(Total(items, f)) == Total(items, tools) && ModelPart(Total(items, f)) == Total(items, models)
  {
    hide Plus, ToolPart, ModelPart;
    PartsAdd(ZERO, ZERO);
    if items != [] {
      var n := |items| - 1;
      PartTotal(items[..n], f, tools, models);
      PartsAdd(Total(items[..n], f), f(items[n]));
    }
  }

  function Nothing<T>(x: T): Measures { ZERO }

  lemma {:induction false} NothingTotal<T>(items: seq<T>)
    ensures Total(items, Nothing<T>) == ZERO
  {
    ZeroTotal(items, Nothing<T>);
  }

  lemma CallParts(m: ModelCallRow, t: ToolCallRow)
    ensures ToolPart(OfModelCall(m)) == ZERO && ModelPart(OfModelCall(m)) == OfModelCall(m)
    ensures ModelPart(OfToolCall(t)) == ZERO && ToolPart(OfToolCall(t)) == OfToolCall(t)
  {
  }

  lemma ModelChildren(w: Warehouse, id: nat)
    ensures ToolPart(ModelsOf(w, id)) == ZERO && ModelPart(ModelsOf(w, id)) == ModelsOf(w, id)
  {
    hide Plus, ToolPart, ModelPart, OfModelCall, OfToolCall;
    var child := ChildOf(ModelSession, OfModelCall, id);
    PartsAdd(ZERO, ZERO);
    forall i | 0 <= i < |w.models| ensures ToolPart(child(w.models[i])) == ZERO && ModelPart(child(w.models[i])) == child(w.models[i]) {
      CallParts(w.models[i], ToolCallRow(0, 0, ""));
    }
    PartTotal(w.models, child, Nothing, child);
    NothingTotal(w.models);
  }

  lemma ToolChildren(w: Warehouse, id: nat)
    ensures ModelPart(ToolsOf(w, id)) == ZERO && ToolPart(ToolsOf(w, id)) == ToolsOf(w, id)
  {
    hide Plus, ToolPart, ModelPart, OfModelCall, OfToolCall;
    var child := ChildOf(ToolSession, OfToolCall, id);
    PartsAdd(ZERO, ZERO);
    forall i | 0 <= i < |w.tools| ensures ModelPart(child(w.tools[i])) == ZERO && ToolPart(child(w.tools[i])) == child(w.tools[i]) {
      CallParts(ModelCallRow(0, None, None, None, None), w.tools[i]);
    }
    PartTotal(w.tools, child, child, Nothing);
    NothingTotal(w.tools);
  }

  lemma SessionParts(m: Measures)
    ensures ToolPart(Plus(ZERO.(sessions := 1), m)) == ToolPart(m) && ModelPart(Plus(ZERO.(sessions := 1), m)) == ModelPart(m)
  {
  }

  /** A session's row carries the aggregates of its own calls, kind by kind. */
  lemma {:induction false} MetricsParts(w: Warehouse, s: SessionRow)
    ensures ToolPart(SessionMetrics(w, s)) == ToolsOf(w, s.id) && ModelPart(SessionMetrics(w, s)) == ModelsOf(w, s.id)
  {
    hide Plus, ToolPart, ModelPart, ToolsOf, ModelsOf;
    ModelChildren(w, s.id);
    ToolChildren(w, s.id);
    SessionParts(Plus(ModelsOf(w, s.id), ToolsOf(w, s.id)));
    PartsAdd(ModelsOf(w, s.id), ToolsOf(w, s.id));
    PlusLaws(ToolsOf(w, s.id), ZERO, ZERO);
    PlusLaws(ModelsOf(w, s.id), ZERO, ZERO);
  }

  // ------------------------------------------------------------------- joins

  /** What the pair of a call and a session adds to a query. */
  function Pair<C>(w: Warehouse, f: Filters, session: C -> nat, of: C -> Measures): (C, SessionRow) -> Measures {
    (c: C, s: SessionRow) => if s.id == session(c) && Selected(w, f, s) then of(c) else ZERO
  }

  lemma {:induction false} JoinedTotal<C, K>(w: Warehouse, f: Filters, call: C, sessions: seq<SessionRow>, session: C -> nat,
                                             of: C -> Measures, row: (C, SessionRow) -> Point<K>)
    requires forall s :: row(call, s).measures == of(call)
    ensures Columns(Joined(w, f, call, session(call), sessions, row)) == Total(sessions, FixLeft(Pair(w, f, session, of), call))
  {
    hide Plus, Selected;
    if sessions != [] {
      var n := |sessions| - 1;
      JoinedTotal(w, f, call, sessions[..n], session, of, row);
      var before := Joined(w, f, call, session(call), sessions[..n], row);
      LastOf(sessions, FixLeft(Pair(w, f, session, of), call));
      if sessions[n].id == session(call) && Selected(w, f, sessions[n]) {
        TotalConcat(before, [row(call, sessions[n])], MeasuresOf<K>);
        TotalOne(row(call, sessions[n]), MeasuresOf<K>);
      } else {
        assert before + [] == before;
        PlusLaws(Columns(before), ZERO, ZERO);
      }
    }
  }

  lemma {:induction false} CallRowsTotal<C, K>(w: Warehouse, f: Filters, calls: seq<C>, keep: C -> bool, session: C -> nat,
                                               of: C -> Measures, row: (C, SessionRow) -> Point<K>)
    requires forall c, s :: row(c, s).measures == of(c)
    requires forall c :: keep(c)
    ensures Columns(CallRows(w, f, calls, keep, session, row)) == Total(calls, RowSums(Pair(w, f, session, of), w.sessions))
  {
    hide Plus, Pair;
    if calls != [] {
      var n := |calls| - 1;
      CallRowsTotal(w, f, calls[..n], keep, session, of, row);
      JoinedTotal(w, f, calls[n], w.sessions, session, of, row);
      TotalConcat(CallRows(w, f, calls[..n], keep, session, row), Joined(w, f, calls[n], session(calls[n]), w.sessions, row), MeasuresOf<K>);
      LastOf(calls, RowSums(Pair(w, f, session, of), w.sessions));
    }
  }

  /** The calls of a session, as a measure of the session. */
  function CallsOf<C>(calls: seq<C>, session: C -> nat, of: C -> Measures): SessionRow -> Measures {
    (s: SessionRow) => ChildrenOf(calls, session, of, s.id)
  }

  /** The calls of the selected sessions, summed session by session. */
  lemma {:induction false} BySession<C>(w: Warehouse, f: Filters, calls: seq<C>, session: C -> nat, of: C -> Measures)
    ensures Total(calls, RowSums(Pair(w, f, session, of), w.sessions)) == Total(w.sessions, IfSelected(w, f, CallsOf(calls, session, of)))
  {
    hide Selected, Plus;
    var g := Pair(w, f, session, of);
    Swap(calls, w.sessions, g);
    forall i | 0 <= i < |w.sessions| ensures ColumnSums(g, calls)(w.sessions[i]) == IfSelected(w, f, CallsOf(calls, session, of))(w.sessions[i]) {
      var s := w.sessions[i];
      if Selected(w, f, s) {
        SameTotal(calls, FixRight(g, s), ChildOf(session, of, s.id));
      } else {
        ZeroTotal(calls, FixRight(g, s));
      }
    }
    SameTotal(w.sessions, ColumnSums(g, calls), IfSelected(w, f, CallsOf(calls, session, of)));
  }

  lemma {:induction false} OverviewParts(w: Warehouse, f: Filters)
    ensures ToolPart(Overview(w, f)) == Total(w.sessions, IfSelected(w, f, CallsOf(w.tools, ToolSession, OfToolCall)))
    ensures ModelPart(Overview(w, f)) == Total(w.sessions, IfSelected(w, f, CallsOf(w.models, ModelSession, OfModelCall)))
  {
    hide Selected, SessionMetrics, ToolPart, ModelPart, ChildrenOf, Plus;
    var tools := IfSelected(w, f, CallsOf(w.tools, ToolSession, OfToolCall));
    var models := IfSelected(w, f, CallsOf(w.models, ModelSession, OfModelCall));
    PartsAdd(ZERO, ZERO);
    forall i | 0 <= i < |w.sessions| ensures
      && tools(w.sessions[i]) == ToolPart(IfSelected(w, f, MetricsOf(w))(w.sessions[i]))
      && models(w.sessions[i]) == ModelPart(IfSelected(w, f, MetricsOf(w))(w.sessions[i]))
    {
      MetricsParts(w, w.sessions[i]);
    }
    PartTotal(w.sessions, IfSelected(w, f, MetricsOf(w)), tools, models);
  }

  /** Without a tool filter, the points of `tool_usage` sum to the overview's
      tool calls, errors and known statuses; no tool and source has two. */
  lemma {:induction false} ToolUsageSums(w: Warehouse, f: Filters)
    requires f.tool.None?
    ensures Columns(ToolUsage(w, f)) == ToolPart(Overview(w, f)) && DistinctKeys(ToolUsage(w, f))
  {
    hide Selected, Plus, ToolPart, OfToolCall, Overview;
    var keep := (c: ToolCallRow) => f.tool.Some? ==> c.tool == f.tool.value;
    var rows := CallRows(w, f, w.tools, keep, ToolSession, ToolPoint);
    GroupingConserves(rows);
    GroupsAreExact(rows, (0, 0));
    CallRowsTotal(w, f, w.tools, keep, ToolSession, OfToolCall, ToolPoint);
    BySession(w, f, w.tools, ToolSession, OfToolCall);
    OverviewParts(w, f);
  }

  /** Without a model filter, the points of `model_usage` sum to the overview's
      model calls and nullable token totals, unresolved models included. */
  lemma {:induction false} ModelUsageSums(w: Warehouse, f: Filters)
    requires f.model.None?
    ensures Columns(ModelUsage(w, f)) == ModelPart(Overview(w, f)) && DistinctKeys(ModelUsage(w, f))
  {
    hide Selected, Plus, ModelPart, OfModelCall, Overview;
    var keep := (c: ModelCallRow) => f.model.Some? ==> c.model == f.model;
    var rows := CallRows(w, f, w.models, keep, ModelSession, ModelPoint);
    GroupingConserves(rows);
    GroupsAreExact(rows, (None, 0));
    CallRowsTotal(w, f, w.models, keep, ModelSession, OfModelCall, ModelPoint);
    BySession(w, f, w.models, ModelSession, OfModelCall);
    OverviewParts(w, f);
  }

  // ---------------------------------------------------------------- activity

  lemma {:induction false} DatedTotal(w: Warehouse, f: Filters, day: int -> int, sessions: seq<SessionRow>)
    ensures Columns(DatedRows(w, f, day, sessions)) == Total(sessions, IfSelected(w, f, Started(w, true)))
  {
    hide Plus, Selected, SessionMetrics;
    if sessions != [] {
      var n := |sessions| - 1;
      DatedTotal(w, f, day, sessions[..n]);
      var before := DatedRows(w, f, day, sessions[..n]);
      LastOf(sessions, IfSelected(w, f, Started(w, true)));
      if Selected(w, f, sessions[n]) && sessions[n].startedAt.Some? {
        var point := Point((day(sessions[n].startedAt.value), sessions[n].source), SessionMetrics(w, sessions[n]));
        TotalConcat(before, [point], MeasuresOf<(int, nat)>);
        TotalOne(point, MeasuresOf<(int, nat)>);
      } else {
        assert before + [] == before;
        PlusLaws(Columns(before), ZERO, ZERO);
      }
    }
  }

  /** The points of `activity` and the undated sessions sum to the overview, in
      every column, however instants are put into days. */
  lemma {:induction false} ActivitySums(w: Warehouse, f: Filters, day: int -> int)
    ensures Plus(Columns(Activity(w, f, day)), Undated(w, f)) == Overview(w, f) && DistinctKeys(Activity(w, f, day))
  {
    hide Selected, SessionMetrics, Plus;
    GroupingConserves(DatedRows(w, f, day, w.sessions));
    GroupsAreExact(DatedRows(w, f, day, w.sessions), (0, 0));
    DatedTotal(w, f, day, w.sessions);
    forall s ensures IfSelected(w, f, MetricsOf(w))(s)
                  == Plus(IfSelected(w, f, Started(w, true))(s), IfSelected(w, f, Started(w, false))(s)) {
      PlusLaws(SessionMetrics(w, s), ZERO, ZERO);
      PlusLaws(ZERO, ZERO, ZERO);
    }
    PlusTotal(w.sessions, IfSelected(w, f, Started(w, true)), IfSelected(w, f, Started(w, false)), IfSelected(w, f, MetricsOf(w)));
  }

  // ----------------------------------------------------------- the fan-out

  /** A measure counted `n` times. */
  function Times(n: nat, m: Measures): Measures {
    if n == 0 then ZERO else Plus(Times(n - 1, m), m)
  }

  function NullableTimes(n: nat, x: Option<int>): Option<int> {
    if x.None? || n == 0 then None else Some(n * x.value)
  }

  lemma {:induction false} TimesModels(n: nat, m: Measures)
    requires m.toolCalls == 0
    ensures Times(n, m).input == NullableTimes(n, m.input) && Times(n, m).tokensPresent == n * m.tokensPresent && Times(n, m).toolCalls == 0
  {
    if n > 0 {
      TimesModels(n - 1, m);
      assert n * m.tokensPresent == (n - 1) * m.tokensPresent + m.tokensPresent;
      if m.input.Some? {
        assert n * m.input.value == (n - 1) * m.input.value + m.input.value;
      }
    }
  }

  lemma {:induction false} TimesTools(n: nat, m: Measures)
    requires m.input.None? && m.tokensPresent == 0
    ensures Times(n, m).input.None? && Times(n, m).tokensPresent == 0 && Times(n, m).toolCalls == n * m.toolCalls
  {
    if n > 0 {
      TimesTools(n - 1, m);
      assert n * m.toolCalls == (n - 1) * m.toolCalls + m.toolCalls;
    }
  }

  /** A LEFT JOIN gives a session without children one row of NULLs. */
  function OrNull<C>(calls: seq<C>): seq<Option<C>> {
    if calls == [] then [None] else seq(|calls|, i requires 0 <= i < |calls| => Some(calls[i]))
  }

  function OrZero<C>(of: C -> Measures): Option<C> -> Measures {
    (call: Option<C>) => if call.Some? then of(call.value) else ZERO
  }

  /** What one row of the double join adds. */
  function BothOf(m: Option<ModelCallRow>, t: Option<ToolCallRow>): Measures {
    Plus(OrZero(OfModelCall)(m), OrZero(OfToolCall)(t))
  }

  /** The sums of one session joined with both kinds of calls at once. */
  function Naive(models: seq<ModelCallRow>, tools: seq<ToolCallRow>): Measures {
    Total(OrNull(models), RowSums(BothOf, OrNull(tools)))
  }

  lemma {:induction false} OrNullTotal<C>(calls: seq<C>, of: C -> Measures)
    ensures Total(OrNull(calls), OrZero(of)) == Total(calls, of)
  {
    hide Plus;
    if calls == [] {
      TotalOne<Option<C>>(None, OrZero(of));
    } else {
      var n := |calls| - 1;
      LastOf(OrNull(calls), OrZero(of));
      if n == 0 {
        assert OrNull(calls)[..0] == [] && calls[..0] == [];
      } else {
        OrNullTotal(calls[..n], of);
        assert OrNull(calls)[..n] == OrNull(calls[..n]);
      }
    }
  }

  lemma {:induction false} ConstantTotal<C>(calls: seq<C>, f: C -> Measures, m: Measures)
    requires forall i :: 0 <= i < |calls| ==> f(calls[i]) == m
    ensures Total(calls, f) == Times(|calls|, m)
  {
    hide Plus;
    if calls != [] {
      ConstantTotal(calls[..|calls| - 1], f, m);
    }
  }

  lemma {:induction false} TimesTotal<C>(calls: seq<C>, f: C -> Measures, n: nat, times: C -> Measures)
    requires forall i :: 0 <= i < |calls| ==> times(calls[i]) == Times(n, f(calls[i]))
    ensures Total(calls, times) == Times(n, Total(calls, f))
  {
    hide Plus;
    if calls == [] {
      TimesZero(n);
    } else {
      var k := |calls| - 1;
      TimesTotal(calls[..k], f, n, times);
      TimesPlus(n, Total(calls[..k], f), f(calls[k]));
    }
  }

  lemma {:induction false} TimesZero(n: nat)
    ensures Times(n, ZERO) == ZERO
  {
    hide Plus;
    if n > 0 {
      TimesZero(n - 1);
      PlusLaws(ZERO, ZERO, ZERO);
    }
  }

  lemma {:induction false} TimesPlus(n: nat, a: Measures, b: Measures)
    ensures Times(n, Plus(a, b)) == Plus(Times(n, a), Times(n, b))
  {
    hide Plus;
    if n == 0 {
      PlusLaws(ZERO, ZERO, ZERO);
    } else {
      TimesPlus(n - 1, a, b);
      Interchange(Times(n - 1, a), Times(n - 1, b), a, b);
    }
  }

  /** The rows of one model call: itself once per tool row, and the tool rows. */
  lemma RowOfModel(m: Option<ModelCallRow>, ts: seq<Option<ToolCallRow>>)
    ensures RowSums(BothOf, ts)(m) == Plus(Times(|ts|, OrZero(OfModelCall)(m)), Total(ts, OrZero(OfToolCall)))
  {
    hide Plus, OfModelCall, OfToolCall, Times;
    var fixed := (t: Option<ToolCallRow>) => OrZero(OfModelCall)(m);
    ConstantTotal(ts, fixed, OrZero(OfModelCall)(m));
    PlusTotal(ts, fixed, OrZero(OfToolCall), FixLeft(BothOf, m));
  }

  /** Joining both kinds of calls at once counts each model call once per tool
      call, and each tool call once per model call. */
  lemma {:induction false} FanOut(models: seq<ModelCallRow>, tools: seq<ToolCallRow>)
    ensures Naive(models, tools)
         == Plus(Times(|OrNull(tools)|, Total(models, OfModelCall)), Times(|OrNull(models)|, Total(tools, OfToolCall)))
  {
    hide Plus, OrNull, OfModelCall, OfToolCall, Times, BothOf;
    var ms, ts := OrNull(models), OrNull(tools);
    var scaled := (m: Option<ModelCallRow>) => Times(|ts|, OrZero(OfModelCall)(m));
    var fixed := (m: Option<ModelCallRow>) => Total(ts, OrZero(OfToolCall));
    forall i | 0 <= i < |ms| ensures RowSums(BothOf, ts)(ms[i]) == Plus(scaled(ms[i]), fixed(ms[i])) {
      RowOfModel(ms[i], ts);
    }
    PlusTotal(ms, scaled, fixed, RowSums(BothOf, ts));
    TimesTotal(ms, OrZero(OfModelCall), |ts|, scaled);
    ConstantTotal(ms, fixed, Total(ts, OrZero(OfToolCall)));
    OrNullTotal(models, OfModelCall);
    OrNullTotal(tools, OfToolCall);
  }

  /** So the naive token sum of a session is its own times its tool calls, and
      the naive count of tool calls is its own times its model calls. */
  lemma {:induction false} NaiveTokens(models: seq<ModelCallRow>, tools: seq<ToolCallRow>)
    requires models != [] && tools != []
    ensures Naive(models, tools).input == NullableTimes(|tools|, Total(models, OfModelCall).input)
    ensures Naive(models, tools).tokensPresent == |tools| * Total(models, OfModelCall).tokensPresent
    ensures Naive(models, tools).toolCalls == |models| * |tools|
  {
    OrNullSize(models);
    OrNullSize(tools);
    hide *;
    var a, b := Total(models, OfModelCall), Total(tools, OfToolCall);
    FanOut(models, tools);
    Kinds(models, tools);
    TimesModels(|tools|, a);
    TimesTools(|models|, b);
    ModelsThenTools(Times(|tools|, a), Times(|models|, b));
  }

  lemma ModelsThenTools(a: Measures, b: Measures)
    requires a.toolCalls == 0 && b.input.None? && b.tokensPresent == 0
    ensures Plus(a, b).input == a.input && Plus(a, b).tokensPresent == a.tokensPresent && Plus(a, b).toolCalls == b.toolCalls
  {
  }

  lemma OrNullSize<C>(calls: seq<C>)
    requires calls != []
    ensures |OrNull(calls)| == |calls|
  {
  }

  lemma {:induction false} Kinds(models: seq<ModelCallRow>, tools: seq<ToolCallRow>)
    ensures Total(tools, OfToolCall).input == None && Total(tools, OfToolCall).tokensPresent == 0 && Total(tools, OfToolCall).toolCalls == |tools|
    ensures Total(models, OfModelCall).toolCalls == 0
    decreases |models| + |tools|
  {
    if tools != [] {
      Kinds([], tools[..|tools| - 1]);
    }
    if models != [] {
      Kinds(models[..|models| - 1], []);
    }
  }
}
