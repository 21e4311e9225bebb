/**
 What the numbers of the dashboard count: every column of the overview, of a
 session's row and of a chart's point, as a number of calls or sessions or as a
 sum over them.
 */
module AggregateMeanings {
  import opened Values
  import opened Aggregates
  import opened AggregateLaws

  // --------------------------------------------------------- counts and sums

  /** How many items meet `p`. */
  function Counted<T>(items: seq<T>, p: T -> bool): nat {
    |set i: nat | i < |items| && p(items[i])|
  }

  /** The sum of the known values. */
  function Sum<T>(items: seq<T>, value: T -> Option<int>): int {
    if items == [] then 0 else Sum(items[..|items| - 1], value) + value(items[|items| - 1]).GetOr(0)
  }

  /** A nullable sum: unknown when every value is, and otherwise their sum. */
  ghost predicate SumIs<T>(total: Option<int>, items: seq<T>, value: T -> Option<int>) {
    && (total.None? <==> forall i :: 0 <= i < |items| ==> value(items[i]).None?)
    && (total.Some? ==> total.value == Sum(items, value))
  }

  /** The tool columns are about the calls that meet `p`. */
  ghost predicate ToolColumns(m: Measures, calls: seq<ToolCallRow>, p: ToolCallRow -> bool) {
    && m.toolCalls == Counted(calls, p)
    && m.errors == Counted(calls, (c: ToolCallRow) => p(c) && c.status == "error")
    && m.statusKnown == Counted(calls, (c: ToolCallRow) => p(c) && (c.status == "ok" || c.status == "error"))
  }

  /** The model columns are about the calls that meet `p`. */
  ghost predicate ModelColumns(m: Measures, calls: seq<ModelCallRow>, p: ModelCallRow -> bool) {
    && m.modelCalls == Counted(calls, p)
    && m.tokensPresent == Counted(calls, (c: ModelCallRow) => p(c) && c.input.Some?)
    && m.cachePresent == Counted(calls, (c: ModelCallRow) => p(c) && c.cacheRead.Some?)
    && SumIs(m.input, calls, (c: ModelCallRow) => if p(c) then c.input else None)
    && SumIs(m.output, calls, (c: ModelCallRow) => if p(c) then c.output else None)
    && SumIs(m.cacheRead, calls, (c: ModelCallRow) => if p(c) then c.cacheRead else None)
  }

  lemma CountedStep<T>(items: seq<T>, p: T -> bool)
    requires items != []
    ensures Counted(items, p) == Counted(items[..|items| - 1], p) + if p(items[|items| - 1]) then 1 else 0
  {
    var n := |items| - 1;
    var all := set i: nat | i < |items| && p(items[i]);
    var before := set i: nat | i < |items[..n]| && p(items[..n][i]);
    assert all == if p(items[n]) then before + {n} else before;
  }

  lemma CountedNone<T>(p: T -> bool)
    ensures Counted([], p) == 0
  {
    var none: seq<T> := [];
    assert (set i: nat | i < |none| && p(none[i])) == {};
  }

  lemma SumStep<T>(total: Option<int>, items: seq<T>, value: T -> Option<int>)
    requires items != [] && SumIs(total, items[..|items| - 1], value)
    ensures SumIs(Add(total, value(items[|items| - 1])), items, value)
  {
    var n := |items| - 1;
    if total.None? {
      NoneKnown(items[..n], value);
    }
    forall i | 0 <= i < n ensures items[..n][i] == items[i] {
    }
  }

  lemma {:induction false} NoneKnown<T>(items: seq<T>, value: T -> Option<int>)
    requires forall i :: 0 <= i < |items| ==> value(items[i]).None?
    ensures Sum(items, value) == 0
  {
    if items != [] {
      NoneKnown(items[..|items| - 1], value);
    }
  }

  function Chosen<C>(p: C -> bool, of: C -> Measures): C -> Measures {
    (c: C) => if p(c) then of(c) else ZERO
  }

  /** The sum over the calls that meet `p` counts just them. */
  lemma {:induction false} ToolsCounted(calls: seq<ToolCallRow>, p: ToolCallRow -> bool)
    ensures ToolColumns(Total(calls, Chosen(p, OfToolCall)), calls, p)
  {
    var errors := (c: ToolCallRow) => p(c) && c.status == "error";
    var known := (c: ToolCallRow) => p(c) && (c.status == "ok" || c.status == "error");
    hide Counted;
    if calls == [] {
      CountedNone(p);
      CountedNone(errors);
      CountedNone(known);
    } else {
      ToolsCounted(calls[..|calls| - 1], p);
      CountedStep(calls, p);
      CountedStep(calls, errors);
      CountedStep(calls, known);
    }
  }

  lemma ModelCounts(before: Measures, calls: seq<ModelCallRow>, p: ModelCallRow -> bool)
    requires calls != [] && ModelColumns(before, calls[..|calls| - 1], p)
    ensures var after := Plus(before, Chosen(p, OfModelCall)(calls[|calls| - 1]));
            && after.modelCalls == Counted(calls, p)
            && after.tokensPresent == Counted(calls, (c: ModelCallRow) => p(c) && c.input.Some?)
            && after.cachePresent == Counted(calls, (c: ModelCallRow) => p(c) && c.cacheRead.Some?)
  {
    hide Counted, SumIs;
    CountedStep(calls, p);
    CountedStep(calls, (c: ModelCallRow) => p(c) && c.input.Some?);
    CountedStep(calls, (c: ModelCallRow) => p(c) && c.cacheRead.Some?);
  }

  lemma ModelSums(before: Measures, calls: seq<ModelCallRow>, p: ModelCallRow -> bool)
    requires calls != [] && ModelColumns(before, calls[..|calls| - 1], p)
    ensures var after := Plus(before, Chosen(p, OfModelCall)(calls[|calls| - 1]));
            && SumIs(after.input, calls, (c: ModelCallRow) => if p(c) then c.input else None)
            && SumIs(after.output, calls, (c: ModelCallRow) => if p(c) then c.output else None)
            && SumIs(after.cacheRead, calls, (c: ModelCallRow) => if p(c) then c.cacheRead else None)
  {
    hide Counted, SumIs;
    SumStep(before.input, calls, (c: ModelCallRow) => if p(c) then c.input else None);
    SumStep(before.output, calls, (c: ModelCallRow) => if p(c) then c.output else None);
    SumStep(before.cacheRead, calls, (c: ModelCallRow) => if p(c) then c.cacheRead else None);
  }

  lemma NoModels(p: ModelCallRow -> bool)
    ensures ModelColumns(ZERO, [], p)
  {
    CountedNone(p);
    CountedNone((c: ModelCallRow) => p(c) && c.input.Some?);
    CountedNone((c: ModelCallRow) => p(c) && c.cacheRead.Some?);
    hide Counted;
  }

  lemma {:induction false} ModelsCounted(calls: seq<ModelCallRow>, p: ModelCallRow -> bool)
    ensures ModelColumns(Total(calls, Chosen(p, OfModelCall)), calls, p)
  {
    hide Counted, SumIs, Plus, OfModelCall, Chosen;
    if calls == [] {
      NoModels(p);
    } else {
      var before := Total(calls[..|calls| - 1], Chosen(p, OfModelCall));
      ModelsCounted(calls[..|calls| - 1], p);
      ModelCounts(before, calls, p);
      ModelSums(before, calls, p);
    }
  }

  // ------------------------------------------------------------ one session

  function OwnedBy(id: nat): ToolCallRow -> bool {
    (c: ToolCallRow) => c.session == id
  }

  function CalledBy(id: nat): ModelCallRow -> bool {
    (c: ModelCallRow) => c.session == id
  }

  lemma OwnChildren(w: Warehouse, id: nat)
    ensures ToolsOf(w, id) == Total(w.tools, Chosen(OwnedBy(id), OfToolCall))
    ensures ModelsOf(w, id) == Total(w.models, Chosen(CalledBy(id), OfModelCall))
  {
    hide OfToolCall, OfModelCall, Total;
    var tools, models := ChildOf(ToolSession, OfToolCall, id), ChildOf(ModelSession, OfModelCall, id);
    forall i | 0 <= i < |w.tools| ensures tools(w.tools[i]) == Chosen(OwnedBy(id), OfToolCall)(w.tools[i]) {
      assert ToolSession(w.tools[i]) == w.tools[i].session;
    }
    forall i | 0 <= i < |w.models| ensures models(w.models[i]) == Chosen(CalledBy(id), OfModelCall)(w.models[i]) {
      assert ModelSession(w.models[i]) == w.models[i].session;
    }
    SameTotal(w.tools, tools, Chosen(OwnedBy(id), OfToolCall));
    SameTotal(w.models, models, Chosen(CalledBy(id), OfModelCall));
  }

  lemma SameColumns(m: Measures, w: Warehouse, p: ToolCallRow -> bool, q: ModelCallRow -> bool)
    requires ToolColumns(ToolPart(m), w.tools, p) && ModelColumns(ModelPart(m), w.models, q)
    ensures ToolColumns(m, w.tools, p) && ModelColumns(m, w.models, q)
  {
    hide Counted, SumIs;
  }

  /** A row of `v_session_metrics` is one session and counts its own calls:
      all of them, those in error, those with a known status or known tokens. */
  lemma SessionMeans(w: Warehouse, s: SessionRow)
    ensures SessionMetrics(w, s).sessions == 1
    ensures ToolColumns(SessionMetrics(w, s), w.tools, OwnedBy(s.id))
    ensures ModelColumns(SessionMetrics(w, s), w.models, CalledBy(s.id))
  {
    OneSession(w, s);
    hide ToolColumns, ModelColumns, SessionMetrics, ToolsOf, ModelsOf, Total, OfToolCall, OfModelCall;
    OwnChildren(w, s.id);
    ToolsCounted(w.tools, OwnedBy(s.id));
    ModelsCounted(w.models, CalledBy(s.id));
    MetricsParts(w, s);
    SameColumns(SessionMetrics(w, s), w, OwnedBy(s.id), CalledBy(s.id));
  }

  lemma {:induction false} CallsAlone<C>(calls: seq<C>, of: C -> Measures)
    requires forall i :: 0 <= i < |calls| ==> of(calls[i]).sessions == 0
    ensures Total(calls, of).sessions == 0
  {
    if calls != [] {
      CallsAlone(calls[..|calls| - 1], of);
    }
  }

  lemma OneSession(w: Warehouse, s: SessionRow)
    ensures SessionMetrics(w, s).sessions == 1
  {
    var tools, models := ChildOf(ToolSession, OfToolCall, s.id), ChildOf(ModelSession, OfModelCall, s.id);
    hide Total;
    forall i | 0 <= i < |w.tools| ensures tools(w.tools[i]).sessions == 0 {
      assert OfToolCall(w.tools[i]).sessions == 0;
    }
    forall i | 0 <= i < |w.models| ensures models(w.models[i]).sessions == 0 {
      assert OfModelCall(w.models[i]).sessions == 0;
    }
    CallsAlone(w.tools, tools);
    CallsAlone(w.models, models);
  }

  // ----------------------------------------------------- a choice of sessions

  /** Session ids are a primary key. */
  ghost predicate DistinctIds(w: Warehouse) {
    forall i, j :: 0 <= i < j < |w.sessions| ==> w.sessions[i].id != w.sessions[j].id
  }

  /** The session `id` is one of those chosen. */
  ghost predicate InScope(sessions: seq<SessionRow>, scope: SessionRow -> bool, id: nat) {
    exists j :: 0 <= j < |sessions| && sessions[j].id == id && scope(sessions[j])
  }

  ghost function CallsIn<C>(w: Warehouse, scope: SessionRow -> bool, session: C -> nat): C -> bool {
    (c: C) => InScope(w.sessions, scope, session(c))
  }

  /** What the sessions of a choice add up to. */
  function ScopeTotal(w: Warehouse, scope: SessionRow -> bool): Measures {
    Total(w.sessions, Chosen(scope, MetricsOf(w)))
  }

  function Cross<C>(scope: SessionRow -> bool, session: C -> nat, of: C -> Measures): (C, SessionRow) -> Measures {
    (c: C, s: SessionRow) => if s.id == session(c) && scope(s) then of(c) else ZERO
  }

  /** A call has at most one session. */
  lemma {:induction false} OneOwner<C>(sessions: seq<SessionRow>, scope: SessionRow -> bool, session: C -> nat, of: C -> Measures, c: C)
    requires forall i, j :: 0 <= i < j < |sessions| ==> sessions[i].id != sessions[j].id
    ensures Total(sessions, FixLeft(Cross(scope, session, of), c)) == if InScope(sessions, scope, session(c)) then of(c) else ZERO
  {
    hide Plus;
    if sessions == [] {
    } else {
      var n := |sessions| - 1;
      OneOwner(sessions[..n], scope, session, of, c);
      ScopeStep(sessions, scope, session(c));
      PlusLaws(of(c), ZERO, ZERO);
      PlusLaws(ZERO, ZERO, ZERO);
    }
  }

  lemma ScopeStep(sessions: seq<SessionRow>, scope: SessionRow -> bool, id: nat)
    requires sessions != []
    requires forall i, j :: 0 <= i < j < |sessions| ==> sessions[i].id != sessions[j].id
    ensures var n := |sessions| - 1; var last := sessions[n].id == id && scope(sessions[n]);
            && (InScope(sessions, scope, id) <==> last || InScope(sessions[..n], scope, id))
            && (last ==> !InScope(sessions[..n], scope, id))
  {
    var n := |sessions| - 1;
    if InScope(sessions, scope, id) {
      var j :| 0 <= j < |sessions| && sessions[j].id == id && scope(sessions[j]);
      if j < n {
        assert sessions[..n][j] == sessions[j];
      }
    }
    if InScope(sessions[..n], scope, id) {
      var j :| 0 <= j < |sessions[..n]| && sessions[..n][j].id == id && scope(sessions[..n][j]);
      assert sessions[j].id == id;
    }
  }

  /** The calls of the chosen sessions, added session by session or call by call. */
  lemma ByCall<C>(w: Warehouse, scope: SessionRow -> bool, calls: seq<C>, session: C -> nat, of: C -> Measures, sums: SessionRow -> Measures)
    requires DistinctIds(w)
    requires forall s :: sums(s) == if scope(s) then ChildrenOf(calls, session, of, s.id) else ZERO
    ensures Total(w.sessions, sums) == Total(calls, Chosen(CallsIn(w, scope, session), of))
  {
    hide Plus, Total, InScope;
    var g := Cross(scope, session, of);
    Swap(calls, w.sessions, g);
    forall i | 0 <= i < |w.sessions| ensures ColumnSums(g, calls)(w.sessions[i]) == sums(w.sessions[i]) {
      var s := w.sessions[i];
      if scope(s) {
        SameTotal(calls, FixRight(g, s), ChildOf(session, of, s.id));
      } else {
        ZeroTotal(calls, FixRight(g, s));
      }
    }
    SameTotal(w.sessions, ColumnSums(g, calls), sums);
    forall i | 0 <= i < |calls| ensures RowSums(g, w.sessions)(calls[i]) == Chosen(CallsIn(w, scope, session), of)(calls[i]) {
      OneOwner(w.sessions, scope, session, of, calls[i]);
    }
    SameTotal(calls, RowSums(g, w.sessions), Chosen(CallsIn(w, scope, session), of));
  }

  lemma {:induction false} SessionsCounted(w: Warehouse, scope: SessionRow -> bool, sessions: seq<SessionRow>)
    ensures Total(sessions, Chosen(scope, MetricsOf(w))).sessions == Counted(sessions, scope)
  {
    hide Counted, SessionMetrics;
    if sessions == [] {
      CountedNone(scope);
    } else {
      SessionsCounted(w, scope, sessions[..|sessions| - 1]);
      CountedStep(sessions, scope);
      OneSession(w, sessions[|sessions| - 1]);
    }
  }

  function ChosenTools(w: Warehouse, scope: SessionRow -> bool): SessionRow -> Measures {
    (s: SessionRow) => if scope(s) then ChildrenOf(w.tools, ToolSession, OfToolCall, s.id) else ZERO
  }

  function ChosenModels(w: Warehouse, scope: SessionRow -> bool): SessionRow -> Measures {
    (s: SessionRow) => if scope(s) then ChildrenOf(w.models, ModelSession, OfModelCall, s.id) else ZERO
  }

  lemma ScopeParts(w: Warehouse, scope: SessionRow -> bool)
    ensures ToolPart(ScopeTotal(w, scope)) == Total(w.sessions, ChosenTools(w, scope))
    ensures ModelPart(ScopeTotal(w, scope)) == Total(w.sessions, ChosenModels(w, scope))
  {
    hide SessionMetrics, ToolPart, ModelPart, ChildrenOf, Plus, Total;
    PartsAdd(ZERO, ZERO);
    forall i | 0 <= i < |w.sessions| ensures
      && ChosenTools(w, scope)(w.sessions[i]) == ToolPart(Chosen(scope, MetricsOf(w))(w.sessions[i]))
      && ChosenModels(w, scope)(w.sessions[i]) == ModelPart(Chosen(scope, MetricsOf(w))(w.sessions[i]))
    {
      MetricsParts(w, w.sessions[i]);
    }
    PartTotal(w.sessions, Chosen(scope, MetricsOf(w)), ChosenTools(w, scope), ChosenModels(w, scope));
  }

  /** The columns of a choice of sessions: how many they are, and their calls. */
  ghost predicate ScopeColumns(m: Measures, w: Warehouse, scope: SessionRow -> bool) {
    && m.sessions == Counted(w.sessions, scope)
    && ToolColumns(m, w.tools, CallsIn(w, scope, ToolSession))
    && ModelColumns(m, w.models, CallsIn(w, scope, ModelSession))
  }

  lemma ScopeMeans(w: Warehouse, scope: SessionRow -> bool)
    requires DistinctIds(w)
    ensures ScopeColumns(ScopeTotal(w, scope), w, scope)
  {
    SessionsCounted(w, scope, w.sessions);
    hide DistinctIds, ToolColumns, ModelColumns, ToolPart, ModelPart, Total, ChildrenOf, Counted, OfToolCall, OfModelCall, CallsIn;
    ScopeParts(w, scope);
    ByCall(w, scope, w.tools, ToolSession, OfToolCall, ChosenTools(w, scope));
    ByCall(w, scope, w.models, ModelSession, OfModelCall, ChosenModels(w, scope));
    ToolsCounted(w.tools, CallsIn(w, scope, ToolSession));
    ModelsCounted(w.models, CallsIn(w, scope, ModelSession));
    SameColumns(ScopeTotal(w, scope), w, CallsIn(w, scope, ToolSession), CallsIn(w, scope, ModelSession));
  }

  // ---------------------------------------------------------------- queries

  /** The sessions the filters select. */
  function SelectedBy(w: Warehouse, f: Filters): SessionRow -> bool {
    (s: SessionRow) => Selected(w, f, s)
  }

  /** Those of one source. */
  function FromSource(w: Warehouse, f: Filters, source: nat): SessionRow -> bool {
    (s: SessionRow) => Selected(w, f, s) && s.source == source
  }

  /** Those of one source that started on one day. */
  function OnDay(w: Warehouse, f: Filters, day: int -> int, date: int, source: nat): SessionRow -> bool {
    (s: SessionRow) => Selected(w, f, s) && s.startedAt.Some? && day(s.startedAt.value) == date && s.source == source
  }

  /** A filter that is given keeps the sessions that have its value; the dates
      bound the start, which has to be known; a model or a tool has to be used by
      some call. */
  lemma {:induction false} SelectionMeans(w: Warehouse, f: Filters, s: SessionRow)
    ensures Selected(w, f, s) <==>
            && f.source in {None, Some(s.source)} && f.agent in {None, s.agent} && f.run in {None, Some(s.run)} && f.status in {None, s.outcome}
            && (f.dateFrom.None? || (s.startedAt != None && f.dateFrom.value <= s.startedAt.value))
            && (f.dateTo.None? || (s.startedAt != None && s.startedAt.value <= f.dateTo.value))
            && (f.model.None? || exists c :: c in w.models && c.session == s.id && c.model == f.model)
            && (f.tool.None? || exists c :: c in w.tools && c.session == s.id && Some(c.tool) == f.tool)
  {
    if f.model.Some? {
      ModelUsed(w, s.id, f.model.value);
    }
    if f.tool.Some? {
      ToolUsed(w, s.id, f.tool.value);
    }
    hide HasModel, HasTool;
  }

  lemma ModelUsed(w: Warehouse, session: nat, model: nat)
    ensures HasModel(w, session, model) <==> exists c :: c in w.models && c.session == session && c.model == Some(model)
  {
    if HasModel(w, session, model) {
      var i :| 0 <= i < |w.models| && w.models[i].session == session && w.models[i].model == Some(model);
      assert w.models[i] in w.models;
    }
  }

  lemma ToolUsed(w: Warehouse, session: nat, tool: nat)
    ensures HasTool(w, session, tool) <==> exists c :: c in w.tools && c.session == session && c.tool == tool
  {
    if HasTool(w, session, tool) {
      var i :| 0 <= i < |w.tools| && w.tools[i].session == session && w.tools[i].tool == tool;
      assert w.tools[i] in w.tools;
    }
  }

  /** The overview counts the selected sessions and the calls of exactly these. */
  lemma OverviewMeans(w: Warehouse, f: Filters)
    requires DistinctIds(w)
    ensures ScopeColumns(Overview(w, f), w, SelectedBy(w, f))
  {
    hide DistinctIds, ScopeColumns, Selected, Total, SessionMetrics;
    ScopeMeans(w, SelectedBy(w, f));
    SameTotal(w.sessions, IfSelected(w, f, MetricsOf(w)), Chosen(SelectedBy(w, f), MetricsOf(w)));
  }

  function AtKey<K(==)>(key: K): Point<K> -> Measures {
    (p: Point<K>) => if p.key == key then p.measures else ZERO
  }

  lemma OfKeyTotal<K>(rows: seq<Point<K>>, key: K)
    ensures OfKey(rows, key) == Total(rows, AtKey(key))
  {
    hide Total;
    SameTotal(rows, (p: Point<K>) => if p.key == key then p.measures else ZERO, AtKey(key));
  }

  /** With one point a key, the point of a key is all there is of it. */
  lemma {:induction false} OnlyPoint<K>(points: seq<Point<K>>, i: nat)
    requires DistinctKeys(points) && i < |points|
    ensures Total(points, AtKey(points[i].key)) == points[i].measures
  {
    hide Plus;
    var n := |points| - 1;
    var before := points[..n];
    if i < n {
      OnlyPoint(before, i);
      PlusLaws(points[i].measures, ZERO, ZERO);
    } else {
      ZeroTotal(before, AtKey(points[i].key));
      PlusLaws(points[i].measures, ZERO, ZERO);
    }
  }

  /** A point of a grouping holds what the rows of its key add up to. */
  lemma PointOf<K>(rows: seq<Point<K>>, i: nat)
    requires i < |GroupBy(rows)|
    ensures GroupBy(rows)[i].measures == Total(rows, AtKey(GroupBy(rows)[i].key))
  {
    hide Total, GroupBy;
    var key := GroupBy(rows)[i].key;
    GroupsAreExact(rows, key);
    OfKeyTotal(GroupBy(rows), key);
    OfKeyTotal(rows, key);
    OnlyPoint(GroupBy(rows), i);
  }

  /** The rows of a day and source are its sessions. */
  lemma {:induction false} DatedAtKey(w: Warehouse, f: Filters, day: int -> int, sessions: seq<SessionRow>, date: int, source: nat)
    ensures Total(DatedRows(w, f, day, sessions), AtKey((date, source))) == Total(sessions, Chosen(OnDay(w, f, day, date, source), MetricsOf(w)))
  {
    hide Plus, Selected, SessionMetrics;
    var key := (date, source);
    if sessions != [] {
      var n := |sessions| - 1;
      DatedAtKey(w, f, day, sessions[..n], date, source);
      var before := DatedRows(w, f, day, sessions[..n]);
      LastOf(sessions, Chosen(OnDay(w, f, day, date, source), MetricsOf(w)));
      if Selected(w, f, sessions[n]) && sessions[n].startedAt.Some? {
        var point := Point((day(sessions[n].startedAt.value), sessions[n].source), SessionMetrics(w, sessions[n]));
        TotalConcat(before, [point], AtKey(key));
        TotalOne(point, AtKey(key));
      } else {
        assert before + [] == before;
        PlusLaws(Total(before, AtKey(key)), ZERO, ZERO);
      }
    }
  }

  /** A point of `activity` counts the selected sessions of its source that
      started on its day, and their calls. */
  lemma ActivityMeans(w: Warehouse, f: Filters, day: int -> int, i: nat)
    requires DistinctIds(w) && i < |Activity(w, f, day)|
    ensures var p := Activity(w, f, day)[i]; ScopeColumns(p.measures, w, OnDay(w, f, day, p.key.0, p.key.1))
  {
    var key := Activity(w, f, day)[i].key;
    hide DistinctIds, ScopeColumns, Total, GroupBy, DatedRows, OnDay;
    PointOf(DatedRows(w, f, day, w.sessions), i);
    DatedAtKey(w, f, day, w.sessions, key.0, key.1);
    ScopeMeans(w, OnDay(w, f, day, key.0, key.1));
  }

  /** The calls of one tool in the selected sessions of one source. */
  ghost function ToolCallsAt(w: Warehouse, f: Filters, tool: nat, source: nat): ToolCallRow -> bool {
    (c: ToolCallRow) => (f.tool.Some? ==> c.tool == f.tool.value) && c.tool == tool && InScope(w.sessions, FromSource(w, f, source), c.session)
  }

  ghost function ModelCallsAt(w: Warehouse, f: Filters, model: Option<nat>, source: nat): ModelCallRow -> bool {
    (c: ModelCallRow) => (f.model.Some? ==> c.model == f.model) && c.model == model && InScope(w.sessions, FromSource(w, f, source), c.session)
  }

  /** The rows of a call at a key, with the key it has in a session of `source`. */
  lemma {:induction false} JoinedAtKey<C, K>(w: Warehouse, f: Filters, call: C, id: nat, sessions: seq<SessionRow>,
                                             row: (C, SessionRow) -> Point<(K, nat)>, own: K, m: Measures, key: (K, nat))
    requires forall i, j :: 0 <= i < j < |sessions| ==> sessions[i].id != sessions[j].id
    requires forall s: SessionRow :: row(call, s) == Point((own, s.source), m)
    ensures Total(Joined(w, f, call, id, sessions, row), AtKey(key))
         == if own == key.0 && InScope(sessions, FromSource(w, f, key.1), id) then m else ZERO
  {
    hide Plus, Selected;
    if sessions == [] {
    } else {
      var n := |sessions| - 1;
      JoinedAtKey(w, f, call, id, sessions[..n], row, own, m, key);
      ScopeStep(sessions, FromSource(w, f, key.1), id);
      hide InScope;
      var before := Joined(w, f, call, id, sessions[..n], row);
      PlusLaws(m, ZERO, ZERO);
      PlusLaws(ZERO, ZERO, ZERO);
      if sessions[n].id == id && Selected(w, f, sessions[n]) {
        TotalConcat(before, [row(call, sessions[n])], AtKey(key));
        TotalOne(row(call, sessions[n]), AtKey(key));
      } else {
        assert before + [] == before;
      }
    }
  }

  lemma {:induction false} ToolRowsAtKey(w: Warehouse, f: Filters, keep: ToolCallRow -> bool, calls: seq<ToolCallRow>, key: (nat, nat))
    requires DistinctIds(w)
    requires forall c :: keep(c) <==> (f.tool.Some? ==> c.tool == f.tool.value)
    ensures Total(CallRows(w, f, calls, keep, ToolSession, ToolPoint), AtKey(key))
         == Total(calls, Chosen(ToolCallsAt(w, f, key.0, key.1), OfToolCall))
  {
    hide Plus, Selected, InScope, Joined, OfToolCall;
    if calls != [] {
      var n := |calls| - 1;
      ToolRowsAtKey(w, f, keep, calls[..n], key);
      var before := CallRows(w, f, calls[..n], keep, ToolSession, ToolPoint);
      LastOf(calls, Chosen(ToolCallsAt(w, f, key.0, key.1), OfToolCall));
      if keep(calls[n]) {
        JoinedAtKey(w, f, calls[n], calls[n].session, w.sessions, ToolPoint, calls[n].tool, OfToolCall(calls[n]), key);
        TotalConcat(before, Joined(w, f, calls[n], ToolSession(calls[n]), w.sessions, ToolPoint), AtKey(key));
      } else {
        assert before + [] == before;
        PlusLaws(Total(before, AtKey(key)), ZERO, ZERO);
      }
    }
  }

  lemma {:induction false} ModelRowsAtKey(w: Warehouse, f: Filters, keep: ModelCallRow -> bool, calls: seq<ModelCallRow>, key: (Option<nat>, nat))
    requires DistinctIds(w)
    requires forall c :: keep(c) <==> (f.model.Some? ==> c.model == f.model)
    ensures Total(CallRows(w, f, calls, keep, ModelSession, ModelPoint), AtKey(key))
         == Total(calls, Chosen(ModelCallsAt(w, f, key.0, key.1), OfModelCall))
  {
    hide Plus, Selected, InScope, Joined, OfModelCall;
    if calls != [] {
      var n := |calls| - 1;
      ModelRowsAtKey(w, f, keep, calls[..n], key);
      var before := CallRows(w, f, calls[..n], keep, ModelSession, ModelPoint);
      LastOf(calls, Chosen(ModelCallsAt(w, f, key.0, key.1), OfModelCall));
      if keep(calls[n]) {
        JoinedAtKey(w, f, calls[n], calls[n].session, w.sessions, ModelPoint, calls[n].model, OfModelCall(calls[n]), key);
        TotalConcat(before, Joined(w, f, calls[n], ModelSession(calls[n]), w.sessions, ModelPoint), AtKey(key));
      } else {
        assert before + [] == before;
        PlusLaws(Total(before, AtKey(key)), ZERO, ZERO);
      }
    }
  }

  /** A point of `tool_usage` counts the calls of its tool in the selected
      sessions of its source. */
  lemma ToolUsageMeans(w: Warehouse, f: Filters, i: nat)
    requires DistinctIds(w) && i < |ToolUsage(w, f)|
    ensures var p := ToolUsage(w, f)[i]; ToolColumns(p.measures, w.tools, ToolCallsAt(w, f, p.key.0, p.key.1))
  {
    var key := ToolUsage(w, f)[i].key;
    var keep := (c: ToolCallRow) => f.tool.Some? ==> c.tool == f.tool.value;
    hide DistinctIds, ToolColumns, Total, GroupBy, CallRows, ToolCallsAt, OfToolCall;
    PointOf(CallRows(w, f, w.tools, keep, ToolSession, ToolPoint), i);
    ToolRowsAtKey(w, f, keep, w.tools, key);
    ToolsCounted(w.tools, ToolCallsAt(w, f, key.0, key.1));
  }

  /** And a call that a point would count has its point. */
  lemma ToolUsageComplete(w: Warehouse, f: Filters, k: nat, source: nat)
    requires DistinctIds(w) && k < |w.tools| && ToolCallsAt(w, f, w.tools[k].tool, source)(w.tools[k])
    ensures exists i :: 0 <= i < |ToolUsage(w, f)| && ToolUsage(w, f)[i].key == (w.tools[k].tool, source)
  {
    var key := (w.tools[k].tool, source);
    var keep := (c: ToolCallRow) => f.tool.Some? ==> c.tool == f.tool.value;
    hide DistinctIds, Total, GroupBy, CallRows, ToolCallsAt, OfToolCall;
    var rows := CallRows(w, f, w.tools, keep, ToolSession, ToolPoint);
    assert ToolUsage(w, f) == GroupBy(rows);
    if NoPoint(GroupBy(rows), key) {
      NothingAt(rows, key);
      ToolRowsAtKey(w, f, keep, w.tools, key);
      hide *;
      ToolsCounted(w.tools, ToolCallsAt(w, f, key.0, key.1));
      SomeCounted(w.tools, ToolCallsAt(w, f, key.0, key.1), k);
      NoColumns(w.tools, ToolCallsAt(w, f, key.0, key.1));
    }
  }

  lemma NoColumns(calls: seq<ToolCallRow>, p: ToolCallRow -> bool)
    ensures ToolColumns(ZERO, calls, p) ==> Counted(calls, p) == 0
  {
    hide Counted;
  }

  predicate NoPoint<K(==)>(points: seq<Point<K>>, key: K) {
    forall i :: 0 <= i < |points| ==> points[i].key != key
  }

  /** Without a point there is nothing to add up. */
  lemma NothingAt<K>(rows: seq<Point<K>>, key: K)
    requires NoPoint(GroupBy(rows), key)
    ensures Total(rows, AtKey(key)) == ZERO
  {
    hide GroupBy, Total;
    GroupsAreExact(rows, key);
    OfKeyTotal(GroupBy(rows), key);
    OfKeyTotal(rows, key);
    ZeroTotal(GroupBy(rows), AtKey(key));
  }

  lemma SomeCounted<T>(items: seq<T>, p: T -> bool, k: nat)
    requires k < |items| && p(items[k])
    ensures Counted(items, p) > 0
  {
    var met := set i: nat | i < |items| && p(items[i]);
    assert k in met && {k} <= met;
    Fewer({k}, met);
  }

  lemma Fewer<T>(a: set<T>, b: set<T>)
    requires a <= b
    ensures |a| <= |b|
  {
    assert b == a + (b - a);
  }

  /** A point of `model_usage` counts the calls of its model, known or not, and
      adds their known tokens. */
  lemma ModelUsageMeans(w: Warehouse, f: Filters, i: nat)
    requires DistinctIds(w) && i < |ModelUsage(w, f)|
    ensures var p := ModelUsage(w, f)[i]; ModelColumns(p.measures, w.models, ModelCallsAt(w, f, p.key.0, p.key.1))
  {
    var key := ModelUsage(w, f)[i].key;
    var keep := (c: ModelCallRow) => f.model.Some? ==> c.model == f.model;
    hide DistinctIds, ModelColumns, Total, GroupBy, CallRows, ModelCallsAt, OfModelCall;
    PointOf(CallRows(w, f, w.models, keep, ModelSession, ModelPoint), i);
    ModelRowsAtKey(w, f, keep, w.models, key);
    ModelsCounted(w.models, ModelCallsAt(w, f, key.0, key.1));
  }
}
