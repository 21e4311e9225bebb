/**
 The dashboard's aggregates: sessions and their calls, the view that aggregates
 the two kinds of children apart, and the queries that group them. What is
 proved is that grouping and joining lose nothing and count nothing twice.
 */
module Aggregates {
  import opened Values

  datatype SessionRow = SessionRow(id: nat, source: nat, agent: Option<nat>, run: nat, startedAt: Option<int>,
                                   outcome: Option<string>, duration: Option<int>)

  datatype ModelCallRow = ModelCallRow(session: nat, model: Option<nat>, input: Option<int>, output: Option<int>, cacheRead: Option<int>)

  datatype ToolCallRow = ToolCallRow(session: nat, tool: nat, status: string)

  datatype Warehouse = Warehouse(sessions: seq<SessionRow>, models: seq<ModelCallRow>, tools: seq<ToolCallRow>)

  // ---------------------------------------------------------------- measures

  /** SQL `sum`: NULL when nothing contributed. */
  function Add(a: Option<int>, b: Option<int>): Option<int> {
    if a.None? then b else if b.None? then a else Some(a.value + b.value)
  }

  function Present(a: Option<int>): nat {
    if a.Some? then 1 else 0
  }

  /** The columns of the aggregate queries: counts, and nullable sums. */
  datatype Measures = Measures(
    sessions: nat, modelCalls: nat, toolCalls: nat, errors: nat, statusKnown: nat,
    input: Option<int>, output: Option<int>, cacheRead: Option<int>, tokensPresent: nat, cachePresent: nat)

  const ZERO := Measures(0, 0, 0, 0, 0, None, None, None, 0, 0)

  function Plus(a: Measures, b: Measures): Measures {
    Measures(a.sessions + b.sessions, a.modelCalls + b.modelCalls, a.toolCalls + b.toolCalls, a.errors + b.errors,
             a.statusKnown + b.statusKnown, Add(a.input, b.input), Add(a.output, b.output), Add(a.cacheRead, b.cacheRead),
             a.tokensPresent + b.tokensPresent, a.cachePresent + b.cachePresent)
  }

  lemma PlusLaws(a: Measures, b: Measures, c: Measures)
    ensures Plus(Plus(a, b), c) == Plus(a, Plus(b, c)) && Plus(a, b) == Plus(b, a) && Plus(a, ZERO) == a && Plus(ZERO, a) == a
  {
  }

  function OfModelCall(c: ModelCallRow): Measures {
    ZERO.(modelCalls := 1, input := c.input, output := c.output, cacheRead := c.cacheRead,
          tokensPresent := Present(c.input), cachePresent := Present(c.cacheRead))
  }

  function OfToolCall(c: ToolCallRow): Measures {
    ZERO.(toolCalls := 1, errors := if c.status == "error" then 1 else 0,
          statusKnown := if c.status == "ok" || c.status == "error" then 1 else 0)
  }

  function Total<T>(items: seq<T>, f: T -> Measures): Measures {
    if items == [] then ZERO else Plus(Total(items[..|items| - 1], f), f(items[|items| - 1]))
  }

  // -------------------------------------------------------- v_session_metrics

  /** What a call adds to the session `id`. */
  function ChildOf<C>(session: C -> nat, of: C -> Measures, id: nat): C -> Measures {
    (c: C) => if session(c) == id then of(c) else ZERO
  }

  /** The calls of one session, aggregated. */
  function ChildrenOf<C>(calls: seq<C>, session: C -> nat, of: C -> Measures, id: nat): Measures {
    Total(calls, ChildOf(session, of, id))
  }

  function ModelSession(c: ModelCallRow): nat { c.session }

  function ToolSession(c: ToolCallRow): nat { c.session }

  function ModelsOf(w: Warehouse, session: nat): Measures {
    ChildrenOf(w.models, ModelSession, OfModelCall, session)
  }

  function ToolsOf(w: Warehouse, session: nat): Measures {
    ChildrenOf(w.tools, ToolSession, OfToolCall, session)
  }

  /** One row of the view: the session, and each kind of children on its own. */
  function SessionMetrics(w: Warehouse, s: SessionRow): Measures {
    Plus(ZERO.(sessions := 1), Plus(ModelsOf(w, s.id), ToolsOf(w, s.id)))
  }

  // ----------------------------------------------------------------- filters

  datatype Filters = Filters(source: Option<nat>, agent: Option<nat>, run: Option<nat>, status: Option<string>,
                             dateFrom: Option<int>, dateTo: Option<int>, model: Option<nat>, tool: Option<nat>)

  /** A WHERE fragment over a row of the view. */
  datatype Fragment =
    | SourceIs(source: nat)
    | AgentIs(agent: nat)
    | RunIs(run: nat)
    | OutcomeIs(status: string)
    | StartedFrom(date: int)
    | StartedTo(date: int)
    | UsesModel(model: nat)
    | UsesTool(tool: nat)

  predicate HasModel(w: Warehouse, session: nat, model: nat) {
    exists i :: 0 <= i < |w.models| && w.models[i].session == session && w.models[i].model == Some(model)
  }

  predicate HasTool(w: Warehouse, session: nat, tool: nat) {
    exists i :: 0 <= i < |w.tools| && w.tools[i].session == session && w.tools[i].tool == tool
  }

  /** A comparison with NULL keeps nothing. */
  predicate Holds(w: Warehouse, f: Fragment, s: SessionRow) {
    match f
    case SourceIs(source) => s.source == source
    case AgentIs(agent) => s.agent == Some(agent)
    case RunIs(run) => s.run == run
    case OutcomeIs(status) => s.outcome == Some(status)
    case StartedFrom(date) => s.startedAt.Some? && s.startedAt.value >= date
    case StartedTo(date) => s.startedAt.Some? && s.startedAt.value <= date
    case UsesModel(model) => HasModel(w, s.id, model)
    case UsesTool(tool) => HasTool(w, s.id, tool)
  }

  predicate AllHold(w: Warehouse, fragments: seq<Fragment>, s: SessionRow) {
    forall i :: 0 <= i < |fragments| ==> Holds(w, fragments[i], s)
  }

  /** What the filters ask of a session. */
  predicate Selected(w: Warehouse, f: Filters, s: SessionRow) {
    && (f.source.Some? ==> s.source == f.source.value)
    && (f.agent.Some? ==> s.agent == f.agent)
    && (f.run.Some? ==> s.run == f.run.value)
    && (f.status.Some? ==> s.outcome == f.status)
    && (f.dateFrom.Some? ==> s.startedAt.Some? && s.startedAt.value >= f.dateFrom.value)
    && (f.dateTo.Some? ==> s.startedAt.Some? && s.startedAt.value <= f.dateTo.value)
    && (f.model.Some? ==> HasModel(w, s.id, f.model.value))
    && (f.tool.Some? ==> HasTool(w, s.id, f.tool.value))
  }

  function Wanted(given: bool, fragment: Fragment): seq<Fragment> {
    if given then [fragment] else []
  }

  /** The conditions on the session's own columns. */
  function RowFragments(f: Filters): seq<Fragment> {
    Wanted(f.source.Some?, SourceIs(f.source.GetOr(0))) + Wanted(f.agent.Some?, AgentIs(f.agent.GetOr(0))) +
    Wanted(f.run.Some?, RunIs(f.run.GetOr(0))) + Wanted(f.status.Some?, OutcomeIs(f.status.GetOr("")))
  }

  function OtherFragments(f: Filters): seq<Fragment> {
    Wanted(f.dateFrom.Some?, StartedFrom(f.dateFrom.GetOr(0))) + Wanted(f.dateTo.Some?, StartedTo(f.dateTo.GetOr(0))) +
    Wanted(f.model.Some?, UsesModel(f.model.GetOr(0))) + Wanted(f.tool.Some?, UsesTool(f.tool.GetOr(0)))
  }

  lemma AllHoldConcat(w: Warehouse, a: seq<Fragment>, b: seq<Fragment>, s: SessionRow)
    ensures AllHold(w, a + b, s) <==> AllHold(w, a, s) && AllHold(w, b, s)
  {
    hide Holds;
    if AllHold(w, a + b, s) {
      assert forall i :: 0 <= i < |a| ==> a[i] == (a + b)[i];
      assert forall i :: 0 <= i < |b| ==> b[i] == (a + b)[|a| + i];
    }
  }

  lemma FourHold(w: Warehouse, a: seq<Fragment>, b: seq<Fragment>, c: seq<Fragment>, d: seq<Fragment>, s: SessionRow)
    ensures AllHold(w, a + b + c + d, s) <==> AllHold(w, a, s) && AllHold(w, b, s) && AllHold(w, c, s) && AllHold(w, d, s)
  {
    hide AllHold;
    AllHoldConcat(w, a, b, s);
    AllHoldConcat(w, a + b, c, s);
    AllHoldConcat(w, a + b + c, d, s);
  }

  lemma WantedHolds(w: Warehouse, given: bool, fragment: Fragment, s: SessionRow)
    ensures AllHold(w, Wanted(given, fragment), s) <==> (given ==> Holds(w, fragment, s))
  {
    hide Holds;
    if given {
      assert Wanted(given, fragment)[0] == fragment;
    }
  }

  lemma RowFragmentsSelect(w: Warehouse, f: Filters, s: SessionRow)
    ensures AllHold(w, RowFragments(f), s) <==>
              && (f.source.Some? ==> s.source == f.source.value) && (f.agent.Some? ==> s.agent == f.agent)
              && (f.run.Some? ==> s.run == f.run.value) && (f.status.Some? ==> s.outcome == f.status)
  {
    hide AllHold, Wanted, HasModel, HasTool;
    var a, b, c, d := SourceIs(f.source.GetOr(0)), AgentIs(f.agent.GetOr(0)), RunIs(f.run.GetOr(0)), OutcomeIs(f.status.GetOr(""));
    FourHold(w, Wanted(f.source.Some?, a), Wanted(f.agent.Some?, b), Wanted(f.run.Some?, c), Wanted(f.status.Some?, d), s);
    WantedHolds(w, f.source.Some?, a, s);
    WantedHolds(w, f.agent.Some?, b, s);
    WantedHolds(w, f.run.Some?, c, s);
    WantedHolds(w, f.status.Some?, d, s);
  }

  lemma OtherFragmentsSelect(w: Warehouse, f: Filters, s: SessionRow)
    ensures AllHold(w, OtherFragments(f), s) <==>
              && (f.dateFrom.Some? ==> s.startedAt.Some? && s.startedAt.value >= f.dateFrom.value)
              && (f.dateTo.Some? ==> s.startedAt.Some? && s.startedAt.value <= f.dateTo.value)
              && (f.model.Some? ==> HasModel(w, s.id, f.model.value))
              && (f.tool.Some? ==> HasTool(w, s.id, f.tool.value))
  {
    hide AllHold, Wanted, HasModel, HasTool;
    var a, b, c, d := StartedFrom(f.dateFrom.GetOr(0)), StartedTo(f.dateTo.GetOr(0)), UsesModel(f.model.GetOr(0)), UsesTool(f.tool.GetOr(0));
    FourHold(w, Wanted(f.dateFrom.Some?, a), Wanted(f.dateTo.Some?, b), Wanted(f.model.Some?, c), Wanted(f.tool.Some?, d), s);
    WantedHolds(w, f.dateFrom.Some?, a, s);
    WantedHolds(w, f.dateTo.Some?, b, s);
    WantedHolds(w, f.model.Some?, c, s);
    WantedHolds(w, f.tool.Some?, d, s);
  }

  /** The columns and the outcome, then the dates and the EXISTS conditions. */
  method RowPredicates(f: Filters) returns (where: seq<Fragment>)
    ensures where == RowFragments(f)
  {
    where := [];
    if f.source.Some? {
      where := where + [SourceIs(f.source.value)];
    }
    if f.agent.Some? {
      where := where + [AgentIs(f.agent.value)];
    }
    if f.run.Some? {
      where := where + [RunIs(f.run.value)];
    }
    if f.status.Some? {
      where := where + [OutcomeIs(f.status.value)];
    }
  }

  method OtherPredicates(f: Filters) returns (where: seq<Fragment>)
    ensures where == OtherFragments(f)
  {
    where := [];
    if f.dateFrom.Some? {
      where := where + [StartedFrom(f.dateFrom.value)];
    }
    if f.dateTo.Some? {
      where := where + [StartedTo(f.dateTo.value)];
    }
    if f.model.Some? {
      where := where + [UsesModel(f.model.value)];
    }
    if f.tool.Some? {
      where := where + [UsesTool(f.tool.value)];
    }
  }

  /** `_session_predicates`: its fragments select what the filters ask for. */
  method SessionPredicates(ghost w: Warehouse, f: Filters) returns (where: seq<Fragment>)
    ensures forall s :: AllHold(w, where, s) <==> Selected(w, f, s)
  {
    hide AllHold, HasModel, HasTool, RowFragments, OtherFragments;
    var own := RowPredicates(f);
    var others := OtherPredicates(f);
    where := own + others;
    forall s ensures AllHold(w, where, s) <==> Selected(w, f, s) {
      AllHoldConcat(w, own, others, s);
      RowFragmentsSelect(w, f, s);
      OtherFragmentsSelect(w, f, s);
    }
  }

  // ------------------------------------------------------------------ queries

  /** What a session adds to a query that keeps the selected ones. */
  function IfSelected(w: Warehouse, f: Filters, of: SessionRow -> Measures): SessionRow -> Measures {
    (s: SessionRow) => if Selected(w, f, s) then of(s) else ZERO
  }

  function MetricsOf(w: Warehouse): SessionRow -> Measures {
    (s: SessionRow) => SessionMetrics(w, s)
  }

  function Overview(w: Warehouse, f: Filters): Measures {
    Total(w.sessions, IfSelected(w, f, MetricsOf(w)))
  }

  /** One row of a GROUP BY: a key and the aggregates of its group. */
  datatype Point<K> = Point(key: K, measures: Measures)

  /** The group of a key, one row more. */
  function Grouped<K(==)>(points: seq<Point<K>>, key: K, m: Measures): seq<Point<K>> {
    if points == [] then [Point(key, m)]
    else if points[0].key == key then [Point(key, Plus(points[0].measures, m))] + points[1..]
    else [points[0]] + Grouped(points[1..], key, m)
  }

  function GroupBy<K(==)>(rows: seq<Point<K>>): seq<Point<K>> {
    if rows == [] then [] else Grouped(GroupBy(rows[..|rows| - 1]), rows[|rows| - 1].key, rows[|rows| - 1].measures)
  }

  function MeasuresOf<K>(p: Point<K>): Measures { p.measures }

  function Columns<K>(points: seq<Point<K>>): Measures {
    Total(points, MeasuresOf<K>)
  }

  /** The rows of a call joined with its sessions, those selected. */
  function Joined<C, K>(w: Warehouse, f: Filters, call: C, session: nat, sessions: seq<SessionRow>, row: (C, SessionRow) -> Point<K>)
    : seq<Point<K>>
  {
    if sessions == [] then []
    else
      var n := |sessions| - 1;
      Joined(w, f, call, session, sessions[..n], row) +
      (if sessions[n].id == session && Selected(w, f, sessions[n]) then [row(call, sessions[n])] else [])
  }

  function CallRows<C, K>(w: Warehouse, f: Filters, calls: seq<C>, keep: C -> bool, session: C -> nat, row: (C, SessionRow) -> Point<K>)
    : seq<Point<K>>
  {
    if calls == [] then []
    else
      var n := |calls| - 1;
      CallRows(w, f, calls[..n], keep, session, row) +
      (if keep(calls[n]) then Joined(w, f, calls[n], session(calls[n]), w.sessions, row) else [])
  }

  function ToolPoint(c: ToolCallRow, s: SessionRow): Point<(nat, nat)> { Point((c.tool, s.source), OfToolCall(c)) }

  function ModelPoint(c: ModelCallRow, s: SessionRow): Point<(Option<nat>, nat)> { Point((c.model, s.source), OfModelCall(c)) }

  /** `tool_usage`: calls grouped by tool and source. */
  function ToolUsage(w: Warehouse, f: Filters): seq<Point<(nat, nat)>> {
    GroupBy(CallRows(w, f, w.tools, (c: ToolCallRow) => f.tool.Some? ==> c.tool == f.tool.value, ToolSession, ToolPoint))
  }

  /** `model_usage`: calls grouped by model, known or not, and source. */
  function ModelUsage(w: Warehouse, f: Filters): seq<Point<(Option<nat>, nat)>> {
    GroupBy(CallRows(w, f, w.models, (c: ModelCallRow) => f.model.Some? ==> c.model == f.model, ModelSession, ModelPoint))
  }

  function DatedRows(w: Warehouse, f: Filters, day: int -> int, sessions: seq<SessionRow>): seq<Point<(int, nat)>> {
    if sessions == [] then []
    else
      var n := |sessions| - 1;
      DatedRows(w, f, day, sessions[..n]) +
      (if Selected(w, f, sessions[n]) && sessions[n].startedAt.Some?
       then [Point((day(sessions[n].startedAt.value), sessions[n].source), SessionMetrics(w, sessions[n]))] else [])
  }

  /** `activity`: dated sessions grouped by day and source. */
  function Activity(w: Warehouse, f: Filters, day: int -> int): seq<Point<(int, nat)>> {
    GroupBy(DatedRows(w, f, day, w.sessions))
  }

  /** A session's row, if it has a start, or if it has none. */
  function Started(w: Warehouse, dated: bool): SessionRow -> Measures {
    (s: SessionRow) => if s.startedAt.Some? == dated then SessionMetrics(w, s) else ZERO
  }

  /** The sessions that `activity` cannot place on a day. */
  function Undated(w: Warehouse, f: Filters): Measures {
    Total(w.sessions, IfSelected(w, f, Started(w, false)))
  }

  // -------------------------------------------------------- grouping, in law

  lemma {:induction false} TotalConcat<T>(a: seq<T>, b: seq<T>, f: T -> Measures)
    ensures Total(a + b, f) == Plus(Total(a, f), Total(b, f))
    decreases |b|
  {
    hide Plus;
    if b == [] {
      assert a + b == a;
      PlusLaws(Total(a, f), ZERO, ZERO);
    } else {
      var n := |b| - 1;
      assert (a + b)[..|a + b| - 1] == a + b[..n] && (a + b)[|a + b| - 1] == b[n];
      TotalConcat(a, b[..n], f);
      PlusLaws(Total(a, f), Total(b[..n], f), f(b[n]));
    }
  }

  lemma TotalOne<T>(item: T, f: T -> Measures)
    ensures Total([item], f) == f(item)
  {
    assert [item][..0] == [] && Total([item], f) == Plus(Total([item][..0], f), f(item));
    PlusLaws(f(item), ZERO, ZERO);
  }

  lemma {:induction false} GroupedTotal<K>(points: seq<Point<K>>, key: K, m: Measures)
    ensures Columns(Grouped(points, key, m)) == Plus(Columns(points), m)
  {
    var f := MeasuresOf<K>;
    hide Plus;
    if points == [] {
      TotalOne(Point(key, m), f);
      PlusLaws(m, ZERO, ZERO);
    } else {
      var head, tail := [points[0]], points[1..];
      assert points == head + tail;
      TotalConcat(head, tail, f);
      TotalOne(points[0], f);
      if points[0].key == key {
        TotalConcat([Point(key, Plus(points[0].measures, m))], tail, f);
        TotalOne(Point(key, Plus(points[0].measures, m)), f);
        Shuffle(points[0].measures, m, Total(tail, f));
      } else {
        GroupedTotal(tail, key, m);
        TotalConcat(head, Grouped(tail, key, m), f);
        PlusLaws(points[0].measures, Total(tail, f), m);
      }
    }
  }

  lemma Shuffle(a: Measures, m: Measures, b: Measures)
    ensures Plus(Plus(a, m), b) == Plus(Plus(a, b), m)
  {
  }

  /** Grouping loses nothing: the groups sum to the rows, column by column. */
  lemma {:induction false} GroupingConserves<K>(rows: seq<Point<K>>)
    ensures Columns(GroupBy(rows)) == Columns(rows)
  {
    if rows != [] {
      var n := |rows| - 1;
      GroupingConserves(rows[..n]);
      GroupedTotal(GroupBy(rows[..n]), rows[n].key, rows[n].measures);
    }
  }

  predicate DistinctKeys<K(==)>(points: seq<Point<K>>) {
    forall i, j :: 0 <= i < j < |points| ==> points[i].key != points[j].key
  }

  function OfKey<K(==)>(rows: seq<Point<K>>, key: K): Measures {
    Total(rows, (p: Point<K>) => if p.key == key then p.measures else ZERO)
  }

  lemma {:induction false} GroupedKeys<K>(points: seq<Point<K>>, key: K, m: Measures)
    ensures forall p :: p in Grouped(points, key, m) ==> p.key == key || p in points
    ensures DistinctKeys(points) ==> DistinctKeys(Grouped(points, key, m))
  {
    if points != [] {
      GroupedKeys(points[1..], key, m);
      if DistinctKeys(points) {
        assert forall i :: 0 <= i < |points[1..]| ==> points[1..][i] == points[i + 1];
        if points[0].key != key {
          var after, tail := Grouped(points, key, m), Grouped(points[1..], key, m);
          assert after == [points[0]] + tail;
          forall j | 0 <= j < |tail| ensures tail[j].key != points[0].key {
            if tail[j].key != key {
              assert tail[j] in points[1..];
              var k :| 0 <= k < |points[1..]| && points[1..][k] == tail[j];
              assert points[k + 1].key != points[0].key;
            }
          }
        }
      }
    }
  }

  lemma {:induction false} GroupedOfKey<K>(points: seq<Point<K>>, key: K, m: Measures, k: K)
    ensures OfKey(Grouped(points, key, m), k) == Plus(OfKey(points, k), if k == key then m else ZERO)
  {
    var f := (p: Point<K>) => if p.key == k then p.measures else ZERO;
    hide Plus;
    if points == [] {
      TotalOne(Point(key, m), f);
      PlusLaws(m, ZERO, ZERO);
      PlusLaws(ZERO, ZERO, ZERO);
    } else {
      var head, tail := [points[0]], points[1..];
      assert points == head + tail;
      TotalConcat(head, tail, f);
      TotalOne(points[0], f);
      if points[0].key == key {
        var merged := Point(key, Plus(points[0].measures, m));
        TotalConcat([merged], tail, f);
        TotalOne(merged, f);
        Shuffle(points[0].measures, m, Total(tail, f));
        PlusLaws(Plus(ZERO, Total(tail, f)), ZERO, ZERO);
      } else {
        GroupedOfKey(tail, key, m, k);
        TotalConcat(head, Grouped(tail, key, m), f);
        PlusLaws(f(points[0]), Total(tail, f), if k == key then m else ZERO);
      }
    }
  }

  /** A GROUP BY has one row for each key, and that row aggregates exactly the
      rows of its key. */
  lemma {:induction false} GroupsAreExact<K>(rows: seq<Point<K>>, key: K)
    ensures DistinctKeys(GroupBy(rows)) && OfKey(GroupBy(rows), key) == OfKey(rows, key)
  {
    if rows != [] {
      var n := |rows| - 1;
      GroupsAreExact(rows[..n], key);
      GroupedKeys(GroupBy(rows[..n]), rows[n].key, rows[n].measures);
      GroupedOfKey(GroupBy(rows[..n]), rows[n].key, rows[n].measures, key);
    }
  }
}
