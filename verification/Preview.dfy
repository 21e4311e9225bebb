/**
 The preview of an import: the same normaliser over a sample, writing nothing.
 What it announces is proved to be what a run over those records reports.
 */
module Preview {
  import opened Values
  import opened Mappings
  import opened EngineLaws
  import opened Engine
  import Validator
  import opened Normalizer
  import opened NormalizerLaws
  import opened Accounting
  import opened Store
  import opened Importing
  import opened Reporting
  import opened Rejections
  import opened ImportLaws
  import RunImport

  const MAX_SAMPLE_SIZE := 500
  const ROWS_SHOWN := 5

  /** `_summarise`: an entity without its correlation ids. */
  datatype Shown =
    | ShownSession(source: int, externalId: string, agentName: Option<string>, columns: map<string, Value>)
    | ShownModelCall(index: int, status: string, model: Option<string>, provider: Option<string>, columns: map<string, Value>)
    | ShownToolCall(index: int, status: string, tool: string, columns: map<string, Value>)

  function Sessions(r: NormResult): seq<Shown> {
    seq(|r.sessions|, i requires 0 <= i < |r.sessions| =>
      var s := r.sessions[i];
      ShownSession(s.source, s.externalId, s.agentName, s.columns))
  }

  function ModelCalls(r: NormResult): seq<Shown> {
    seq(|r.modelCalls|, i requires 0 <= i < |r.modelCalls| =>
      var c := r.modelCalls[i];
      ShownModelCall(c.index, c.status, c.model, c.provider, c.columns))
  }

  function ToolCalls(r: NormResult): seq<Shown> {
    seq(|r.toolCalls|, i requires 0 <= i < |r.toolCalls| =>
      var c := r.toolCalls[i];
      ShownToolCall(c.index, c.status, c.tool, c.columns))
  }

  /** The fields of what is shown are those of the entity, its ids left out. */
  lemma {:induction false} ShownMeans(r: NormResult)
    ensures |Sessions(r)| == |r.sessions| && |ModelCalls(r)| == |r.modelCalls| && |ToolCalls(r)| == |r.toolCalls|
    ensures forall i :: 0 <= i < |r.sessions| ==>
              var shown, s := Sessions(r)[i], r.sessions[i];
              && shown.ShownSession? && shown.source == s.source && shown.externalId == s.externalId
              && shown.agentName == s.agentName && shown.columns == s.columns
    ensures forall i :: 0 <= i < |r.modelCalls| ==>
              var shown, c := ModelCalls(r)[i], r.modelCalls[i];
              && shown.ShownModelCall? && shown.index == c.index && shown.status == c.status
              && shown.model == c.model && shown.provider == c.provider && shown.columns == c.columns
    ensures forall i :: 0 <= i < |r.toolCalls| ==>
              var shown, c := ToolCalls(r)[i], r.toolCalls[i];
              shown.ShownToolCall? && shown.index == c.index && shown.status == c.status && shown.tool == c.tool && shown.columns == c.columns
  {
  }

  /** A target shows its own entities, line after line. */
  lemma {:induction false} TargetsMean(results: seq<NormResult>, r: NormResult, target: string)
    ensures AllFor([], target) == []
    ensures target == "session" ==> AllFor(results + [r], target) == AllFor(results, target) + Sessions(r)
    ensures target == "model_call" ==> AllFor(results + [r], target) == AllFor(results, target) + ModelCalls(r)
    ensures target == "tool_call" ==> AllFor(results + [r], target) == AllFor(results, target) + ToolCalls(r)
  {
    hide Sessions, ModelCalls, ToolCalls;
    assert (results + [r])[..|results|] == results;
    assert "session"[0] != "model_call"[0] && "session"[0] != "tool_call"[0] && "model_call"[0] != "tool_call"[0];
  }

  const TARGETS := ["session", "model_call", "tool_call"]

  function EntitiesFor(r: NormResult, target: string): seq<Shown> {
    if target == "session" then Sessions(r) else if target == "model_call" then ModelCalls(r) else ToolCalls(r)
  }

  /** All the entities of one target, line by line. */
  function AllFor(results: seq<NormResult>, target: string): seq<Shown> {
    if results == [] then [] else AllFor(results[..|results| - 1], target) + EntitiesFor(results[|results| - 1], target)
  }

  function Take<T>(s: seq<T>, n: nat): seq<T> {
    if |s| <= n then s else s[..n]
  }

  datatype PreviewResult = PreviewResult(
    sampled: nat,
    wouldImport: map<string, nat>,
    wouldReject: nat,
    shown: map<string, seq<Shown>>,
    issues: seq<Issue>)

  datatype Refusal = SampleSize | MappingNotFound | FileNotFound | MappingInvalid | ValidatorRaised

  /** `dict.get` of a `defaultdict`. */
  function Count(counts: map<string, nat>, target: string): nat {
    if target in counts then counts[target] else 0
  }

  function RowsFor(shown: map<string, seq<Shown>>, target: string): seq<Shown> {
    if target in shown then shown[target] else []
  }

  /** A dictionary of the three targets, one entry replaced. */
  ghost predicate Only(target: string, before: map<string, seq<Shown>>, after: map<string, seq<Shown>>) {
    forall t :: t != target ==> RowsFor(after, t) == RowsFor(before, t)
  }

  lemma TakeSnoc<T>(s: seq<T>, i: nat, n: nat)
    requires i < |s|
    ensures Take(s[..i + 1], n) == if i < n then Take(s[..i], n) + [s[i]] else Take(s[..i], n)
    ensures |Take(s[..i], n)| == if i < n then i else n
  {
    assert s[..i + 1] == s[..i] + [s[i]];
  }

  /** The loop over the entities of one target: the first five are shown. */
  method ShowRows(shown: map<string, seq<Shown>>, target: string, entities: seq<Shown>)
    returns (after: map<string, seq<Shown>>)
    ensures RowsFor(after, target) ==
            RowsFor(shown, target) + Take(entities, if |RowsFor(shown, target)| < ROWS_SHOWN then ROWS_SHOWN - |RowsFor(shown, target)| else 0)
    ensures Only(target, shown, after)
  {
    after := shown;
    hide Take;
    TakeNone(entities);
    ghost var room := if |RowsFor(shown, target)| < ROWS_SHOWN then ROWS_SHOWN - |RowsFor(shown, target)| else 0;
    for i := 0 to |entities|
      invariant RowsFor(after, target) == RowsFor(shown, target) + Take(entities[..i], room)
      invariant Only(target, shown, after)
    {
      TakeSnoc(entities, i, room);
      if |RowsFor(after, target)| < ROWS_SHOWN {
        after := after[target := RowsFor(after, target) + [entities[i]]];
      }
    }
    assert entities[..|entities|] == entities;
  }

  lemma TakeNone<T>(s: seq<T>)
    ensures forall n: nat :: Take(s[..0], n) == []
  {
  }

  lemma TakeConcat<T>(a: seq<T>, b: seq<T>, n: nat)
    ensures Take(a + b, n) == Take(a, n) + Take(b, if |Take(a, n)| < n then n - |Take(a, n)| else 0)
  {
  }

  /** The line an issue is listed at: its own, or the record's. */
  function ListedLine(issue: Issue, line: nat): nat {
    if issue.line.Some? && issue.line.value != 0 then issue.line.value else line
  }

  /** The issue loop: every issue is listed, a rejected one marks its line. */
  method ListIssues(issues: seq<Issue>, line: nat) returns (listed: seq<Issue>, rejected: set<nat>)
    ensures |listed| == |issues|
    ensures forall i :: 0 <= i < |issues| ==> listed[i] == issues[i].(line := Some(ListedLine(issues[i], line)))
    ensures rejected == RejectedAt(issues, line)
  {
    listed, rejected := [], {};
    hide ListedLine;
    for i := 0 to |issues|
      invariant |listed| == i
      invariant forall k :: 0 <= k < i ==> listed[k] == issues[k].(line := Some(ListedLine(issues[k], line)))
      invariant rejected == RejectedAt(issues[..i], line)
    {
      var issue := issues[i];
      var at := if issue.line.Some? && issue.line.value != 0 then issue.line.value else line;
      ListedLineIs(issue, line);
      listed := listed + [issue.(line := Some(at))];
      RejectedSnoc(issues, i, line);
      if issue.severity.Rejected? {
        rejected := rejected + {at};
      }
    }
    assert issues[..|issues|] == issues;
  }

  lemma RejectedSnoc(issues: seq<Issue>, i: nat, line: nat)
    requires i < |issues|
    ensures RejectedAt(issues[..0], line) == {}
    ensures RejectedAt(issues[..i + 1], line) ==
            RejectedAt(issues[..i], line) + if issues[i].severity.Rejected? then {ListedLine(issues[i], line)} else {}
  {
    hide ListedLine;
    var after := issues[..i + 1];
    assert forall k :: 0 <= k < i ==> after[k] == issues[..i][k];
    assert after[i] == issues[i];
    forall at | at in RejectedAt(issues[..i], line) ensures at in RejectedAt(after, line) {
      var k :| 0 <= k < i && issues[..i][k].severity.Rejected? && ListedLine(issues[..i][k], line) == at;
      assert after[k].severity.Rejected?;
    }
    if issues[i].severity.Rejected? {
      assert after[i].severity.Rejected?;
    }
  }

  lemma ListedLineIs(issue: Issue, line: nat)
    ensures ListedLine(issue, line) == if issue.line.Some? && issue.line.value != 0 then issue.line.value else line
  {
  }

  /** The lines the rejected issues are listed at. */
  function RejectedAt(issues: seq<Issue>, line: nat): set<nat> {
    set i | 0 <= i < |issues| && issues[i].severity.Rejected? :: ListedLine(issues[i], line)
  }

  /** Issues that name their line are listed as they are. */
  lemma OwnLines(issues: seq<Issue>, listed: seq<Issue>, line: nat)
    requires AllAt(issues, Some(line)) && |listed| == |issues|
    requires forall i :: 0 <= i < |issues| ==> listed[i] == issues[i].(line := Some(ListedLine(issues[i], line)))
    ensures listed == issues && RejectedAt(issues, line) == RejectedSet(issues)
  {
    forall i | 0 <= i < |issues| ensures ListedLine(issues[i], line) == line && issues[i].line == Some(line) {
    }
  }

  /** The total and the rows shown for one target, after some lines. */
  predicate ShowsFor(results: seq<NormResult>, target: string, wouldImport: map<string, nat>, shown: map<string, seq<Shown>>) {
    && Count(wouldImport, target) == |AllFor(results, target)|
    && RowsFor(shown, target) == Take(AllFor(results, target), ROWS_SHOWN)
  }

  predicate Shows(results: seq<NormResult>, wouldImport: map<string, nat>, shown: map<string, seq<Shown>>) {
    forall k :: 0 <= k < |TARGETS| ==> ShowsFor(results, TARGETS[k], wouldImport, shown)
  }

  /** So each target counts all of its entities, and shows the first five. */
  lemma {:induction false} FiveAreShown(results: seq<NormResult>, target: string, wouldImport: map<string, nat>, shown: map<string, seq<Shown>>)
    requires Shows(results, wouldImport, shown) && target in {"session", "model_call", "tool_call"}
    ensures var all, rows := AllFor(results, target), RowsFor(shown, target);
            && (if target in wouldImport then wouldImport[target] == |all| else all == [])
            && rows <= all && |rows| == if |all| < 5 then |all| else 5
  {
    assert ShowsFor(results, TARGETS[0], wouldImport, shown) && ShowsFor(results, TARGETS[1], wouldImport, shown)
      && ShowsFor(results, TARGETS[2], wouldImport, shown);
    hide AllFor;
  }

  /** One turn of the loop over the targets of a result. */
  method AddTarget(ghost results: seq<NormResult>, r: NormResult, target: string, wouldImport: map<string, nat>, shown: map<string, seq<Shown>>)
    returns (totals: map<string, nat>, rows: map<string, seq<Shown>>)
    ensures ShowsFor(results, target, wouldImport, shown) ==> ShowsFor(results + [r], target, totals, rows)
    ensures Only(target, shown, rows)
    ensures totals == wouldImport[target := Count(wouldImport, target) + |EntitiesFor(r, target)|]
  {
    assert (results + [r])[..|results|] == results;
    var entities := EntitiesFor(r, target);
    hide EntitiesFor, Take;
    TakeConcat(AllFor(results, target), entities, ROWS_SHOWN);
    totals := wouldImport[target := Count(wouldImport, target) + |entities|];
    rows := ShowRows(shown, target, entities);
  }

  /** The loop over the three targets of one result. */
  method AddResult(ghost results: seq<NormResult>, r: NormResult, wouldImport: map<string, nat>, shown: map<string, seq<Shown>>)
    returns (totals: map<string, nat>, rows: map<string, seq<Shown>>)
    requires Shows(results, wouldImport, shown)
    ensures Shows(results + [r], totals, rows)
  {
    hide EntitiesFor, Take, AllFor;
    totals, rows := wouldImport, shown;
    DistinctTargets();
    for i := 0 to |TARGETS|
      invariant forall k :: 0 <= k < |TARGETS| ==>
                  ShowsFor(if k < i then results + [r] else results, TARGETS[k], totals, rows)
    {
      ghost var before, rowsBefore := totals, rows;
      assert ShowsFor(results, TARGETS[i], totals, rows);
      totals, rows := AddTarget(results, r, TARGETS[i], totals, rows);
      forall k | 0 <= k < |TARGETS| && k != i
        ensures ShowsFor(if k < i then results + [r] else results, TARGETS[k], totals, rows)
      {
        assert Count(totals, TARGETS[k]) == Count(before, TARGETS[k]);
      }
    }
  }

  lemma DistinctTargets()
    ensures forall i, j :: 0 <= i < j < |TARGETS| ==> TARGETS[i] != TARGETS[j]
  {
    assert "session"[0] != "model_call"[0] && "session"[0] != "tool_call"[0] && "model_call"[0] != "tool_call"[0];
  }

  /** The sampling loop of `execute`. */
  method Sample(rt: Runtime, mapping: Mapping, records: seq<Value>) returns (preview: PreviewResult)
    requires KnownTargets(mapping)
    ensures var results := ResultsOf(rt, mapping, 0, 1, records);
            && preview.sampled == |records|
            && Shows(results, preview.wouldImport, preview.shown)
            && preview.wouldReject == RejectedLines(results)
            && preview.issues == IssuesOf(results)
  {
    var totals: map<string, nat>, rows: map<string, seq<Shown>> := map[], map[];
    var issues: seq<Issue>, rejected: set<nat> := [], {};
    ghost var results: seq<NormResult> := [];
    hide Normalized, Shows, RejectedSet, RejectedAt, ListedLine, CleanAt, KnownTargets;
    NothingShown();
    NothingRejected();
    for offset := 0 to |records|
      invariant results == ResultsOf(rt, mapping, 0, 1, records[..offset])
      invariant Shows(results, totals, rows)
      invariant issues == IssuesOf(results) && rejected == RejectedSet(issues)
    {
      assert records[..offset + 1][..offset] == records[..offset];
      var line := offset + 1;
      var result := Normalize(rt, mapping, records[offset], 0, Some(line));
      NoEscape(rt, mapping, records[offset], 0, Some(line));
      ResultIsClean(rt, mapping, 0, line, records[offset]);
      CleanIssues(result.value, line);
      totals, rows := AddResult(results, result.value, totals, rows);
      var listed, more := ListIssues(result.value.issues, line);
      OwnLines(result.value.issues, listed, line);
      RejectedSetConcat(issues, result.value.issues);
      assert (results + [result.value])[..offset] == results;
      results := results + [result.value];
      issues, rejected := issues + listed, rejected + more;
    }
    assert records[..|records|] == records;
    ResultsClean(rt, mapping, 0, 1, records);
    RejectedLineCount(results, 1);
    preview := PreviewResult(|records|, totals, |rejected|, rows, issues);
  }

  lemma NothingShown()
    ensures Shows([], map[], map[])
  {
  }

  /** `execute`: nothing is written; the block is left without a commit. */
  method Execute(rt: Runtime, unit: UnitOfWork, mapping: Option<Mapping>, file: Option<seq<Value>>, size: int)
    returns (outcome: Result<PreviewResult, Refusal>)
    modifies unit
    ensures unit.store == old(unit.store)
    ensures outcome == Err(SampleSize) <==> size < 1 || size > 500
    ensures outcome == Err(MappingNotFound) <==> 1 <= size <= 500 && mapping.None?
    ensures outcome == Err(FileNotFound) <==> 1 <= size <= 500 && mapping.Some? && file.None?
    ensures 1 <= size <= 500 && mapping.Some? && file.Some? ==>
              && (outcome == Err(ValidatorRaised) <==> Validator.Validated(rt, mapping.value).Raised?)
              && (outcome == Err(MappingInvalid) <==>
                    Validator.Validated(rt, mapping.value).Found? && Validator.Validated(rt, mapping.value).problems != [])
              && (outcome.Ok? <==> Validator.Valid(rt, mapping.value))
              && (outcome.Ok? ==>
                    var results := ResultsOf(rt, mapping.value, 0, 1, Take(file.value, size));
                    && outcome.value.sampled == |Take(file.value, size)|
                    && Shows(results, outcome.value.wouldImport, outcome.value.shown)
                    && outcome.value.wouldReject == RejectedLines(results)
                    && outcome.value.issues == IssuesOf(results))
  {
    assert MAX_SAMPLE_SIZE == 500;
    hide *;
    if size < 1 || size > MAX_SAMPLE_SIZE {
      return Err(SampleSize);
    }
    unit.Enter();
    if mapping.None? {
      unit.Exit();
      return Err(MappingNotFound);
    }
    if file.None? {
      unit.Exit();
      return Err(FileNotFound);
    }
    unit.Exit();
    var checked := Validator.Validate(rt, mapping.value);
    RunImport.IsValid(rt, mapping.value);
    if checked.Raised? {
      return Err(ValidatorRaised);
    }
    if checked.problems != [] {
      return Err(MappingInvalid);
    }
    RunImport.AcceptedTargets(rt, mapping.value);
    var preview := Sample(rt, mapping.value, Take(file.value, size));
    return Ok(preview);
  }
}
