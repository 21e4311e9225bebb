/**
 The issues of a run, and the lines they reject. A line with a rejected issue is
 one rejected record, however many of its issues say so.
 */
module Rejections {
  import opened Values
  import opened Mappings
  import opened EngineLaws
  import opened Normalizer
  import opened Accounting
  import opened Importing
  import opened Reporting

  /** The issues of the results, line by line. */
  function IssuesOf(results: seq<NormResult>): seq<Issue> {
    if results == [] then [] else IssuesOf(results[..|results| - 1]) + results[|results| - 1].issues
  }

  /** All of them: those of one more line come after those of the lines before. */
  lemma {:induction false} IssuesMean(results: seq<NormResult>, r: NormResult, issues: seq<Issue>, issue: Issue)
    ensures IssuesOf([]) == [] && IssuesOf(results + [r]) == IssuesOf(results) + r.issues
    ensures OfLines([]) == [] && OfLines(issues + [issue]) == if issue.line == None then OfLines(issues) else OfLines(issues) + [issue]
  {
    assert (results + [r])[..|results|] == results && (issues + [issue])[..|issues|] == issues;
    assert OfLines(issues) + [] == OfLines(issues);
  }

  /** The lines that have a rejected issue. */
  function RejectedSet(issues: seq<Issue>): set<nat> {
    set i | 0 <= i < |issues| && issues[i].severity.Rejected? && issues[i].line.Some? :: issues[i].line.value
  }

  /** The issues that name a line: all but those a run reports on a batch. */
  function OfLines(issues: seq<Issue>): seq<Issue> {
    if issues == [] then []
    else
      var n := |issues| - 1;
      OfLines(issues[..n]) + (if issues[n].line.Some? then [issues[n]] else [])
  }

  lemma RejectedSetConcat(a: seq<Issue>, b: seq<Issue>)
    ensures RejectedSet(a + b) == RejectedSet(a) + RejectedSet(b)
  {
    forall line | line in RejectedSet(a) + RejectedSet(b) ensures line in RejectedSet(a + b) {
      if line in RejectedSet(a) {
        var i :| 0 <= i < |a| && a[i].severity.Rejected? && a[i].line == Some(line);
        assert (a + b)[i] == a[i];
      } else {
        var i :| 0 <= i < |b| && b[i].severity.Rejected? && b[i].line == Some(line);
        assert (a + b)[|a| + i] == b[i];
      }
    }
  }

  lemma {:induction false} OfLinesConcat(a: seq<Issue>, b: seq<Issue>)
    ensures OfLines(a + b) == OfLines(a) + OfLines(b)
    decreases |b|
  {
    if b == [] {
      assert a + b == a;
    } else {
      assert (a + b)[..|a + b| - 1] == a + b[..|b| - 1];
      OfLinesConcat(a, b[..|b| - 1]);
    }
  }

  lemma RejectedSetAt(issues: seq<Issue>, line: nat)
    requires AllAt(issues, Some(line))
    ensures RejectedSet(issues) == if SomeRejected(issues) then {line} else {}
  {
    if SomeRejected(issues) {
      var i :| 0 <= i < |issues| && issues[i].severity.Rejected?;
      assert issues[i].line == Some(line);
    }
  }

  lemma {:induction false} OfLinesAt(issues: seq<Issue>, line: nat)
    requires AllAt(issues, Some(line))
    ensures OfLines(issues) == issues
  {
    if issues != [] {
      OfLinesAt(issues[..|issues| - 1], line);
    }
  }

  lemma CleanIssues(r: NormResult, line: nat)
    requires CleanAt(r, line)
    ensures AllAt(r.issues, Some(line))
  {
  }

  /** The distinct lines with a rejected issue are as many as the results with
      one, and all lines of the file. */
  lemma {:induction false} RejectedLineCount(results: seq<NormResult>, start: nat)
    requires Clean(results, start)
    ensures |RejectedSet(IssuesOf(results))| == RejectedLines(results)
    ensures forall line :: line in RejectedSet(IssuesOf(results)) ==> start <= line < start + |results|
    ensures OfLines(IssuesOf(results)) == IssuesOf(results)
  {
    hide CleanAt, RejectedSet, SomeRejected, AllAt;
    if results == [] {
      NothingRejected();
    } else {
      var n := |results| - 1;
      var before, last := IssuesOf(results[..n]), results[n].issues;
      RejectedLineCount(results[..n], start);
      CleanIssues(results[n], start + n);
      RejectedSetConcat(before, last);
      RejectedSetAt(last, start + n);
      OfLinesConcat(before, last);
      OfLinesAt(last, start + n);
    }
  }

  /** Only a notice of repeats speaks for no line in particular. */
  predicate OnlyRepeats(issues: seq<Issue>) {
    forall i :: 0 <= i < |issues| && issues[i].line.None? ==>
      && issues[i].reason.AlreadyImported? && issues[i].reason.rows > 0
      && issues[i].severity == Duplicate && issues[i].place == Nowhere
  }

  /** How many repeats those notices count. */
  function Announced(issues: seq<Issue>): nat {
    if issues == [] then 0
    else
      var last := issues[|issues| - 1];
      Announced(issues[..|issues| - 1]) + if last.line.None? && last.reason.AlreadyImported? then last.reason.rows else 0
  }

  lemma {:induction false} AnnouncedConcat(a: seq<Issue>, b: seq<Issue>)
    ensures Announced(a + b) == Announced(a) + Announced(b)
    decreases |b|
  {
    if b == [] {
      assert a + b == a;
    } else {
      assert (a + b)[..|a + b| - 1] == a + b[..|b| - 1];
      AnnouncedConcat(a, b[..|b| - 1]);
    }
  }

  /** A line announces nothing for the batch. */
  lemma {:induction false} LinesAnnounceNothing(issues: seq<Issue>)
    ensures OfLines(issues) == issues ==> Announced(issues) == 0
  {
    if issues != [] {
      var n := |issues| - 1;
      LinesAnnounceNothing(issues[..n]);
      FewerLines(issues[..n]);
      if OfLines(issues) == issues {
        assert OfLines(issues[..n]) == issues[..n];
      }
    }
  }

  lemma {:induction false} FewerLines(issues: seq<Issue>)
    ensures |OfLines(issues)| <= |issues|
  {
    if issues != [] {
      FewerLines(issues[..|issues| - 1]);
    }
  }

  lemma OnlyRepeatsConcat(a: seq<Issue>, b: seq<Issue>)
    requires OnlyRepeats(a) && OnlyRepeats(b)
    ensures OnlyRepeats(a + b)
  {
  }

  lemma {:induction false} LinesAreNamed(results: seq<NormResult>, start: nat)
    requires Clean(results, start)
    ensures OnlyRepeats(IssuesOf(results))
  {
    hide CleanAt, AllAt, OnlyRepeats;
    if results == [] {
      assert OnlyRepeats([]) by { NoIssues(); }
    } else {
      var n := |results| - 1;
      LinesAreNamed(results[..n], start);
      CleanIssues(results[n], start + n);
      NamedLines(results[n].issues, start + n);
      OnlyRepeatsConcat(IssuesOf(results[..n]), results[n].issues);
    }
  }

  lemma NoIssues()
    ensures OnlyRepeats([])
  {
  }

  lemma NamedLines(issues: seq<Issue>, line: nat)
    requires AllAt(issues, Some(line))
    ensures OnlyRepeats(issues)
  {
  }

  lemma NothingRejected()
    ensures RejectedSet([]) == {}
  {
  }

  lemma {:induction false} RejectedAtMost(results: seq<NormResult>)
    ensures RejectedLines(results) <= |results|
  {
    hide SomeRejected;
    if results != [] {
      RejectedAtMost(results[..|results| - 1]);
    }
  }

  lemma {:induction false} IssuesConcat(a: seq<NormResult>, b: seq<NormResult>)
    ensures IssuesOf(a + b) == IssuesOf(a) + IssuesOf(b)
    decreases |b|
  {
    if b == [] {
      assert a + b == a;
    } else {
      assert (a + b)[..|a + b| - 1] == a + b[..|b| - 1];
      IssuesConcat(a, b[..|b| - 1]);
    }
  }
}
