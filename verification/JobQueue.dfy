/**
 The job queue: each operation is one UPDATE of the rows of `import_run`. The
 class holds the committed rows; the machine below it splits a claim into the
 lock its sub-select takes and the update it then makes, and interleaves the
 steps of any number of workers.
 */
module JobQueue {
  import opened Values

  type RunId = nat
  type Worker = nat

  datatype Status = Pending | Running | Succeeded | Partial | Failed | Cancelled

  datatype Row = Row(status: Status, lockedBy: Option<Worker>, created: int, attempts: nat,
                     started: bool, finished: bool, error: Option<string>)

  type Rows = map<RunId, Row>

  predicate Terminal(status: Status) {
    !status.Pending? && !status.Running?
  }

  /** `import_runs.create`. */
  function Fresh(created: int): Row {
    Row(Pending, None, created, 0, false, false, None)
  }

  /** `_CLAIM`, `_ENQUEUE`, `_SUCCEED`, `_FAIL`: the columns each one sets. */
  function Claimed(row: Row, worker: Worker): Row {
    row.(status := Running, lockedBy := Some(worker), attempts := row.attempts + 1, started := true)
  }

  function Requeued(row: Row): Row {
    row.(status := Pending, lockedBy := None)
  }

  function Finished(row: Row, status: Status): Row {
    row.(status := status, lockedBy := None, finished := true)
  }

  function Broken(row: Row, error: string): Row {
    row.(status := Failed, lockedBy := None, finished := true, error := Some(if |error| <= 2000 then error else error[..2000]))
  }

  /** `import_runs.save_report`: the status, not the lock. */
  function Reported(row: Row, status: Status): Row {
    row.(status := status, finished := true)
  }

  /** The bound on an error's text. */
  predicate Cut(text: string, limit: nat, t: string) {
    if |text| <= limit then t == text else |t| == limit && t <= text
  }

  /** What each statement sets, column by column, and what it leaves. */
  lemma {:induction false} ColumnsMean(row: Row, worker: Worker, status: Status, error: string)
    ensures Claimed(row, worker) == Row(Running, Some(worker), row.created, row.attempts + 1, true, row.finished, row.error)
    ensures Requeued(row) == Row(Pending, None, row.created, row.attempts, row.started, row.finished, row.error)
    ensures Finished(row, status) == Row(status, None, row.created, row.attempts, row.started, true, row.error)
    ensures Reported(row, status) == Row(status, row.lockedBy, row.created, row.attempts, row.started, true, row.error)
    ensures var broken := Broken(row, error);
            && broken == Row(Failed, None, row.created, row.attempts, row.started, true, broken.error)
            && broken.error.Some? && Cut(error, 2000, broken.error.value)
  {
  }

  /** The oldest pending row outside `locked`. */
  predicate Oldest(rows: Rows, locked: set<RunId>, run: RunId) {
    && run in rows && rows[run].status.Pending? && run !in locked
    && forall other :: other in rows && rows[other].status.Pending? && other !in locked ==> rows[run].created <= rows[other].created
  }

  predicate NonePending(rows: Rows, locked: set<RunId>) {
    forall run :: run in rows && rows[run].status.Pending? ==> run in locked
  }

  /** The sub-select of `_CLAIM`: ORDER BY created_at, SKIP LOCKED, LIMIT 1. */
  method SelectOldest(rows: Rows, locked: set<RunId>) returns (run: Option<RunId>)
    ensures run.Some? ==> Oldest(rows, locked, run.value)
    ensures run.None? ==> NonePending(rows, locked)
  {
    run := None;
    var rest := rows.Keys - locked;
    while rest != {}
      invariant rest <= rows.Keys - locked
      invariant run.Some? ==> run.value in rows && run.value !in locked && rows[run.value].status.Pending?
      invariant forall other :: other in rows && other !in locked && other !in rest && rows[other].status.Pending? ==>
                  run.Some? && rows[run.value].created <= rows[other].created
      decreases |rest|
    {
      var next :| next in rest;
      if rows[next].status.Pending? && (run.None? || rows[next].created < rows[run.value].created) {
        run := Some(next);
      }
      rest := rest - {next};
    }
  }

  class PostgresJobQueue {
    var rows: Rows

    constructor (rows: Rows)
      ensures this.rows == rows
    {
      this.rows := rows;
    }

    method Enqueue(run: RunId)
      modifies this
      ensures rows == if run in old(rows) then old(rows)[run := Requeued(old(rows)[run])] else old(rows)
    {
      if run in rows {
        rows := rows[run := Requeued(rows[run])];
      }
    }

    /** `claim_next`, alone on the rows: it locks and marks the oldest. */
    method ClaimNext(worker: Worker) returns (run: Option<RunId>)
      modifies this
      ensures run.None? ==> rows == old(rows) && NonePending(rows, {})
      ensures run.Some? ==> Oldest(old(rows), {}, run.value) && rows == old(rows)[run.value := Claimed(old(rows)[run.value], worker)]
    {
      run := SelectOldest(rows, {});
      if run.Some? {
        rows := rows[run.value := Claimed(rows[run.value], worker)];
      }
    }

    method MarkSucceeded(run: RunId, status: Status)
      modifies this
      ensures rows == if run in old(rows) then old(rows)[run := Finished(old(rows)[run], status)] else old(rows)
    {
      if run in rows {
        rows := rows[run := Finished(rows[run], status)];
      }
    }

    method MarkFailed(run: RunId, error: string)
      modifies this
      ensures rows == if run in old(rows) then old(rows)[run := Broken(old(rows)[run], error)] else old(rows)
    {
      if run in rows {
        rows := rows[run := Broken(rows[run], error)];
      }
    }
  }

  // --------------------------------------------------------------- the machine

  /** Where a worker is: in `claim_next` with a row locked and not yet marked,
      executing a run, or between the saved report and the release. */
  datatype Phase = Idle | Claiming(run: RunId) | Executing(run: RunId) | Saved(run: RunId)

  /** The committed rows, the workers alive, and every worker there has been. */
  datatype Queue = Queue(rows: Rows, phases: map<Worker, Phase>, born: set<Worker>)

  datatype Step =
    | Start(worker: Worker)
    | Create(run: RunId, created: int)
    | Lock(worker: Worker, run: RunId)
    | Mark(worker: Worker)
    | Abort(worker: Worker)
    | SaveReport(worker: Worker, status: Status)
    | Succeed(worker: Worker, status: Status)
    | Fail(worker: Worker, error: string)
    | Die(worker: Worker)
    | Enqueue(run: RunId)

  /** Rows locked by the transaction of a claim in flight. */
  function Locked(q: Queue): set<RunId> {
    set w | w in q.phases && q.phases[w].Claiming? :: q.phases[w].run
  }

  /** The run is with a worker, from the lock to the release. */
  predicate Held(q: Queue, w: Worker, run: RunId) {
    w in q.phases && !q.phases[w].Idle? && q.phases[w].run == run
  }

  predicate InFlight(q: Queue, run: RunId) {
    exists w :: w in q.phases && Held(q, w, run)
  }

  /** The run has been marked by a worker that has not released it. */
  predicate Working(q: Queue, run: RunId) {
    exists w :: w in q.phases && (q.phases[w] == Executing(run) || q.phases[w] == Saved(run))
  }

  predicate At(q: Queue, w: Worker, phase: Phase) {
    w in q.phases && q.phases[w] == phase
  }

  /** Which steps may happen. A finished status is one that `run_once` gives, and
      a run that a worker is working on is never enqueued: `RequeueExact` says
      that this is the least to ask. */
  predicate Enabled(q: Queue, step: Step) {
    match step
    case Start(w) => w !in q.born
    case Create(run, _) => run !in q.rows
    case Lock(w, run) => At(q, w, Idle) && Oldest(q.rows, Locked(q), run)
    case Mark(w) => w in q.phases && q.phases[w].Claiming? && q.phases[w].run in q.rows
    case Abort(w) => w in q.phases && q.phases[w].Claiming?
    case SaveReport(w, status) =>
      w in q.phases && q.phases[w].Executing? && q.phases[w].run in q.rows && (status.Succeeded? || status.Partial?)
    case Succeed(w, status) =>
      w in q.phases && q.phases[w].Saved? && q.phases[w].run in q.rows && (status.Succeeded? || status.Partial?)
    case Fail(w, _) => w in q.phases && (q.phases[w].Executing? || q.phases[w].Saved?) && q.phases[w].run in q.rows
    case Die(w) => w in q.phases
    case Enqueue(run) => run in q.rows && !Working(q, run)
  }

  function Next(q: Queue, step: Step): Queue
    requires Enabled(q, step)
  {
    match step
    case Start(w) => q.(phases := q.phases[w := Idle], born := q.born + {w})
    case Create(run, created) => q.(rows := q.rows[run := Fresh(created)])
    case Lock(w, run) => q.(phases := q.phases[w := Claiming(run)])
    case Mark(w) =>
      var run := q.phases[w].run;
      q.(rows := q.rows[run := Claimed(q.rows[run], w)], phases := q.phases[w := Executing(run)])
    case Abort(w) => q.(phases := q.phases[w := Idle])
    case SaveReport(w, status) =>
      var run := q.phases[w].run;
      q.(rows := q.rows[run := Reported(q.rows[run], status)], phases := q.phases[w := Saved(run)])
    case Succeed(w, status) =>
      var run := q.phases[w].run;
      q.(rows := q.rows[run := Finished(q.rows[run], status)], phases := q.phases[w := Idle])
    case Fail(w, error) =>
      var run := q.phases[w].run;
      q.(rows := q.rows[run := Broken(q.rows[run], error)], phases := q.phases[w := Idle])
    case Die(w) => q.(phases := q.phases - {w})
    case Enqueue(run) => q.(rows := q.rows[run := Requeued(q.rows[run])])
  }

  /** A step touches at most one row, and at most one worker. */
  ghost predicate OnlyRow(q: Queue, next: Queue, run: RunId) {
    next.rows.Keys == q.rows.Keys + {run} && forall other :: other in q.rows && other != run ==> next.rows[other] == q.rows[other]
  }

  ghost predicate OnlyWorker(q: Queue, next: Queue, w: Worker, phase: Phase) {
    next.phases.Keys == q.phases.Keys + {w} && next.phases[w] == phase
    && forall other :: other in q.phases && other != w ==> next.phases[other] == q.phases[other]
  }

  /** What each step does to its row and its worker, column by column. */
  lemma {:induction false} StepsMean(q: Queue, step: Step)
    requires Enabled(q, step)
    ensures var next := Next(q, step);
            match step
            case Start(w) => next.rows == q.rows && OnlyWorker(q, next, w, Idle) && next.born == q.born + {w}
            case Create(run, created) =>
              && OnlyRow(q, next, run) && next.phases == q.phases
              && next.rows[run] == Row(Pending, None, created, 0, false, false, None)
            case Lock(w, run) => next.rows == q.rows && OnlyWorker(q, next, w, Claiming(run))
            case Mark(w) =>
              var run := q.phases[w].run;
              && OnlyRow(q, next, run) && OnlyWorker(q, next, w, Executing(run))
              && next.rows[run].status == Running && next.rows[run].lockedBy == Some(w)
              && next.rows[run].attempts == q.rows[run].attempts + 1 && next.rows[run].started
            case Abort(w) => next.rows == q.rows && OnlyWorker(q, next, w, Idle)
            case SaveReport(w, status) =>
              var run := q.phases[w].run;
              && OnlyRow(q, next, run) && OnlyWorker(q, next, w, Saved(run))
              && next.rows[run].status == status && next.rows[run].finished && next.rows[run].lockedBy == q.rows[run].lockedBy
            case Succeed(w, status) =>
              var run := q.phases[w].run;
              && OnlyRow(q, next, run) && OnlyWorker(q, next, w, Idle)
              && next.rows[run].status == status && next.rows[run].finished && next.rows[run].lockedBy == None
            case Fail(w, error) =>
              var run := q.phases[w].run;
              && OnlyRow(q, next, run) && OnlyWorker(q, next, w, Idle)
              && next.rows[run].status == Failed && next.rows[run].finished && next.rows[run].lockedBy == None
              && next.rows[run].error.Some? && Cut(error, 2000, next.rows[run].error.value)
            case Die(w) => next.rows == q.rows && next.phases.Keys == q.phases.Keys - {w}
                           && forall other :: other in next.phases ==> next.phases[other] == q.phases[other]
            case Enqueue(run) =>
              && OnlyRow(q, next, run) && next.phases == q.phases
              && next.rows[run].status == Pending && next.rows[run].lockedBy == None && next.rows[run].attempts == q.rows[run].attempts
    ensures !step.Start? ==> Next(q, step).born == q.born
  {
    hide Oldest, Locked, Working;
  }

  predicate Enactable(q: Queue, steps: seq<Step>)
    decreases |steps|
  {
    steps != [] ==> Enabled(q, steps[0]) && Enactable(Next(q, steps[0]), steps[1..])
  }

  /** The queue after a run of the machine. */
  function Run(q: Queue, steps: seq<Step>): Queue
    requires Enactable(q, steps)
    decreases |steps|
  {
    if steps == [] then q else Run(Next(q, steps[0]), steps[1..])
  }

  // --------------------------------------------------------------- invariants

  /** No run is with two workers. */
  predicate Exclusive(q: Queue) {
    forall v, w :: v in q.phases && w in q.phases && v != w && !q.phases[v].Idle? && !q.phases[w].Idle? ==>
      q.phases[v].run != q.phases[w].run
  }

  /** A row agrees with the worker that has it. */
  predicate Agreed(q: Queue, w: Worker)
    requires w in q.phases
  {
    match q.phases[w]
    case Idle => true
    case Claiming(run) => run in q.rows && q.rows[run].status.Pending?
    case Executing(run) => run in q.rows && q.rows[run].status.Running? && q.rows[run].lockedBy == Some(w)
    case Saved(run) => run in q.rows && Terminal(q.rows[run].status) && q.rows[run].lockedBy == Some(w)
  }

  /** A pending row carries no lock; a locked one is with its worker, or was
      when that worker died; a running one is locked. */
  predicate Sound(q: Queue, run: RunId)
    requires run in q.rows
  {
    var row := q.rows[run];
    && (row.status.Pending? ==> row.lockedBy.None?)
    && (row.status.Running? ==> row.lockedBy.Some?)
    && (row.lockedBy.Some? ==>
          var w := row.lockedBy.value;
          w in q.born && (w in q.phases ==> Held(q, w, run) && !q.phases[w].Claiming?))
  }

  predicate Safe(q: Queue) {
    && q.phases.Keys <= q.born
    && Exclusive(q)
    && (forall w :: w in q.phases ==> Agreed(q, w))
    && (forall run :: run in q.rows ==> Sound(q, run))
  }

  /** A queue of pending and finished runs, before any worker starts. */
  predicate Initial(q: Queue) {
    && q.phases == map[] && q.born == {}
    && forall run :: run in q.rows ==> q.rows[run].lockedBy.None? && !q.rows[run].status.Running?
  }

  lemma InitialIsSafe(q: Queue)
    requires Initial(q)
    ensures Safe(q)
  {
  }

  lemma StaysExclusive(q: Queue, step: Step)
    requires Safe(q) && Enabled(q, step)
    ensures Exclusive(Next(q, step))
  {
    match step {
      case Lock(w, run) =>
        forall v | v in q.phases && v != w && !q.phases[v].Idle? ensures q.phases[v].run != run {
          if q.phases[v].Claiming? {
            assert q.phases[v].run in Locked(q);
          }
          assert Agreed(q, v);
        }
      case _ =>
    }
  }

  lemma StaysAgreed(q: Queue, step: Step, w: Worker)
    requires Safe(q) && Enabled(q, step) && w in Next(q, step).phases
    ensures Agreed(Next(q, step), w)
  {
    assert w in q.phases ==> Agreed(q, w);
    if step.Enqueue? && w in q.phases && !q.phases[w].Idle? && q.phases[w].run == step.run {
      assert !Working(q, step.run) && q.phases[w].Claiming?;
    }
  }

  lemma StaysSound(q: Queue, step: Step, run: RunId)
    requires Safe(q) && Enabled(q, step) && run in Next(q, step).rows
    ensures Sound(Next(q, step), run)
  {
    assert run in q.rows ==> Sound(q, run);
  }

  lemma {:induction false} StepIsSafe(q: Queue, step: Step)
    requires Safe(q) && Enabled(q, step)
    ensures Safe(Next(q, step))
  {
    hide Agreed, Sound, Exclusive;
    var after := Next(q, step);
    StaysExclusive(q, step);
    forall w | w in after.phases ensures Agreed(after, w) {
      StaysAgreed(q, step, w);
    }
    forall run | run in after.rows ensures Sound(after, run) {
      StaysSound(q, step, run);
    }
  }

  /** Queue safety, over every interleaving of any number of workers. */
  lemma {:induction false} RunIsSafe(q: Queue, steps: seq<Step>)
    requires Safe(q) && Enactable(q, steps)
    ensures Safe(Run(q, steps))
    decreases |steps|
  {
    hide Safe, Enabled, Next;
    if steps != [] {
      StepIsSafe(q, steps[0]);
      RunIsSafe(Next(q, steps[0]), steps[1..]);
    }
  }

  /** Every reachable queue is safe, from any runs and before any worker starts. */
  lemma {:induction false} ReachableIsSafe(q: Queue, steps: seq<Step>)
    requires Initial(q) && Enactable(q, steps)
    ensures Safe(Run(q, steps))
  {
    InitialIsSafe(q);
    RunIsSafe(q, steps);
  }

  /** A claim marks a row that is pending and free, and no one else's: what was
      the oldest when it was locked is still pending when it is marked. */
  lemma ClaimTakesPending(q: Queue, w: Worker)
    requires Safe(q) && Enabled(q, Mark(w))
    ensures var run := q.phases[w].run;
            && q.rows[run].status.Pending? && q.rows[run].lockedBy.None?
            && forall v :: v != w ==> !Held(q, v, run)
  {
    assert Agreed(q, w) && Sound(q, q.phases[w].run);
  }

  /** A released run is terminal and unlocked, and with nobody. */
  lemma ReleaseFrees(q: Queue, step: Step)
    requires Safe(q) && Enabled(q, step) && (step.Succeed? || step.Fail?)
    ensures var run, after := q.phases[step.worker].run, Next(q, step);
            Terminal(after.rows[run].status) && after.rows[run].lockedBy.None? && !InFlight(after, run)
  {
    var run, after := q.phases[step.worker].run, Next(q, step);
    forall w ensures !Held(after, w, run) {
      assert Held(after, w, run) ==> Held(q, w, run);
    }
  }

  // ------------------------------------------------------------- claimed once

  /** The run that a step claims. */
  predicate Claims(q: Queue, step: Step, run: RunId) {
    step.Mark? && step.worker in q.phases && q.phases[step.worker] == Claiming(run)
  }

  function ClaimCount(q: Queue, steps: seq<Step>, run: RunId): nat
    requires Enactable(q, steps)
    decreases |steps|
  {
    if steps == [] then 0 else (if Claims(q, steps[0], run) then 1 else 0) + ClaimCount(Next(q, steps[0]), steps[1..], run)
  }

  function EnqueueCount(steps: seq<Step>, run: RunId): nat {
    if steps == [] then 0 else (if steps[0] == Enqueue(run) then 1 else 0) + EnqueueCount(steps[1..], run)
  }

  /** How many claims the run is still good for, without being enqueued. */
  function Credit(q: Queue, run: RunId): nat {
    if run !in q.rows || q.rows[run].status.Pending? then 1 else 0
  }

  lemma CreditStep(q: Queue, step: Step, run: RunId)
    requires Safe(q) && Enabled(q, step)
    ensures (if Claims(q, step, run) then 1 else 0) + Credit(Next(q, step), run)
         <= Credit(q, run) + (if step == Enqueue(run) then 1 else 0)
  {
    match step {
      case Mark(w) => ClaimTakesPending(q, w);
      case SaveReport(w, _) => assert Agreed(q, w);
      case Succeed(w, _) => assert Agreed(q, w);
      case Fail(w, _) => assert Agreed(q, w);
      case _ =>
    }
  }

  /** A run is claimed at most once, plus once for each time it is enqueued:
      without `enqueue`, no run is claimed twice, by any workers. */
  lemma {:induction false} ClaimedOnce(q: Queue, steps: seq<Step>, run: RunId)
    requires Safe(q) && Enactable(q, steps)
    ensures ClaimCount(q, steps, run) <= Credit(q, run) + EnqueueCount(steps, run)
    ensures EnqueueCount(steps, run) == 0 ==> ClaimCount(q, steps, run) <= 1
    decreases |steps|
  {
    hide Safe, Enabled, Next, Claims;
    if steps != [] {
      StepIsSafe(q, steps[0]);
      CreditStep(q, steps[0], run);
      ClaimedOnce(Next(q, steps[0]), steps[1..], run);
    }
  }

  /** `attempts` counts the claims. */
  lemma {:induction false} AttemptsCount(q: Queue, steps: seq<Step>, run: RunId)
    requires Safe(q) && Enactable(q, steps) && run in q.rows
    ensures run in Run(q, steps).rows
    ensures Run(q, steps).rows[run].attempts == q.rows[run].attempts + ClaimCount(q, steps, run)
    decreases |steps|
  {
    hide Safe;
    if steps != [] {
      StepIsSafe(q, steps[0]);
      AttemptsCount(Next(q, steps[0]), steps[1..], run);
    }
  }

  /** Enqueuing keeps the queue safe if and only if no worker is working on the
      run; on one that is only locked it changes nothing. */
  lemma {:induction false} RequeueExact(q: Queue, run: RunId)
    requires Safe(q) && run in q.rows
    ensures Safe(q.(rows := q.rows[run := Requeued(q.rows[run])])) <==> !Working(q, run)
  {
    var after := q.(rows := q.rows[run := Requeued(q.rows[run])]);
    if Working(q, run) {
      var w :| w in q.phases && (q.phases[w] == Executing(run) || q.phases[w] == Saved(run));
      assert !Agreed(after, w);
    } else {
      assert after == Next(q, Enqueue(run));
      StepIsSafe(q, Enqueue(run));
    }
  }

  /** And what follows when a worker is: a second worker takes the run while the
      first executes it. */
  lemma EnqueueInFlightBreaks()
    ensures exists q: Queue, run, v, w ::
              Safe(q) && v in q.phases && w in q.phases && v != w && Held(q, v, run) && At(q, w, Idle) && run in q.rows
              && var early := q.(rows := q.rows[run := Requeued(q.rows[run])]);
                 && Enabled(early, Lock(w, run))
                 && var locked := Next(early, Lock(w, run));
                    Enabled(locked, Mark(w)) && !Exclusive(Next(locked, Mark(w)))
  {
    var row := Claimed(Fresh(0), 1);
    var q := Queue(map[7 := row], map[1 := Executing(7), 2 := Idle], {1, 2});
    assert Agreed(q, 1) && Sound(q, 7) && Safe(q);
    var early := q.(rows := q.rows[7 := Requeued(row)]);
    assert Locked(early) == {};
    assert Enabled(early, Lock(2, 7));
    var locked := Next(early, Lock(2, 7));
    var marked := Next(locked, Mark(2));
    assert marked.phases[1].run == marked.phases[2].run;
    assert Held(q, 1, 7) && At(q, 2, Idle);
  }

  /** The atomic `ClaimNext` is a lock and a mark with nothing in between. */
  lemma ClaimIsLockThenMark(q: Queue, w: Worker, run: RunId)
    requires At(q, w, Idle) && Locked(q) == {} && Oldest(q.rows, {}, run)
    ensures Enabled(q, Lock(w, run)) && Enabled(Next(q, Lock(w, run)), Mark(w))
    ensures var after := Next(Next(q, Lock(w, run)), Mark(w));
            after.rows == q.rows[run := Claimed(q.rows[run], w)] && after.phases == q.phases[w := Executing(run)]
  {
  }
}
