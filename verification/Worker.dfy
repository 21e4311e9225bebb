/**
 The import worker: claim a job, run it, release it, repeat. The importer is a
 parameter: what it does on a run, and whether the two statements that release
 the run raise.
 */
module Worker {
  import opened Values
  import opened JobQueue

  /** What a statement raises: nothing, an `Exception`, or another of the base
      exceptions, such as a cancellation, which `except Exception` lets by. */
  datatype Raise = Nothing | Error | Cancel

  /** The importer returns, with the records it rejected, or raises, after it has
      saved its report or before. */
  datatype Execution = Returned(rejected: nat) | Raised(reported: Option<nat>, cancelled: bool)

  function StatusFor(rejected: nat): Status {
    if rejected > 0 then Partial else Succeeded
  }

  /** How a run goes: the import, then `mark_succeeded` or `mark_failed`. A
      statement that raises leaves its row as it was. */
  datatype Job = Job(execution: Execution, summary: string, succeed: Raise, fail: Raise)
  {
    /** The row when the import is over, before it is released. */
    function Executed(row: Row): Row {
      match execution
      case Returned(rejected) => Reported(row, StatusFor(rejected))
      case Raised(Some(rejected), _) => Reported(row, StatusFor(rejected))
      case Raised(None, _) => row
    }

    /** What the `try` block raises. */
    function Raises(): Raise {
      match execution
      case Returned(_) => succeed
      case Raised(_, cancelled) => if cancelled then Cancel else Error
    }

    /** An exception goes through: it is not an `Exception`, or the run cannot be
        marked failed. */
    predicate Escapes() {
      Raises().Cancel? || (Raises().Error? && !fail.Nothing?)
    }

    /** The row after `run_once`. */
    function Released(row: Row): Row {
      if Raises().Nothing? then Finished(Executed(row), StatusFor(execution.rejected))
      else if Escapes() then Executed(row)
      else Broken(Executed(row), summary)
    }
  }

  /** When an exception goes through, and what it leaves in the row: the status
      the import saved, or `running`, and the lock. */
  lemma {:induction false} EscapeMeans(job: Job, row: Row)
    ensures var raised := if job.execution.Returned? then job.succeed else if job.execution.cancelled then Cancel else Error;
            job.Escapes() <==> raised == Cancel || (raised == Error && job.fail != Nothing)
    ensures job.Escapes() ==>
              var after := job.Released(row);
              && after.lockedBy == row.lockedBy && after.attempts == row.attempts && after.created == row.created && after.error == row.error
              && if job.execution.Returned? then after.status == if job.execution.rejected > 0 then Partial else Succeeded
                 else if job.execution.reported.Some? then after.status == if job.execution.reported.value > 0 then Partial else Succeeded
                 else after.status == row.status
  {
  }

  /** `run_once` returns False or True, lets an exception of a job through, or one
      of the claim itself. */
  datatype Turn = NoJob | Worked | Escaped | ClaimRaised

  function PendingRuns(rows: Rows): set<RunId> {
    set run | run in rows && rows[run].status.Pending?
  }

  predicate Freed(rows: Rows, run: RunId) {
    run in rows && Terminal(rows[run].status) && rows[run].lockedBy.None?
  }

  /** `jobs` have been executed, the oldest first, and freed; the rest is as it was. */
  ghost predicate Progress(rows: Rows, now: Rows, jobs: seq<RunId>) {
    && now.Keys == rows.Keys
    && (forall i :: 0 <= i < |jobs| ==> jobs[i] in PendingRuns(rows) && Freed(now, jobs[i]))
    && (forall i, j :: 0 <= i < j < |jobs| ==> jobs[i] != jobs[j] && rows[jobs[i]].created <= rows[jobs[j]].created)
    && (forall i, run :: 0 <= i < |jobs| && run in PendingRuns(now) ==> rows[jobs[i]].created <= rows[run].created)
    && (forall run :: run in rows && run !in jobs ==> now[run] == rows[run])
    && |PendingRuns(now)| + |jobs| == |PendingRuns(rows)|
  }

  lemma ProgressStep(rows: Rows, now: Rows, jobs: seq<RunId>, run: RunId, row: Row)
    requires Progress(rows, now, jobs) && Oldest(now, {}, run)
    requires Freed(now[run := row], run)
    ensures Progress(rows, now[run := row], jobs + [run])
    ensures |PendingRuns(now[run := row])| < |PendingRuns(now)|
  {
    PendingShrinks(now, run, row);
    assert run in PendingRuns(now) && run !in jobs && now[run] == rows[run];
    assert PendingRuns(now[run := row]) <= PendingRuns(now);
  }

  /** The last job may be in hand: its row is no longer pending. */
  ghost predicate Interrupted(rows: Rows, now: Rows, jobs: seq<RunId>) {
    && jobs != []
    && now.Keys == rows.Keys
    && (forall i :: 0 <= i < |jobs| ==> jobs[i] in PendingRuns(rows))
    && (forall i, j :: 0 <= i < j < |jobs| ==> jobs[i] != jobs[j] && rows[jobs[i]].created <= rows[jobs[j]].created)
    && (forall i :: 0 <= i < |jobs| - 1 ==> Freed(now, jobs[i]))
    && (forall run :: run in rows && run !in jobs ==> now[run] == rows[run])
    && now[jobs[|jobs| - 1]].lockedBy.Some?
  }

  lemma Interrupt(rows: Rows, now: Rows, jobs: seq<RunId>, run: RunId, row: Row)
    requires Progress(rows, now, jobs) && Oldest(now, {}, run) && row.lockedBy.Some?
    ensures Interrupted(rows, now[run := row], jobs + [run])
  {
    assert run in PendingRuns(now) && run !in jobs && now[run] == rows[run];
  }

  class ImportWorker {
    const queue: PostgresJobQueue
    const id: JobQueue.Worker
    const importer: RunId -> Job
    /** Whether `claim_next` raises, after this many jobs. */
    const claimRaises: nat -> bool
    var stopping: bool
    var processed: nat
    /** The runs executed, in order. */
    ghost var executed: seq<RunId>

    constructor (queue: PostgresJobQueue, id: JobQueue.Worker, importer: RunId -> Job, claimRaises: nat -> bool)
      ensures this.queue == queue && this.id == id && this.importer == importer && this.claimRaises == claimRaises
      ensures !stopping && processed == 0 && executed == []
    {
      this.queue, this.id, this.importer, this.claimRaises := queue, id, importer, claimRaises;
      stopping, processed, executed := false, 0, [];
    }

    method RequestStop()
      modifies this`stopping
      ensures stopping
    {
      stopping := true;
    }

    /** `run_once`. Whenever it returns True, the run it claimed is terminal and
        unlocked, whether the importer returned or raised. An exception of the
        claim goes through and leaves everything as it was. One of the job goes
        through exactly when it is no `Exception` or the run cannot be marked
        failed, and leaves the run with the worker's lock. */
    method RunOnce() returns (turn: Turn, ghost run: RunId)
      modifies this`processed, this`executed, queue
      ensures turn.ClaimRaised? <==> claimRaises(old(processed))
      ensures turn.NoJob? <==> !claimRaises(old(processed)) && PendingRuns(old(queue.rows)) == {}
      ensures turn.NoJob? || turn.ClaimRaised? ==>
                queue.rows == old(queue.rows) && processed == old(processed) && executed == old(executed)
      ensures turn.Worked? || turn.Escaped? ==>
                && processed == old(processed) + 1 && executed == old(executed) + [run]
                && Oldest(old(queue.rows), {}, run)
                && queue.rows == old(queue.rows)[run := importer(run).Released(Claimed(old(queue.rows)[run], id))]
                && (turn.Escaped? <==> importer(run).Escapes())
      ensures turn.Worked? ==> Freed(queue.rows, run)
      ensures turn.Worked? ==>
                var execution, status := importer(run).execution, queue.rows[run].status;
                if execution.Returned? && importer(run).succeed.Nothing?
                then status == if execution.rejected > 0 then Partial else Succeeded
                else status == Failed && queue.rows[run].error.Some? && Cut(importer(run).summary, 2000, queue.rows[run].error.value)
      ensures turn.Escaped? ==> queue.rows[run].lockedBy == Some(id)
    {
      if claimRaises(processed) {
        return ClaimRaised, 0;
      }
      var claimed := queue.ClaimNext(id);
      if claimed.None? {
        return NoJob, 0;
      }
      run := claimed.value;
      var job := importer(claimed.value);
      assert run in PendingRuns(old(queue.rows));
      executed := executed + [run];
      queue.rows := queue.rows[claimed.value := job.Executed(queue.rows[claimed.value])];
      turn := Worked;
      if job.Raises().Nothing? {
        queue.MarkSucceeded(claimed.value, StatusFor(job.execution.rejected));
      } else if job.Escapes() {
        turn := Escaped;
      } else {
        queue.MarkFailed(claimed.value, job.summary);
      }
      processed := processed + 1;
    }

    /** `run_forever` with `stop_when_idle`, and nothing new arriving: it ends,
        and every pending run is executed once, the oldest first, and freed.
        `signal` is a stop request that comes during that job, or before the
        first: no run is claimed after it. An exception of `run_once` ends the
        loop as well, and leaves only its own run, if any, with a lock. */
    method Drain(signal: Option<nat>) returns (last: Turn, ghost jobs: seq<RunId>)
      modifies this`stopping, this`processed, this`executed, queue
      ensures executed == old(executed) + jobs && processed == old(processed) + |jobs|
      ensures if last.Escaped? then Interrupted(old(queue.rows), queue.rows, jobs) else Progress(old(queue.rows), queue.rows, jobs)
      ensures last.ClaimRaised? ==> claimRaises(processed)
      ensures !last.Escaped? && !last.ClaimRaised? ==>
                var pending := |PendingRuns(old(queue.rows))|;
                |jobs| == if old(stopping) then 0 else if signal.Some? && signal.value <= pending then signal.value else pending
      ensures old(stopping) ==> jobs == []
    {
      hide *;
      ghost var rows := queue.rows;
      jobs := [];
      assert old(executed) + jobs == old(executed);
      var done := 0;
      last := Worked;
      NoProgress(rows);
      if signal == Some(0) {
        RequestStop();
      }
      while !stopping
        invariant executed == old(executed) + jobs && processed == old(processed) + done && done == |jobs|
        invariant signal.Some? ==> done <= signal.value
        invariant stopping <==> old(stopping) || (signal.Some? && signal.value == done)
        invariant old(stopping) ==> done == 0
        invariant Progress(rows, queue.rows, jobs) && last.Worked?
        decreases |PendingRuns(queue.rows)|
      {
        ghost var before := queue.rows;
        Counted(rows, before, jobs);
        var turn, run := RunOnce();
        if turn.NoJob? || turn.ClaimRaised? {
          return turn, jobs;
        }
        assert old(executed) + jobs + [run] == old(executed) + (jobs + [run]);
        if turn.Escaped? {
          Interrupt(rows, before, jobs, run, queue.rows[run]);
          return turn, jobs + [run];
        }
        ProgressStep(rows, before, jobs, run, queue.rows[run]);
        jobs := jobs + [run];
        done := done + 1;
        if signal == Some(done) {
          RequestStop();
        }
      }
      Counted(rows, queue.rows, jobs);
    }
  }

  lemma NoProgress(rows: Rows)
    ensures Progress(rows, rows, [])
  {
  }

  lemma Counted(rows: Rows, now: Rows, jobs: seq<RunId>)
    requires Progress(rows, now, jobs)
    ensures |PendingRuns(now)| + |jobs| == |PendingRuns(rows)|
  {
  }

  lemma PendingShrinks(rows: Rows, run: RunId, row: Row)
    requires run in PendingRuns(rows) && !row.status.Pending?
    ensures |PendingRuns(rows[run := row])| == |PendingRuns(rows)| - 1
  {
    assert PendingRuns(rows[run := row]) == PendingRuns(rows) - {run};
  }
}
