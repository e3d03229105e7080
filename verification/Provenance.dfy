/** Where every field of every record comes from. In every run, of any number of processors by any clocks, each
    record was written by a step that is still in the run, and its stamps and counts are those of that step and of
    the record it was made from. (Name, queue, payload and ScheduledAt are those of the accepted job, by Identity.) */
module Provenance {
  import opened Jobs
  import opened Storage
  import opened JobRows
  import L = Lifecycle
  import opened OpenRegime
  import T = Timing

  // ---- who wrote it ----

  /** Step `n` put the job into the schedule, because its time had not passed. */
  ghost predicate WroteScheduled(run: seq<Step>, n: nat, s: ScheduledJob) {
    n < |run| && run[n].Accept? && run[n].job == s && s.phase.enqueueAt >= run[n].checkedAt
  }

  /** Step `n` put the job into its queue: straight away when its time had passed, from a mover's snapshot, or
      from the record that was in failed. */
  ghost predicate WroteQueued(run: seq<Step>, n: nat, e: EnqueuedJob) {
    && n < |run| && Subject(run[n]) == Some(e.id)
    && var failed := After(run[..n]).tables.failed;
       match run[n]
       case Accept(job, checkedAt, stampedAt, _) =>
         job.phase.enqueueAt < checkedAt && e.phase.enqueuedAt == stampedAt && e.phase.retryCount == 0
       case MoveScheduled(_, now) => e.phase.enqueuedAt == now && e.phase.retryCount == 0
       case Retry(id, now) => id in failed && e.phase.enqueuedAt == now && e.phase.retryCount == failed[id].phase.retryCount
       case WebRetry(id, now) => id in failed && e.phase.enqueuedAt == now && e.phase.retryCount == failed[id].phase.retryCount
       case _ => false
  }

  /** Step `n` claimed the job from its queue. */
  ghost predicate WroteClaim(run: seq<Step>, n: nat, c: ProcessingJob) {
    && n < |run| && run[n].Dequeue? && run[n].id == c.id && c.phase.startedAt == run[n].now
    && var queued := After(run[..n]).tables.enqueued;
       && c.id in queued && c.queue == queued[c.id].queue
       && c.phase.enqueuedAt == queued[c.id].phase.enqueuedAt && c.phase.retryCount == queued[c.id].phase.retryCount
  }

  /** Step `n` completed a claim of the job. */
  ghost predicate WroteProcessed(run: seq<Step>, n: nat, d: ProcessedJob) {
    && n < |run| && run[n].Complete? && run[n].held.id == d.id && run[n].held in After(run[..n]).claims
    && d.phase.startedAt == run[n].held.phase.startedAt && d.phase.enqueuedAt == run[n].held.phase.enqueuedAt
    && d.phase.completedAt == run[n].now
  }

  /** Step `n` failed a claim of the job. */
  ghost predicate WroteFailed(run: seq<Step>, n: nat, f: FailedJob) {
    && n < |run| && run[n].Fail? && run[n].held.id == f.id && run[n].held in After(run[..n]).claims
    && f.phase.error == run[n].error && f.phase.lastRetryAt == run[n].now
    && f.phase.retryCount == run[n].held.phase.retryCount + 1 && 1 <= f.phase.retryCount <= 19
    && f.phase.nextRetryAt == run[n].now + T.Cube(f.phase.retryCount) * MINUTE
  }

  /** Step `n` beat for the job, or claimed it. */
  ghost predicate WroteHeartbeat(run: seq<Step>, n: nat, id: JobId, at: Time) {
    n < |run| && (run[n].Heartbeat? || run[n].Dequeue?) && run[n].id == id && run[n].now == at
  }

  // ---- one step ----

  /** A row that a step leaves was there before, or the step wrote it. */
  lemma WritesQueued(r: Rows, step: Step)
    ensures var r' := RowsNext(r, step); r'.enqueued.Some? && r'.enqueued != r.enqueued ==>
      var e := r'.enqueued.value.phase;
      match step
      case Accept(job, checkedAt, stampedAt, _) => job.phase.enqueueAt < checkedAt && e.enqueuedAt == stampedAt && e.retryCount == 0
      case MoveScheduled(_, now) => e.enqueuedAt == now && e.retryCount == 0
      case Retry(_, now) => r.failed.Some? && e.enqueuedAt == now && e.retryCount == r.failed.value.phase.retryCount
      case WebRetry(_, now) => r.failed.Some? && e.enqueuedAt == now && e.retryCount == r.failed.value.phase.retryCount
      case _ => false
  {
  }

  lemma WritesScheduled(r: Rows, step: Step)
    ensures var r' := RowsNext(r, step); r'.scheduled.Some? && r'.scheduled != r.scheduled ==>
      step.Accept? && r'.scheduled.value == step.job && step.job.phase.enqueueAt >= step.checkedAt
  {
  }

  lemma WritesClaim(r: Rows, step: Step)
    ensures var r' := RowsNext(r, step); r'.processing.Some? && r'.processing != r.processing ==>
      && step.Dequeue? && r.enqueued.Some?
      && var c, e := r'.processing.value, r.enqueued.value;
         && c.id == e.id && c.queue == e.queue && c.phase.startedAt == step.now
         && c.phase.enqueuedAt == e.phase.enqueuedAt && c.phase.retryCount == e.phase.retryCount
  {
  }

  lemma WritesProcessed(r: Rows, step: Step)
    ensures var r' := RowsNext(r, step); r'.processed.Some? && r'.processed != r.processed ==>
      && step.Complete?
      && var d, c := r'.processed.value.phase, step.held.phase;
         d.startedAt == c.startedAt && d.enqueuedAt == c.enqueuedAt && d.completedAt == step.now
  {
  }

  lemma WritesFailed(r: Rows, step: Step)
    requires step.Fail? ==> 0 <= step.held.phase.retryCount <= 19
    ensures var r' := RowsNext(r, step); r'.failed.Some? && r'.failed != r.failed ==>
      && step.Fail?
      && var f := r'.failed.value.phase;
         && f.error == step.error && f.lastRetryAt == step.now
         && f.retryCount == step.held.phase.retryCount + 1 && 1 <= f.retryCount <= 19
         && f.nextRetryAt == step.now + T.Cube(f.retryCount) * MINUTE
  {
    hide L.ExponentialBackoff, T.Cube;
    if step.Fail? && step.held.phase.retryCount < 19 { T.BackoffIsExact(step.held.phase.retryCount + 1); }
  }

  lemma WritesHeartbeat(r: Rows, step: Step)
    ensures var r' := RowsNext(r, step); r'.heartbeat.Some? && r'.heartbeat != r.heartbeat ==>
      (step.Heartbeat? || step.Dequeue?) && r'.heartbeat == Some(step.now)
  {
  }

  // ---- whole runs ----

  /** What was written once stays written, however long the run goes on. */
  lemma StillWritten(before: seq<Step>, step: Step, n: nat)
    requires n < |before|
    ensures var run := before + [step];
      && run[n] == before[n] && run[..n] == before[..n]
      && (forall s :: WroteScheduled(before, n, s) ==> WroteScheduled(run, n, s))
      && (forall e :: WroteQueued(before, n, e) ==> WroteQueued(run, n, e))
      && (forall c :: WroteClaim(before, n, c) ==> WroteClaim(run, n, c))
      && (forall d :: WroteProcessed(before, n, d) ==> WroteProcessed(run, n, d))
      && (forall f :: WroteFailed(before, n, f) ==> WroteFailed(run, n, f))
      && (forall id, at :: WroteHeartbeat(before, n, id, at) ==> WroteHeartbeat(run, n, id, at))
  {
  }

  /** The last step of a run, on the rows of one job. */
  lemma LastStep(run: seq<Step>, id: JobId) returns (before: seq<Step>, step: Step, r: Rows)
    requires IsRun(run) && run != []
    ensures before == run[..|run| - 1] && step == run[|run| - 1] && run == before + [step] && run[..|before|] == before
    ensures IsRun(before) && Enabled(After(before), step) && Sound(After(before)) && Sound(After(run))
    ensures r == RowsOf(After(before).tables, id) && Copies(r, id, After(before).accepted)
    ensures Copies(RowsOf(After(run).tables, id), id, After(run).accepted)
    ensures RowsOf(After(run).tables, id) == if Subject(step) == Some(id) then RowsNext(r, step) else r
  {
    before, step := run[..|run| - 1], run[|run| - 1];
    r := RowsOf(After(before).tables, id);
    RunsAreSound(before);
    RunsAreSound(run);
    IdentityMeansKeyed(After(before));
    StepRows(After(before), step, id);
  }

  lemma {:induction false} ScheduledWasWritten(run: seq<Step>, id: JobId)
    requires IsRun(run) && id in After(run).tables.scheduled
    ensures exists n :: WroteScheduled(run, n, After(run).tables.scheduled[id])
  {
    hide RowsNext, Next, Sound, Copies;
    if run != [] {
      var before, step, r := LastStep(run, id);
      var s := After(run).tables.scheduled[id];
      assert RowsOf(After(run).tables, id).scheduled == Some(s);
      if r.scheduled == Some(s) {
        ScheduledWasWritten(before, id);
        var n :| WroteScheduled(before, n, s);
        StillWritten(before, step, n);
        assert WroteScheduled(run, n, s);
      } else {
        WritesScheduled(r, step);
        assert WroteScheduled(run, |before|, s);
      }
    }
  }

  lemma {:induction false} QueuedWasWritten(run: seq<Step>, id: JobId)
    requires IsRun(run) && id in After(run).tables.enqueued
    ensures exists n :: WroteQueued(run, n, After(run).tables.enqueued[id])
  {
    hide RowsNext, Next, Sound;
    if run != [] {
      var before, step, r := LastStep(run, id);
      var e := After(run).tables.enqueued[id];
      assert RowsOf(After(run).tables, id).enqueued == Some(e);
      if r.enqueued == Some(e) {
        QueuedWasWritten(before, id);
        var n :| WroteQueued(before, n, e);
        StillWritten(before, step, n);
        assert WroteQueued(run, n, e);
      } else {
        WritesQueued(r, step);
        assert WroteQueued(run, |before|, e);
      }
    }
  }

  lemma {:induction false} ProcessedWasWritten(run: seq<Step>, id: JobId)
    requires IsRun(run) && id in After(run).tables.processed
    ensures exists n :: WroteProcessed(run, n, After(run).tables.processed[id])
  {
    hide RowsNext, Next, Sound;
    if run != [] {
      var before, step, r := LastStep(run, id);
      var d := After(run).tables.processed[id];
      assert RowsOf(After(run).tables, id).processed == Some(d);
      if r.processed == Some(d) {
        ProcessedWasWritten(before, id);
        var n :| WroteProcessed(before, n, d);
        StillWritten(before, step, n);
        assert WroteProcessed(run, n, d);
      } else {
        WritesProcessed(r, step);
        assert WroteProcessed(run, |before|, d);
      }
    }
  }

  lemma {:induction false} FailedWasWritten(run: seq<Step>, id: JobId)
    requires IsRun(run) && id in After(run).tables.failed
    ensures exists n :: WroteFailed(run, n, After(run).tables.failed[id])
  {
    hide RowsNext, Next, T.Cube, NothingLost, Identity;
    if run != [] {
      var before, step, r := LastStep(run, id);
      var f := After(run).tables.failed[id];
      assert RowsOf(After(run).tables, id).failed == Some(f);
      if r.failed == Some(f) {
        FailedWasWritten(before, id);
        var n :| WroteFailed(before, n, f);
        StillWritten(before, step, n);
        assert WroteFailed(run, n, f);
      } else {
        if step.Fail? {
          assert Reached(After(before).claims, step.held.id, step.held.phase.retryCount);
        }
        WritesFailed(r, step);
        assert WroteFailed(run, |before|, f);
      }
    }
  }

  lemma {:induction false} HeartbeatWasWritten(run: seq<Step>, id: JobId)
    requires IsRun(run) && id in After(run).tables.heartbeats
    ensures exists n :: WroteHeartbeat(run, n, id, After(run).tables.heartbeats[id])
  {
    hide RowsNext, Next, Sound, Copies;
    if run != [] {
      var before, step, r := LastStep(run, id);
      var at := After(run).tables.heartbeats[id];
      assert RowsOf(After(run).tables, id).heartbeat == Some(at);
      if r.heartbeat == Some(at) {
        HeartbeatWasWritten(before, id);
        var n :| WroteHeartbeat(before, n, id, at);
        StillWritten(before, step, n);
        assert WroteHeartbeat(run, n, id, at);
      } else {
        WritesHeartbeat(r, step);
        assert WroteHeartbeat(run, |before|, id, at);
      }
    }
  }

  /** Every copy that a worker or an orphan checker was ever handed. */
  lemma {:induction false} ClaimWasWritten(run: seq<Step>, c: ProcessingJob)
    requires IsRun(run) && c in After(run).claims
    ensures exists n :: WroteClaim(run, n, c)
  {
    hide RowsNext, Sound;
    if run != [] {
      var before, step, r := LastStep(run, c.id);
      if c in After(before).claims {
        ClaimWasWritten(before, c);
        var n :| WroteClaim(before, n, c);
        StillWritten(before, step, n);
        assert WroteClaim(run, n, c);
      } else {
        NewClaimIsRow(run, c);
        assert r.processing != Some(c);
        WritesClaim(r, step);
        assert WroteClaim(run, |before|, c);
      }
    }
  }

  lemma NewClaimIsRow(run: seq<Step>, c: ProcessingJob)
    requires IsRun(run) && run != [] && c in After(run).claims && c !in After(run[..|run| - 1]).claims
    ensures RowsOf(After(run).tables, c.id).processing == Some(c)
    ensures RowsOf(After(run[..|run| - 1]).tables, c.id).processing != Some(c)
  {
    hide Next, NothingLost, AttemptsInOrder;
    RunsAreSound(run);
    RunsAreSound(run[..|run| - 1]);
    T.HistoryStep(After(run[..|run| - 1]), run[|run| - 1]);
    var id :| id in After(run).tables.processing && After(run).tables.processing[id] == c;
    assert Copies(RowsOf(After(run).tables, id), id, After(run).accepted);
  }

  /** And so every row in processing. */
  lemma ProcessingWasWritten(run: seq<Step>, id: JobId)
    requires IsRun(run) && id in After(run).tables.processing
    ensures exists n :: WroteClaim(run, n, After(run).tables.processing[id])
  {
    RunsAreSound(run);
    ClaimWasWritten(run, After(run).tables.processing[id]);
  }

  /** A processed job keeps the times at which it was queued, started and completed: those of a claim of its own. */
  lemma ProcessedKeepsItsTimes(run: seq<Step>, id: JobId) returns (claimed: nat, completed: nat)
    requires IsRun(run) && id in After(run).tables.processed
    ensures claimed < completed < |run| && run[claimed].Dequeue? && run[claimed].id == id
    ensures run[completed].Complete? && run[completed].held.id == id
    ensures var d := After(run).tables.processed[id].phase; var queued := After(run[..claimed]).tables.enqueued;
      && id in queued && d.enqueuedAt == queued[id].phase.enqueuedAt
      && d.startedAt == run[claimed].now && d.completedAt == run[completed].now
  {
    hide Next, NothingLost, AttemptsInOrder;
    ProcessedWasWritten(run, id);
    completed :| WroteProcessed(run, completed, After(run).tables.processed[id]);
    PrefixIsRun(run, completed);
    ClaimWasWritten(run[..completed], run[completed].held);
    claimed :| WroteClaim(run[..completed], claimed, run[completed].held);
    RunsAreSound(run);
    assert Copies(RowsOf(After(run).tables, id), id, After(run).accepted);
    assert run[..completed][..claimed] == run[..claimed] && run[..completed][claimed] == run[claimed];
  }

  // ---- what was asked for ----

  /** The record carries the name, queue, payload and ScheduledAt of the submitted job. */
  predicate Carries<T>(record: Job<T>, job: ScheduledJob) {
    && record.id == job.id && record.name == job.name && record.queue == job.queue
    && record.payload == job.payload && record.scheduledAt == job.scheduledAt
  }

  lemma {:induction false} AcceptedWasSubmitted(run: seq<Step>, id: JobId) returns (n: nat)
    requires IsRun(run) && id in After(run).accepted
    ensures n < |run| && run[n].Accept? && run[n].job.id == id && After(run).accepted[id] == OriginOf(run[n].job)
  {
    var before, step := run[..|run| - 1], run[|run| - 1];
    T.HistoryStep(After(before), step);
    if step.Accept? && step.job.id == id {
      n := |before|;
    } else {
      n := AcceptedWasSubmitted(before, id);
    }
  }

  /** Every record and every claim of an accepted ID carries the one job that was submitted under it. */
  lemma RecordsCarryTheRequest(run: seq<Step>, id: JobId) returns (n: nat)
    requires IsRun(run) && id in After(run).accepted
    ensures n < |run| && run[n].Accept? && run[n].job.id == id
    ensures var t := After(run).tables;
      && (id in t.scheduled ==> Carries(t.scheduled[id], run[n].job))
      && (id in t.enqueued ==> Carries(t.enqueued[id], run[n].job))
      && (id in t.processing ==> Carries(t.processing[id], run[n].job))
      && (id in t.processed ==> Carries(t.processed[id], run[n].job))
      && (id in t.failed ==> Carries(t.failed[id], run[n].job))
    ensures forall c :: c in After(run).claims && c.id == id ==> Carries(c, run[n].job)
  {
    hide NothingLost, AttemptsInOrder, Next;
    n := AcceptedWasSubmitted(run, id);
    RunsAreSound(run);
    assert Copies(RowsOf(After(run).tables, id), id, After(run).accepted);
  }
}
