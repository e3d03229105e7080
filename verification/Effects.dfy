/** What each transaction leaves behind, field by field, when it commits, and when it is refused. */
module Effects {
  import opened Jobs
  import opened Storage
  import L = Lifecycle
  import T = Timing

  /** No other job is touched. */
  predicate OnlyAbout(id: JobId, t: Tables, t': Tables) {
    && t'.scheduled - {id} == t.scheduled - {id} && t'.enqueued - {id} == t.enqueued - {id}
    && t'.processing - {id} == t.processing - {id} && t'.heartbeats - {id} == t.heartbeats - {id}
    && t'.processed - {id} == t.processed - {id} && t'.failed - {id} == t.failed - {id}
  }

  predicate SameJob<A, B>(a: Job<A>, b: Job<B>) {
    a.id == b.id && a.name == b.name && a.queue == b.queue && a.payload == b.payload && a.scheduledAt == b.scheduledAt
  }

  /** The job is in its queue, with these. */
  predicate IsQueued<T>(t: Tables, job: Job<T>, retryCount: int, at: Time) {
    && job.id in t.enqueued && SameJob(t.enqueued[job.id], job)
    && t.enqueued[job.id].phase.retryCount == retryCount && t.enqueued[job.id].phase.enqueuedAt == at
  }

  /** The job left processing for processed at this time. */
  predicate Completes(t: Tables, t': Tables, job: ProcessingJob, at: Time) {
    && OnlyAbout(job.id, t, t') && t'.scheduled == t.scheduled && t'.enqueued == t.enqueued && t'.failed == t.failed
    && job.id !in t'.processing && job.id !in t'.heartbeats
    && job.id in t'.processed && SameJob(t'.processed[job.id], job)
    && var d := t'.processed[job.id].phase;
       d.startedAt == job.phase.startedAt && d.enqueuedAt == job.phase.enqueuedAt && d.completedAt == at
  }

  /** The job left processing, and nothing else happened. */
  predicate Leaves(t: Tables, t': Tables, id: JobId) {
    && OnlyAbout(id, t, t') && t'.scheduled == t.scheduled && t'.enqueued == t.enqueued
    && t'.processed == t.processed && t'.failed == t.failed
    && id !in t'.processing && id !in t'.heartbeats
  }

  /** The job left processing for failed at this time, with this text, to be retried retryCount^3 minutes later. */
  predicate FailsOnce(t: Tables, t': Tables, job: ProcessingJob, error: string, at: Time) {
    && OnlyAbout(job.id, t, t') && t'.scheduled == t.scheduled && t'.enqueued == t.enqueued && t'.processed == t.processed
    && job.id !in t'.processing && job.id !in t'.heartbeats
    && job.id in t'.failed && SameJob(t'.failed[job.id], job)
    && var f := t'.failed[job.id].phase;
       && f.error == error && f.lastRetryAt == at && f.retryCount == job.phase.retryCount + 1 && 1 <= f.retryCount <= 19
       && f.nextRetryAt == at + T.Cube(f.retryCount) * MINUTE
  }

  // ---- the transactions ----

  /** A job whose time has passed goes into its queue, with the second reading of the clock, any other into the schedule. */
  lemma EnqueueEffect(t: Tables, job: ScheduledJob, checkedAt: Time, stampedAt: Time)
    ensures match L.Enqueue(t, job, checkedAt, stampedAt)
      case Ok(t') =>
        if job.phase.enqueueAt < checkedAt then
          OnlyAbout(job.id, t, t') && job.id !in t.enqueued && IsQueued(t', job, 0, stampedAt)
          && t' == t.(enqueued := t'.enqueued)
        else
          OnlyAbout(job.id, t, t') && job.id !in t.scheduled && job.id in t'.scheduled && t'.scheduled[job.id] == job
          && t' == t.(scheduled := t'.scheduled)
      case Err(e) =>
        if job.phase.enqueueAt < checkedAt then e == AlreadyEnqueued && job.id in t.enqueued
        else e == DuplicateJob && job.id in t.scheduled
  {
  }

  /** The moved job is out of the schedule and in its queue, with no attempts behind it. */
  lemma EnqueueScheduledEffect(t: Tables, snapshot: ScheduledJob, now: Time)
    ensures match L.EnqueueScheduled(t, snapshot, now)
      case Ok(t') =>
        && OnlyAbout(snapshot.id, t, t') && snapshot.id !in t.enqueued
        && snapshot.id !in t'.scheduled && IsQueued(t', snapshot, 0, now)
        && t' == t.(scheduled := t'.scheduled, enqueued := t'.enqueued)
      case Err(e) => e == AlreadyEnqueued && snapshot.id in t.enqueued
  {
  }

  /** The claimed job is out of its queue and in processing, with its first heartbeat. */
  lemma DequeueEffect(t: Tables, id: JobId, now: Time)
    requires id in t.enqueued && t.enqueued[id].id == id
    ensures match L.Dequeue(t, id, now)
      case Ok(t') =>
        && OnlyAbout(id, t, t') && id !in t.processing && id !in t'.enqueued
        && id in t'.processing && SameJob(t'.processing[id], t.enqueued[id])
        && id in t'.heartbeats && t'.heartbeats[id] == now
        && (var p, e := t'.processing[id].phase, t.enqueued[id].phase;
            p.startedAt == now && p.enqueuedAt == e.enqueuedAt && p.retryCount == e.retryCount)
        && t'.scheduled == t.scheduled && t'.processed == t.processed && t'.failed == t.failed
      case Err(e) => e == DuplicateJob && id in t.processing
  {
  }

  lemma CompleteEffect(t: Tables, job: ProcessingJob, now: Time)
    ensures match L.Complete(t, job, now)
      case Ok(t') => job.id !in t.processed && Completes(t, t', job, now)
      case Err(e) => e == DuplicateJob && job.id in t.processed
  {
  }

  lemma FailEffect(t: Tables, job: ProcessingJob, error: string, now: Time)
    requires 0 <= job.phase.retryCount <= 19
    ensures match L.Fail(t, job, error, now)
      case Ok(t') =>
        if job.phase.retryCount == 19 then Leaves(t, t', job.id)
        else job.id !in t.failed && FailsOnce(t, t', job, error, now)
      case Err(e) => e == DuplicateJob && job.id in t.failed && job.phase.retryCount < 19
  {
    hide L.ExponentialBackoff, T.Cube;
    if job.phase.retryCount < 19 { T.BackoffIsExact(job.phase.retryCount + 1); }
  }

  /** The failed record is gone; the job is queued with its count, or the copy that was queued already is kept. */
  lemma RetryEffect(t: Tables, id: JobId, now: Time)
    requires id in t.failed ==> t.failed[id].id == id
    ensures match L.Retry(t, id, now)
      case Ok(t') =>
        if id !in t.failed then t' == t
        else
          && OnlyAbout(id, t, t') && id !in t'.failed && t' == t.(failed := t'.failed, enqueued := t'.enqueued)
          && if id in t.enqueued then t'.enqueued == t.enqueued
             else IsQueued(t', t.failed[id], t.failed[id].phase.retryCount, now)
      case Err(_) => false
  {
  }

  lemma WebRetryEffect(t: Tables, id: JobId, now: Time)
    requires id in t.failed ==> t.failed[id].id == id
    ensures match L.WebRetry(t, id, now)
      case Ok(t') =>
        && id in t.failed && id !in t.enqueued
        && OnlyAbout(id, t, t') && id !in t'.failed && t' == t.(failed := t'.failed, enqueued := t'.enqueued)
        && IsQueued(t', t.failed[id], t.failed[id].phase.retryCount, now)
      case Err(e) =>
        if id !in t.failed then e == FailedJobNotFound else e == AlreadyEnqueued && id in t.enqueued
  {
  }
}
