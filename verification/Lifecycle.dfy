/** The transaction bodies of process.go and server.go, as functions of the tables they run on. */
module Lifecycle {
  import opened Jobs
  import opened Storage

  const DEFAULT_MAX_RETRY_COUNT: int := 19

  /** Signed 64-bit wrap-around, the arithmetic of time.Duration. */
  function Wrap64(x: int): int {
    (x + 0x8000_0000_0000_0000) % 0x1_0000_0000_0000_0000 - 0x8000_0000_0000_0000
  }

  function ExponentialBackoff(retryCount: int): int {
    Wrap64(Wrap64(retryCount * retryCount * retryCount) * MINUTE)
  }

  function ToEnqueued(job: ScheduledJob, now: Time): EnqueuedJob {
    Job(job.id, job.name, job.queue, job.payload, job.scheduledAt, Queued(0, now))
  }

  function ToProcessing(job: EnqueuedJob, now: Time): ProcessingJob {
    Job(job.id, job.name, job.queue, job.payload, job.scheduledAt,
        Running(job.phase.retryCount, now, job.phase.enqueuedAt))
  }

  function ToProcessed(job: ProcessingJob, now: Time): ProcessedJob {
    Job(job.id, job.name, job.queue, job.payload, job.scheduledAt,
        Done(job.phase.startedAt, now, job.phase.enqueuedAt))
  }

  function ToFailed(job: ProcessingJob, error: string, now: Time): FailedJob {
    var retryCount := job.phase.retryCount + 1;
    Job(job.id, job.name, job.queue, job.payload, job.scheduledAt,
        Failure(error, retryCount, now, now + ExponentialBackoff(retryCount)))
  }

  function ToRetried(job: FailedJob, now: Time): EnqueuedJob {
    Job(job.id, job.name, job.queue, job.payload, job.scheduledAt, Queued(job.phase.retryCount, now))
  }

  /** enqueue: straight into the queue when the time has passed, otherwise into the schedule.
      It reads the clock once for the comparison and again for the stamp. */
  function Enqueue(t: Tables, job: ScheduledJob, checkedAt: Time, stampedAt: Time): Outcome {
    if job.phase.enqueueAt < checkedAt then InsertToQueue(t, ToEnqueued(job, stampedAt))
    else InsertToScheduled(t, job)
  }

  /** enqueueScheduled: works from the caller's snapshot, whether or not the delete found a row. */
  function EnqueueScheduled(t: Tables, snapshot: ScheduledJob, now: Time): Outcome {
    InsertToQueue(DeleteFromScheduled(t, snapshot.id), ToEnqueued(snapshot, now))
  }

  /** dequeue, given which of the oldest jobs the storage returned. */
  function Dequeue(t: Tables, id: JobId, now: Time): Outcome
    requires id in t.enqueued
  {
    InsertToProcessing(RemoveFromQueue(t, id), ToProcessing(t.enqueued[id], now))
  }

  /** complete: does not check that the processing row is still there. */
  function Complete(t: Tables, job: ProcessingJob, now: Time): Outcome {
    match InsertToProcessed(t, ToProcessed(job, now))
    case Ok(t') => Ok(DeleteFromProcessing(t', job.id))
    case Err(e) => Err(e)
  }

  predicate Exhausted(job: ProcessingJob) {
    job.phase.retryCount + 1 > DEFAULT_MAX_RETRY_COUNT
  }

  /** failWithStack: discards the job once its retries are used up. */
  function Fail(t: Tables, job: ProcessingJob, error: string, now: Time): Outcome {
    var t' := DeleteFromProcessing(t, job.id);
    if Exhausted(job) then Ok(t')
    else InsertToFailed(t', ToFailed(job, error, now))
  }

  /** retry: a lost claim and a job that is already queued are both successes. */
  function Retry(t: Tables, id: JobId, now: Time): Outcome {
    if id !in t.failed then Ok(t)
    else
      var t' := DeleteFromFailed(t, id);
      match InsertToQueue(t', ToRetried(t.failed[id], now))
      case Err(AlreadyEnqueued) => Ok(t')
      case r => r
  }

  /** retryFailedJob: a lost claim and a job that is already queued are both errors. */
  function WebRetry(t: Tables, id: JobId, now: Time): Outcome {
    if id !in t.failed then Err(FailedJobNotFound)
    else InsertToQueue(DeleteFromFailed(t, id), ToRetried(t.failed[id], now))
  }
}
