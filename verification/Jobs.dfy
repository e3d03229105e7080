/** The records that xwork keeps about a job (job.go), as values. */
module Jobs {

  datatype Option<+T> = None | Some(value: T)

  /** Nanoseconds; comparisons and additions on instants are exact. */
  type Time = int

  /** The canonical text of a job's UUID. */
  type JobId = string

  /** A payload is absent (nil) or a one-level map of opaque values. */
  type Payload = Option<map<string, string>>

  /** The fields every job record has, and the fields of the state it is in. */
  datatype Job<+T> = Job(
    id: JobId,
    name: string,
    queue: string,
    payload: Payload,
    scheduledAt: Time,
    phase: T)

  datatype Schedule = Schedule(enqueueAt: Time)
  datatype Queued = Queued(retryCount: int, enqueuedAt: Time)
  datatype Running = Running(retryCount: int, startedAt: Time, enqueuedAt: Time)
  datatype Done = Done(startedAt: Time, completedAt: Time, enqueuedAt: Time)
  datatype Failure = Failure(error: string, retryCount: int, lastRetryAt: Time, nextRetryAt: Time)

  type ScheduledJob = Job<Schedule>
  type EnqueuedJob = Job<Queued>
  type ProcessingJob = Job<Running>
  type ProcessedJob = Job<Done>
  type FailedJob = Job<Failure>

  /** What the caller of EnqueueAt asked for; no later copy of the job may differ in it. */
  datatype Origin = Origin(name: string, queue: string, payload: Payload, scheduledAt: Time)

  function OriginOf<T>(job: Job<T>): Origin {
    Origin(job.name, job.queue, job.payload, job.scheduledAt)
  }

  const SECOND: int := 1_000_000_000
  const MINUTE: int := 60 * SECOND
}
