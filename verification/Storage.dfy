/** The five tables and the intended meaning of each storage call on them.
    Memory keeps heartbeats in a map of their own, so an ID may have a heartbeat and no row. */
module Storage {
  import opened Jobs

  datatype Error = DuplicateJob | AlreadyEnqueued | FailedJobNotFound | HandlerError

  datatype Tables = Tables(
    scheduled: map<JobId, ScheduledJob>,
    enqueued: map<JobId, EnqueuedJob>,
    processing: map<JobId, ProcessingJob>,
    heartbeats: map<JobId, Time>,
    processed: map<JobId, ProcessedJob>,
    failed: map<JobId, FailedJob>)

  /** What a storage call or the body of a transaction leaves behind. */
  datatype Outcome = Ok(tables: Tables) | Err(error: Error)

  const EMPTY := Tables(map[], map[], map[], map[], map[], map[])

  function InsertToScheduled(t: Tables, job: ScheduledJob): Outcome {
    if job.id in t.scheduled then Err(DuplicateJob)
    else Ok(t.(scheduled := t.scheduled[job.id := job]))
  }

  function DeleteFromScheduled(t: Tables, id: JobId): Tables {
    t.(scheduled := t.scheduled - {id})
  }

  function InsertToQueue(t: Tables, job: EnqueuedJob): Outcome {
    if job.id in t.enqueued then Err(AlreadyEnqueued)
    else Ok(t.(enqueued := t.enqueued[job.id := job]))
  }

  /** `id` is a job that DeleteFromQueue(queue) may return: none in the queue is older.
      Memory breaks ties by map iteration order, SQL by ID. */
  ghost predicate IsOldest(enqueued: map<JobId, EnqueuedJob>, queue: string, id: JobId) {
    && id in enqueued
    && enqueued[id].queue == queue
    && forall k :: k in enqueued && enqueued[k].queue == queue ==>
         enqueued[id].phase.enqueuedAt <= enqueued[k].phase.enqueuedAt
  }

  function RemoveFromQueue(t: Tables, id: JobId): Tables {
    t.(enqueued := t.enqueued - {id})
  }

  function InsertToProcessing(t: Tables, job: ProcessingJob): Outcome {
    if job.id in t.processing then Err(DuplicateJob)
    else Ok(t.(processing := t.processing[job.id := job],
               heartbeats := t.heartbeats[job.id := job.phase.startedAt]))
  }

  function EmitHeartbeat(t: Tables, id: JobId, now: Time): Tables {
    t.(heartbeats := t.heartbeats[id := now])
  }

  /** The row `id` is one that GetByLastHeartbeatBefore(cutoff) selects. */
  predicate StaleRow(t: Tables, id: JobId, cutoff: Time) {
    id in t.processing && id in t.heartbeats && t.heartbeats[id] < cutoff
  }

  function DeleteFromProcessing(t: Tables, id: JobId): Tables {
    t.(processing := t.processing - {id}, heartbeats := t.heartbeats - {id})
  }

  function InsertToProcessed(t: Tables, job: ProcessedJob): Outcome {
    if job.id in t.processed then Err(DuplicateJob)
    else Ok(t.(processed := t.processed[job.id := job]))
  }

  function InsertToFailed(t: Tables, job: FailedJob): Outcome {
    if job.id in t.failed then Err(DuplicateJob)
    else Ok(t.(failed := t.failed[job.id := job]))
  }

  function DeleteFromFailed(t: Tables, id: JobId): Tables {
    t.(failed := t.failed - {id})
  }

  /** `batch` lists the rows of `m` that are due, each once, in some order. */
  ghost predicate Lists<T(!new)>(batch: seq<Job<T>>, m: map<JobId, Job<T>>, due: Job<T> -> bool) {
    && (forall i :: 0 <= i < |batch| ==> batch[i].id in m && m[batch[i].id] == batch[i] && due(batch[i]))
    && (forall i, j :: 0 <= i < j < |batch| ==> batch[i].id != batch[j].id)
    && (forall id :: id in m && due(m[id]) ==> m[id] in batch)
  }

  /** Every record is stored under its own ID. */
  ghost predicate WellKeyed(t: Tables) {
    && (forall id :: id in t.scheduled ==> t.scheduled[id].id == id)
    && (forall id :: id in t.enqueued ==> t.enqueued[id].id == id)
    && (forall id :: id in t.processing ==> t.processing[id].id == id)
    && (forall id :: id in t.processed ==> t.processed[id].id == id)
    && (forall id :: id in t.failed ==> t.failed[id].id == id)
  }

  /** A transaction: the new tables when the body succeeds, the old ones when it fails. */
  function Commit(t: Tables, body: Outcome): Tables {
    match body
    case Ok(t') => t'
    case Err(_) => t
  }
}
