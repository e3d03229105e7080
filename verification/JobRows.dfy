/** The life of a single job: the rows that the tables hold under one ID, and what each transaction
    does to them. A transaction that rolls back is None. The lemmas show that the transactions on the
    five tables do exactly this to the job they are about, and nothing to any other job. */
module JobRows {
  import opened Jobs
  import opened Storage
  import L = Lifecycle

  datatype Rows = Rows(
    scheduled: Option<ScheduledJob>,
    enqueued: Option<EnqueuedJob>,
    processing: Option<ProcessingJob>,
    heartbeat: Option<Time>,
    processed: Option<ProcessedJob>,
    failed: Option<FailedJob>)

  function Find<T>(m: map<JobId, T>, id: JobId): Option<T> {
    if id in m then Some(m[id]) else None
  }

  function One(b: bool): nat {
    if b then 1 else 0
  }

  function RowsOf(t: Tables, id: JobId): Rows {
    Rows(Find(t.scheduled, id), Find(t.enqueued, id), Find(t.processing, id),
         Find(t.heartbeats, id), Find(t.processed, id), Find(t.failed, id))
  }

  function Enqueue(r: Rows, job: ScheduledJob, checkedAt: Time, stampedAt: Time): Option<Rows> {
    if job.phase.enqueueAt < checkedAt then
      if r.enqueued.Some? then None else Some(r.(enqueued := Some(L.ToEnqueued(job, stampedAt))))
    else
      if r.scheduled.Some? then None else Some(r.(scheduled := Some(job)))
  }

  function EnqueueScheduled(r: Rows, snapshot: ScheduledJob, now: Time): Option<Rows> {
    if r.enqueued.Some? then None
    else Some(r.(scheduled := None, enqueued := Some(L.ToEnqueued(snapshot, now))))
  }

  function Dequeue(r: Rows, now: Time): Option<Rows>
    requires r.enqueued.Some?
  {
    if r.processing.Some? then None
    else Some(r.(enqueued := None, processing := Some(L.ToProcessing(r.enqueued.value, now)), heartbeat := Some(now)))
  }

  function Complete(r: Rows, held: ProcessingJob, now: Time): Option<Rows> {
    if r.processed.Some? then None
    else Some(r.(processing := None, heartbeat := None, processed := Some(L.ToProcessed(held, now))))
  }

  function Fail(r: Rows, held: ProcessingJob, error: string, now: Time): Option<Rows> {
    if L.Exhausted(held) then Some(r.(processing := None, heartbeat := None))
    else if r.failed.Some? then None
    else Some(r.(processing := None, heartbeat := None, failed := Some(L.ToFailed(held, error, now))))
  }

  /** A copy that is already queued is kept as it is. */
  function Retry(r: Rows, now: Time): Option<Rows> {
    if r.failed.None? then Some(r)
    else if r.enqueued.Some? then Some(r.(failed := None))
    else Some(r.(failed := None, enqueued := Some(L.ToRetried(r.failed.value, now))))
  }

  function WebRetry(r: Rows, now: Time): Option<Rows> {
    if r.failed.None? || r.enqueued.Some? then None else Retry(r, now)
  }

  /** The rows of `id` after a transaction about the job `about`. */
  function RowsAfter(t: Tables, about: JobId, committed: Option<Rows>, id: JobId): Rows {
    if id == about && committed.Some? then committed.value else RowsOf(t, id)
  }

  lemma EnqueueRows(t: Tables, job: ScheduledJob, checkedAt: Time, stampedAt: Time, id: JobId)
    ensures RowsOf(Commit(t, L.Enqueue(t, job, checkedAt, stampedAt)), id)
         == RowsAfter(t, job.id, Enqueue(RowsOf(t, job.id), job, checkedAt, stampedAt), id)
    ensures L.Enqueue(t, job, checkedAt, stampedAt).Ok? <==> Enqueue(RowsOf(t, job.id), job, checkedAt, stampedAt).Some?
  {
    if job.phase.enqueueAt < checkedAt {
      assert L.Enqueue(t, job, checkedAt, stampedAt) == InsertToQueue(t, L.ToEnqueued(job, stampedAt));
    } else {
      assert L.Enqueue(t, job, checkedAt, stampedAt) == InsertToScheduled(t, job);
    }
  }

  lemma EnqueueScheduledRows(t: Tables, snapshot: ScheduledJob, now: Time, id: JobId)
    ensures RowsOf(Commit(t, L.EnqueueScheduled(t, snapshot, now)), id)
         == RowsAfter(t, snapshot.id, EnqueueScheduled(RowsOf(t, snapshot.id), snapshot, now), id)
    ensures L.EnqueueScheduled(t, snapshot, now).Ok? <==> EnqueueScheduled(RowsOf(t, snapshot.id), snapshot, now).Some?
  {
  }

  lemma DequeueRows(t: Tables, about: JobId, now: Time, id: JobId)
    requires about in t.enqueued && t.enqueued[about].id == about
    ensures RowsOf(Commit(t, L.Dequeue(t, about, now)), id)
         == RowsAfter(t, about, Dequeue(RowsOf(t, about), now), id)
    ensures L.Dequeue(t, about, now).Ok? <==> Dequeue(RowsOf(t, about), now).Some?
  {
  }

  lemma CompleteRows(t: Tables, held: ProcessingJob, now: Time, id: JobId)
    ensures RowsOf(Commit(t, L.Complete(t, held, now)), id)
         == RowsAfter(t, held.id, Complete(RowsOf(t, held.id), held, now), id)
    ensures L.Complete(t, held, now).Ok? <==> Complete(RowsOf(t, held.id), held, now).Some?
  {
  }

  lemma FailRows(t: Tables, held: ProcessingJob, error: string, now: Time, id: JobId)
    ensures RowsOf(Commit(t, L.Fail(t, held, error, now)), id)
         == RowsAfter(t, held.id, Fail(RowsOf(t, held.id), held, error, now), id)
    ensures L.Fail(t, held, error, now).Ok? <==> Fail(RowsOf(t, held.id), held, error, now).Some?
  {
    var t' := DeleteFromProcessing(t, held.id);
    if L.Exhausted(held) {
      assert L.Fail(t, held, error, now) == Ok(t');
    } else {
      assert L.Fail(t, held, error, now) == InsertToFailed(t', L.ToFailed(held, error, now));
    }
  }

  lemma RetryRows(t: Tables, about: JobId, now: Time, id: JobId)
    requires about in t.failed ==> t.failed[about].id == about
    ensures RowsOf(Commit(t, L.Retry(t, about, now)), id)
         == RowsAfter(t, about, Retry(RowsOf(t, about), now), id)
    ensures L.Retry(t, about, now).Ok? <==> Retry(RowsOf(t, about), now).Some?
  {
    if about !in t.failed {
      assert L.Retry(t, about, now) == Ok(t);
    } else {
      var t' := DeleteFromFailed(t, about);
      assert RowsOf(t', id) == if id == about then RowsOf(t, id).(failed := None) else RowsOf(t, id);
    }
  }

  lemma WebRetryRows(t: Tables, about: JobId, now: Time, id: JobId)
    requires about in t.failed ==> t.failed[about].id == about
    ensures RowsOf(Commit(t, L.WebRetry(t, about, now)), id)
         == RowsAfter(t, about, WebRetry(RowsOf(t, about), now), id)
    ensures L.WebRetry(t, about, now).Ok? <==> WebRetry(RowsOf(t, about), now).Some?
  {
  }
}
