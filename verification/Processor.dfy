/** The transactions of process.go and server.go as code on the in-memory store: each runs a body on a copy
    of the store and swaps the copy in when the body returns no error. Every method takes exactly the
    steps of the open regime that it is named after, so whatever holds of those runs holds of this code. */
module ProcessorCode {
  import opened Jobs
  import opened Storage
  import L = Lifecycle
  import O = OpenRegime
  import opened JobMaps
  import opened MemoryStore
  import SP = SingleProcessor
  import ST = StackTrace
  import opened Effects

  // ---- the bodies: what runs inside Transact, on the adapter it is given ----

  /** A body returned: nil with its effect in place, or its error with the adapter in any state. */
  predicate Returned(err: Option<Error>, outcome: Outcome, after: Tables) {
    match outcome
    case Ok(t) => err == None && after == t
    case Err(e) => err == Some(e)
  }

  ghost predicate NoneQueued(t: Tables, queue: string) {
    forall id :: id in t.enqueued ==> t.enqueued[id].queue != queue
  }

  method DequeueBody(tx: Memory, queue: string, now: Time) returns (job: JobObject?<Running>, err: Option<Error>)
    requires tx.Valid()
    modifies tx.state.enqueued, tx.state.processing, tx.state.heartbeats
    ensures tx.Valid() && tx.state == old(tx.state)
    ensures job == null ==> err == None && NoneQueued(old(tx.Contents()), queue) && tx.Contents() == old(tx.Contents())
    ensures job != null ==> fresh(job.Objects()) && IsOldest(old(tx.Contents().enqueued), queue, job.id)
    ensures job != null ==> job.Value() == L.ToProcessing(old(tx.Contents().enqueued)[job.id], now)
    ensures job != null ==> Returned(err, L.Dequeue(old(tx.Contents()), job.id, now), tx.Contents())
  {
    hide Memory.Valid, Memory.Contents, OnlyAdds, SameObjects;
    var enqueuedJob := tx.DeleteFromQueue(queue);
    if enqueuedJob == null {
      return null, None;
    }
    job := new JobObject(enqueuedJob.id, enqueuedJob.name, enqueuedJob.queue, enqueuedJob.payload,
                         enqueuedJob.scheduledAt, Running(enqueuedJob.phase.retryCount, now, enqueuedJob.phase.enqueuedAt));
    err := tx.InsertToProcessing(job);
  }

  method CompleteBody(tx: Memory, job: JobObject<Running>, now: Time) returns (err: Option<Error>)
    requires tx.Valid()
    modifies tx.state.processed, tx.state.processing, tx.state.heartbeats
    ensures tx.Valid() && tx.state == old(tx.state)
    ensures Returned(err, L.Complete(old(tx.Contents()), old(job.Value()), now), tx.Contents())
  {
    hide Memory.Valid, Memory.Contents, OnlyAdds, SameObjects;
    var id := job.id;
    var processedJob := new JobObject(job.id, job.name, job.queue, job.payload, job.scheduledAt,
                                      Done(job.phase.startedAt, now, job.phase.enqueuedAt));
    err := tx.InsertToProcessed(processedJob);
    if err.Some? {
      return;
    }
    tx.DeleteFromProcessing(id);
  }

  /** json.Marshal on an object of strings; None when it fails. */
  type Encoder = map<string, string> -> Option<string>

  /** The text that a failure record keeps: the encoded message, with the cleaned stack if there is any, or the
      message between quotes when it cannot be encoded. */
  ghost predicate TextHolds(error: string, message: string, stack: string, marshal: Encoder) {
    exists data: map<string, string> ::
      && data.Keys == (if ST.Cleaned(stack) == "" then {"message"} else {"message", "stacktrace"})
      && data["message"] == message && ("stacktrace" in data ==> data["stacktrace"] == ST.Cleaned(stack))
      && error == match marshal(data) { case Some(text) => text case None => "{\"message\":\"" + message + "\"}" }
  }

  /** Whoever decodes the text finds the message under its key, and the cleaned stack under its own. */
  lemma DecodedText(error: string, message: string, stack: string, marshal: Encoder, decode: string -> map<string, string>)
    requires TextHolds(error, message, stack, marshal)
    requires forall data :: marshal(data).Some? && decode(marshal(data).value) == data
    ensures decode(error).Keys == if ST.Cleaned(stack) == "" then {"message"} else {"message", "stacktrace"}
    ensures decode(error)["message"] == message
    ensures ST.Cleaned(stack) != "" ==> decode(error)["stacktrace"] == ST.Cleaned(stack)
  {
    hide ST.Cleaned;
    var data: map<string, string> :|
      && data.Keys == (if ST.Cleaned(stack) == "" then {"message"} else {"message", "stacktrace"})
      && data["message"] == message && ("stacktrace" in data ==> data["stacktrace"] == ST.Cleaned(stack))
      && error == match marshal(data) { case Some(text) => text case None => "{\"message\":\"" + message + "\"}" };
    assert decode(error) == data;
  }

  /** And when nothing can be encoded, the text is the message in a literal frame. */
  lemma FallbackText(error: string, message: string, stack: string, marshal: Encoder)
    requires TextHolds(error, message, stack, marshal) && forall data :: marshal(data) == None
    ensures error == "{\"message\":\"" + message + "\"}"
  {
  }

  lemma TextExists(message: string, stack: string, marshal: Encoder) returns (error: string)
    ensures TextHolds(error, message, stack, marshal)
  {
    hide ST.Cleaned;
    var data := if ST.Cleaned(stack) == "" then map["message" := message]
                else map["message" := message, "stacktrace" := ST.Cleaned(stack)];
    assert data.Keys == if ST.Cleaned(stack) == "" then {"message"} else {"message", "stacktrace"};
    error := match marshal(data) { case Some(text) => text case None => "{\"message\":\"" + message + "\"}" };
  }

  method FailBody(tx: Memory, job: JobObject<Running>, message: string, stack: string, marshal: Encoder, now: Time)
    returns (err: Option<Error>, ghost error: string)
    requires tx.Valid()
    modifies tx.state.failed, tx.state.processing, tx.state.heartbeats
    ensures tx.Valid() && tx.state == old(tx.state) && TextHolds(error, message, stack, marshal)
    ensures Returned(err, L.Fail(old(tx.Contents()), old(job.Value()), error, now), tx.Contents())
  {
    hide Memory.Valid, Memory.Contents, OnlyAdds, SameObjects, TextHolds;
    error := TextExists(message, stack, marshal);
    tx.DeleteFromProcessing(job.id);
    var retryCount := job.phase.retryCount + 1;
    if retryCount > L.DEFAULT_MAX_RETRY_COUNT {
      err := None;
      return;
    }
    var text := MarshalError(message, stack, marshal);
    error := text;
    var failedJob := new JobObject(job.id, job.name, job.queue, job.payload, job.scheduledAt,
                                   Failure(text, retryCount, now, now + L.ExponentialBackoff(retryCount)));
    err := tx.InsertToFailed(failedJob);
  }

  method MarshalError(message: string, stack: string, marshal: Encoder) returns (error: string)
    ensures TextHolds(error, message, stack, marshal)
  {
    hide ST.Cleaned;
    var jobErrData := map["message" := message];
    var stacktrace := ST.CleanStackTrace(stack);
    if stacktrace != "" {
      jobErrData := jobErrData["stacktrace" := stacktrace];
    }
    assert jobErrData.Keys == if stacktrace == "" then {"message"} else {"message", "stacktrace"};
    match marshal(jobErrData) {
      case Some(text) => error := text;
      case None => error := "{\"message\":\"" + message + "\"}";
    }
  }

  method EnqueueScheduledBody(tx: Memory, job: JobObject<Schedule>, now: Time) returns (err: Option<Error>)
    requires tx.Valid()
    modifies tx.state.scheduled, tx.state.enqueued
    ensures tx.Valid() && tx.state == old(tx.state)
    ensures Returned(err, L.EnqueueScheduled(old(tx.Contents()), old(job.Value()), now), tx.Contents())
  {
    hide Memory.Valid, Memory.Contents, OnlyAdds, SameObjects;
    tx.DeleteFromScheduled(job.id);
    var enqueuedJob := new JobObject(job.id, job.name, job.queue, job.payload, job.scheduledAt, Queued(0, now));
    err := tx.InsertToQueue(enqueuedJob);
  }

  method RetryBody(tx: Memory, id: JobId, now: Time) returns (err: Option<Error>)
    requires tx.Valid()
    modifies tx.state.failed, tx.state.enqueued
    ensures tx.Valid() && tx.state == old(tx.state)
    ensures Returned(err, L.Retry(old(tx.Contents()), id, now), tx.Contents())
  {
    hide Memory.Valid, Memory.Contents, OnlyAdds, SameObjects;
    var failedJob := tx.ClaimFailed(id);
    if failedJob == null {
      return None;
    }
    var enqueuedJob := new JobObject(failedJob.id, failedJob.name, failedJob.queue, failedJob.payload,
                                     failedJob.scheduledAt, Queued(failedJob.phase.retryCount, now));
    err := tx.InsertToQueue(enqueuedJob);
    if err == Some(AlreadyEnqueued) {
      err := None;
    }
  }

  method RetryFailedJobBody(tx: Memory, id: JobId, now: Time) returns (enqueuedJob: JobObject?<Queued>, err: Option<Error>)
    requires tx.Valid()
    modifies tx.state.failed, tx.state.enqueued
    ensures tx.Valid() && tx.state == old(tx.state)
    ensures Returned(err, L.WebRetry(old(tx.Contents()), id, now), tx.Contents())
    ensures err == None ==> enqueuedJob != null && fresh(enqueuedJob.Objects())
    ensures err == None ==> id in old(tx.Contents()).failed && enqueuedJob.Value() == L.ToRetried(old(tx.Contents()).failed[id], now)
  {
    hide Memory.Valid, Memory.Contents, OnlyAdds, SameObjects;
    enqueuedJob := null;
    var failedJob := tx.ClaimFailed(id);
    if failedJob == null {
      return null, Some(FailedJobNotFound);
    }
    enqueuedJob := new JobObject(failedJob.id, failedJob.name, failedJob.queue, failedJob.payload,
                                 failedJob.scheduledAt, Queued(failedJob.phase.retryCount, now));
    err := tx.InsertToQueue(enqueuedJob);
  }

  // ---- the history the code makes ----

  /** What became of the handler: nil, an error, or a panic with its value as text and the stack. */
  datatype HandlerResult = Succeeded | Failed(message: string) | Panicked(value: string, stack: string)

  /** The attempt was failed: it is given up after the twentieth, refused when the ID is in failed already, and
      otherwise recorded with the text of message and stack. */
  ghost predicate FailsWith(t: Tables, t': Tables, job: ProcessingJob, message: string, stack: string, at: Time, marshal: Encoder) {
    if job.phase.retryCount == 19 then Leaves(t, t', job.id)
    else if job.id in t.failed then t' == t
    else exists error :: TextHolds(error, message, stack, marshal) && FailsOnce(t, t', job, error, at)
  }

  /** One more enabled step. */
  lemma Extend(run: seq<O.Step>, step: O.Step)
    requires O.IsRun(run) && O.Enabled(O.After(run), step)
    ensures O.IsRun(run + [step]) && O.After(run + [step]) == O.Next(O.After(run), step)
    ensures var t := O.After(run).tables; O.After(run + [step]).tables == Commit(t, O.Body(t, step))
  {
    assert (run + [step])[..|run|] == run;
  }

  /** The text of ErrOrphanJob. */
  const ERR_ORPHAN_JOB := "orphan job"

  /** Every member of the set, once. */
  ghost predicate Enumerates(ids: seq<JobId>, all: set<JobId>) {
    (forall id :: id in ids <==> id in all) && forall i, j :: 0 <= i < j < |ids| ==> ids[i] != ids[j]
  }

  /** Every step from number `from` on has committed. */
  ghost predicate AllCommit(run: seq<O.Step>, from: nat) {
    forall i :: from <= i < |run| ==> O.Body(O.After(run[..i]).tables, run[i]).Ok?
  }

  /** Every step from number `from` on has committed, except that the last one was refused with `err`. */
  ghost predicate GoesOn(run: seq<O.Step>, from: nat, err: Option<Error>) {
    match err
    case None => AllCommit(run, from)
    case Some(e) =>
      && from < |run| && AllCommit(run[..|run| - 1], from)
      && O.Body(O.After(run[..|run| - 1]).tables, run[|run| - 1]) == Err(e)
  }

  lemma OneMoreStep(run: seq<O.Step>, from: nat, step: O.Step)
    requires from <= |run| && AllCommit(run, from)
    ensures match O.Body(O.After(run).tables, step)
      case Ok(_) => AllCommit(run + [step], from)
      case Err(e) => GoesOn(run + [step], from, Some(e))
  {
    hide O.Body, O.After;
    var longer := run + [step];
    assert longer[..|run|] == run && longer[|run|] == step;
    forall i | from <= i < |run| ensures longer[..i] == run[..i] && longer[i] == run[i] {
    }
  }

  /** What was ever claimed or scheduled stays on record. */
  lemma RecordGrows(run: seq<O.Step>, step: O.Step)
    ensures O.After(run).snapshots <= O.After(run + [step]).snapshots
    ensures O.After(run).claims <= O.After(run + [step]).claims
  {
    assert (run + [step])[..|run|] == run;
  }

  lemma ClaimIsRecorded(run: seq<O.Step>, queue: string, id: JobId, now: Time)
    requires O.IsRun(run) && IsOldest(O.After(run).tables.enqueued, queue, id)
    ensures var w := O.After(run + [O.Dequeue(queue, id, now)]);
      L.Dequeue(O.After(run).tables, id, now).Ok? ==> L.ToProcessing(O.After(run).tables.enqueued[id], now) in w.claims
  {
    Extend(run, O.Dequeue(queue, id, now));
    var t' := L.Dequeue(O.After(run).tables, id, now);
    if t'.Ok? {
      var job := L.ToProcessing(O.After(run).tables.enqueued[id], now);
      assert t'.tables.processing[job.id] == job;
    }
  }

  /** One of the oldest jobs of the queue became this processing job. */
  ghost predicate DequeueCommits(before: Tables, queue: string, now: Time, job: ProcessingJob, after: Tables) {
    && IsOldest(before.enqueued, queue, job.id)
    && job == L.ToProcessing(before.enqueued[job.id], now)
    && L.Dequeue(before, job.id, now) == Ok(after)
  }

  /** The storage refused to record the claim of a job of the queue. */
  ghost predicate DequeueRefused(before: Tables, queue: string, id: JobId, now: Time, error: Error) {
    IsOldest(before.enqueued, queue, id) && L.Dequeue(before, id, now) == Err(error)
  }

  /** The transaction of dequeue, whose body may have claimed `claimed`. */
  method DequeueTransaction(storage: Memory, queue: string, now: Time)
    returns (job: JobObject?<Running>, err: Option<Error>, ghost claimed: JobId)
    requires storage.Valid()
    modifies storage
    ensures storage.Valid()
    ensures job == null && err == None ==> storage.Contents() == old(storage.Contents()) && NoneQueued(storage.Contents(), queue)
    ensures job != null ==> err == None && fresh(job.Objects()) && claimed == job.id
    ensures job != null ==> DequeueCommits(old(storage.Contents()), queue, now, job.Value(), storage.Contents())
    ensures err.Some? ==> job == null && storage.Contents() == old(storage.Contents())
    ensures err.Some? ==> DequeueRefused(old(storage.Contents()), queue, claimed, now, err.value)
  {
    hide Memory.Valid, Memory.Contents, NewJobs, OnlyAdds, SameObjects, L.Dequeue;
    claimed := "";
    var tx := new Memory.Copy(storage);
    job, err := DequeueBody(tx, queue, now);
    if job != null {
      claimed := job.id;
    }
    if err.Some? {
      return null, err, claimed;
    }
    storage.Adopt(tx);
  }

  method CompleteTransaction(storage: Memory, job: JobObject<Running>, now: Time) returns (err: Option<Error>)
    requires storage.Valid()
    modifies storage
    ensures storage.Valid()
    ensures Wrote(err, old(storage.Contents()), L.Complete(old(storage.Contents()), old(job.Value()), now), storage.Contents())
  {
    hide Memory.Valid, Memory.Contents, NewJobs, L.Complete;
    var tx := new Memory.Copy(storage);
    err := CompleteBody(tx, job, now);
    if err == None {
      storage.Adopt(tx);
    }
  }

  method FailTransaction(storage: Memory, job: JobObject<Running>, message: string, stack: string, marshal: Encoder, now: Time)
    returns (err: Option<Error>, ghost error: string)
    requires storage.Valid()
    modifies storage
    ensures storage.Valid() && TextHolds(error, message, stack, marshal)
    ensures Wrote(err, old(storage.Contents()), L.Fail(old(storage.Contents()), old(job.Value()), error, now), storage.Contents())
  {
    hide Memory.Valid, Memory.Contents, NewJobs, L.Fail, TextHolds;
    var tx := new Memory.Copy(storage);
    err, error := FailBody(tx, job, message, stack, marshal, now);
    if err == None {
      storage.Adopt(tx);
    }
  }

  method EnqueueScheduledTransaction(storage: Memory, job: JobObject<Schedule>, now: Time) returns (err: Option<Error>)
    requires storage.Valid()
    modifies storage
    ensures storage.Valid()
    ensures Wrote(err, old(storage.Contents()), L.EnqueueScheduled(old(storage.Contents()), old(job.Value()), now), storage.Contents())
  {
    hide Memory.Valid, Memory.Contents, NewJobs, L.EnqueueScheduled;
    var tx := new Memory.Copy(storage);
    err := EnqueueScheduledBody(tx, job, now);
    if err == None {
      storage.Adopt(tx);
    }
  }

  method RetryTransaction(storage: Memory, id: JobId, now: Time) returns (err: Option<Error>)
    requires storage.Valid()
    modifies storage
    ensures storage.Valid()
    ensures Wrote(err, old(storage.Contents()), L.Retry(old(storage.Contents()), id, now), storage.Contents())
  {
    hide Memory.Valid, Memory.Contents, NewJobs, L.Retry;
    var tx := new Memory.Copy(storage);
    err := RetryBody(tx, id, now);
    if err == None {
      storage.Adopt(tx);
    }
  }

  method RetryFailedJobTransaction(storage: Memory, id: JobId, now: Time)
    returns (enqueuedJob: JobObject?<Queued>, err: Option<Error>)
    requires storage.Valid()
    modifies storage
    ensures storage.Valid()
    ensures Wrote(err, old(storage.Contents()), L.WebRetry(old(storage.Contents()), id, now), storage.Contents())
    ensures enqueuedJob == null <==> err.Some?
    ensures err == None ==> id in old(storage.Contents()).failed && fresh(enqueuedJob.Objects())
    ensures err == None ==> enqueuedJob.Value() == L.ToRetried(old(storage.Contents()).failed[id], now)
  {
    hide Memory.Valid, Memory.Contents, NewJobs, L.WebRetry, L.ToRetried;
    var tx := new Memory.Copy(storage);
    enqueuedJob, err := RetryFailedJobBody(tx, id, now);
    if err == None {
      storage.Adopt(tx);
    } else {
      enqueuedJob := null;
    }
  }

  class Processor {
    const storage: Memory
    var processingJobs: map<JobId, JobObject<Running>>
    /** The steps taken on the storage so far, by everybody. */
    ghost var run: seq<O.Step>

    constructor ()
      ensures Valid() && fresh(storage) && processingJobs == map[] && run == []
    {
      storage := new Memory();
      processingJobs, run := map[], [];
    }

    /** The tables are what the steps so far lead to. */
    ghost predicate Valid()
      reads this`run, storage, storage.state
      reads storage.state.scheduled, storage.state.scheduled.structs, storage.state.scheduled.payloads
      reads storage.state.enqueued, storage.state.enqueued.structs, storage.state.enqueued.payloads
      reads storage.state.processing, storage.state.processing.structs, storage.state.processing.payloads
      reads storage.state.processed, storage.state.processed.structs, storage.state.processed.payloads
      reads storage.state.failed, storage.state.failed.structs, storage.state.failed.payloads, storage.state.heartbeats
    {
      storage.Valid() && O.IsRun(run) && O.After(run).tables == storage.Contents()
    }

    method Enqueue(job: JobObject<Schedule>, checkedAt: Time, stampedAt: Time, ghost now: Time) returns (err: Option<Error>)
      requires Valid() && job.id !in O.After(run).accepted
      modifies storage.state.enqueued, storage.state.scheduled, this`run
      ensures Valid() && run == old(run) + [O.Accept(old(job.Value()), checkedAt, stampedAt, now)]
      ensures Wrote(err, old(storage.Contents()),
                    L.Enqueue(old(storage.Contents()), old(job.Value()), checkedAt, stampedAt), storage.Contents())
    {
      hide Memory.Valid, Memory.Contents, NewJobs, OnlyAdds, SameObjects, O.IsRun, O.After;
      ghost var step := O.Accept(job.Value(), checkedAt, stampedAt, now);
      Extend(run, step);
      run := run + [step];
      if job.phase.enqueueAt < checkedAt {
        var enqueuedJob := new JobObject(job.id, job.name, job.queue, job.payload, job.scheduledAt, Queued(0, stampedAt));
        err := storage.InsertToQueue(enqueuedJob);
      } else {
        err := storage.InsertToScheduled(job);
      }
    }

    method Dequeue(queue: string, now: Time) returns (job: JobObject?<Running>, err: Option<Error>)
      requires Valid()
      modifies storage, this`run
      ensures Valid()
      ensures job == null && err == None ==>
        run == old(run) && storage.Contents() == old(storage.Contents()) && NoneQueued(storage.Contents(), queue)
      ensures job != null ==> err == None && fresh(job.Objects()) && run == old(run) + [O.Dequeue(queue, job.id, now)]
      ensures job != null ==> job.Value() in O.After(run).claims
      ensures job != null ==> DequeueCommits(old(storage.Contents()), queue, now, job.Value(), storage.Contents())
      ensures err.Some? ==> job == null && storage.Contents() == old(storage.Contents())
      ensures err.Some? ==> exists id :: run == old(run) + [O.Dequeue(queue, id, now)]
                                         && DequeueRefused(old(storage.Contents()), queue, id, now, err.value)
    {
      hide Memory.Valid, Memory.Contents, O.IsRun, O.After, O.Next, L.Dequeue;
      ghost var claimed;
      job, err, claimed := DequeueTransaction(storage, queue, now);
      if job != null || err.Some? {
        ghost var step := O.Dequeue(queue, claimed, now);
        Extend(run, step);
        ClaimIsRecorded(run, queue, claimed, now);
        run := run + [step];
      }
    }

    method Complete(job: JobObject<Running>, now: Time) returns (err: Option<Error>)
      requires Valid() && job.Value() in O.After(run).claims
      modifies storage, this`run
      ensures Valid() && run == old(run) + [O.Complete(old(job.Value()), now)]
      ensures Wrote(err, old(storage.Contents()), L.Complete(old(storage.Contents()), old(job.Value()), now), storage.Contents())
      ensures err == None ==> Completes(old(storage.Contents()), storage.Contents(), old(job.Value()), now)
      ensures err.Some? <==> old(job.Value()).id in old(storage.Contents()).processed
    {
      hide Memory.Valid, Memory.Contents, O.IsRun, O.After, O.Next, L.Complete, Completes;
      CompleteEffect(storage.Contents(), job.Value(), now);
      ghost var step := O.Complete(job.Value(), now);
      Extend(run, step);
      run := run + [step];
      err := CompleteTransaction(storage, job, now);
    }

    method FailWithStack(job: JobObject<Running>, message: string, stack: string, marshal: Encoder, now: Time)
      returns (err: Option<Error>, ghost error: string)
      requires Valid() && job.Value() in O.After(run).claims
      modifies storage, this`run
      ensures Valid() && TextHolds(error, message, stack, marshal)
      ensures run == old(run) + [O.Fail(old(job.Value()), error, now)]
      ensures Wrote(err, old(storage.Contents()), L.Fail(old(storage.Contents()), old(job.Value()), error, now), storage.Contents())
      ensures FailsWith(old(storage.Contents()), storage.Contents(), old(job.Value()), message, stack, now, marshal)
    {
      hide Memory.Valid, Memory.Contents, O.IsRun, O.After, O.Next, L.Fail, TextHolds, FailsOnce, Leaves;
      ghost var claimed := job.Value();
      AttemptInRange(run, claimed);
      ghost var before, earlier := storage.Contents(), run;
      err, error := FailTransaction(storage, job, message, stack, marshal, now);
      ghost var step := O.Fail(claimed, error, now);
      Extend(earlier, step);
      run := run + [step];
      FailEffect(before, claimed, error, now);
    }

    method Fail(job: JobObject<Running>, message: string, marshal: Encoder, now: Time)
      returns (err: Option<Error>, ghost error: string)
      requires Valid() && job.Value() in O.After(run).claims
      modifies storage, this`run
      ensures Valid() && TextHolds(error, message, "", marshal)
      ensures run == old(run) + [O.Fail(old(job.Value()), error, now)]
      ensures Wrote(err, old(storage.Contents()), L.Fail(old(storage.Contents()), old(job.Value()), error, now), storage.Contents())
      ensures FailsWith(old(storage.Contents()), storage.Contents(), old(job.Value()), message, "", now, marshal)
    {
      hide Processor.Valid, Memory.Contents, O.After, L.Fail, TextHolds, FailsWith;
      err, error := FailWithStack(job, message, "", marshal, now);
    }

    method EnqueueScheduled(job: JobObject<Schedule>, now: Time) returns (err: Option<Error>)
      requires Valid() && job.Value() in O.After(run).snapshots
      modifies storage, this`run
      ensures Valid() && run == old(run) + [O.MoveScheduled(old(job.Value()), now)]
      ensures Wrote(err, old(storage.Contents()), L.EnqueueScheduled(old(storage.Contents()), old(job.Value()), now), storage.Contents())
    {
      hide Memory.Valid, Memory.Contents, O.IsRun, O.After, O.Next, L.EnqueueScheduled;
      ghost var step := O.MoveScheduled(job.Value(), now);
      Extend(run, step);
      run := run + [step];
      err := EnqueueScheduledTransaction(storage, job, now);
    }

    method Retry(id: JobId, now: Time) returns (err: Option<Error>)
      requires Valid()
      modifies storage, this`run
      ensures Valid() && run == old(run) + [O.Retry(id, now)]
      ensures Wrote(err, old(storage.Contents()), L.Retry(old(storage.Contents()), id, now), storage.Contents())
    {
      hide Memory.Valid, Memory.Contents, O.IsRun, O.After, O.Next, L.Retry;
      ghost var step := O.Retry(id, now);
      Extend(run, step);
      run := run + [step];
      err := RetryTransaction(storage, id, now);
    }

    method RetryFailedJob(id: JobId, now: Time) returns (enqueuedJob: JobObject?<Queued>, err: Option<Error>)
      requires Valid()
      modifies storage, this`run
      ensures Valid() && run == old(run) + [O.WebRetry(id, now)]
      ensures Wrote(err, old(storage.Contents()), L.WebRetry(old(storage.Contents()), id, now), storage.Contents())
      ensures enqueuedJob == null <==> err.Some?
      ensures err == None ==> id in old(storage.Contents()).failed && fresh(enqueuedJob.Objects())
      ensures err == None ==> enqueuedJob.Value() == L.ToRetried(old(storage.Contents()).failed[id], now)
    {
      hide Memory.Valid, Memory.Contents, O.IsRun, O.After, O.Next, L.WebRetry, L.ToRetried;
      ghost var step := O.WebRetry(id, now);
      Extend(run, step);
      run := run + [step];
      enqueuedJob, err := RetryFailedJobTransaction(storage, id, now);
    }

    /** What processJob does once the handler is back. */
    method RecordResult(job: JobObject<Running>, result: HandlerResult, completedAt: Time, failedAt: Time,
                        text: Error -> string, marshal: Encoder)
      requires Valid() && job.Value() in O.After(run).claims
      modifies storage, this`run
      ensures Valid() && old(run) <= run
      ensures forall i :: |old(run)| <= i < |run| ==> (run[i].Complete? || run[i].Fail?) && run[i].held == old(job.Value())
      ensures var t, t', j := old(storage.Contents()), storage.Contents(), old(job.Value());
        match result
        case Failed(message) => FailsWith(t, t', j, message, "", failedAt, marshal)
        case Panicked(value, stack) => FailsWith(t, t', j, "panic: " + value, stack, failedAt, marshal)
        case Succeeded =>
          if j.id !in t.processed then Completes(t, t', j, completedAt)
          else FailsWith(t, t', j, text(DuplicateJob), "", failedAt, marshal)
    {
      hide Processor.Valid, O.After, L.Complete, L.Fail, Memory.Contents, TextHolds, FailsWith, Completes;
      ghost var j := job.Value();
      match result {
        case Failed(message) => var _, _ := Fail(job, message, marshal, failedAt);
        case Panicked(value, stack) => var _, _ := FailWithStack(job, "panic: " + value, stack, marshal, failedAt);
        case Succeeded =>
          RecordGrows(run, O.Complete(j, completedAt));
          CompleteEffect(storage.Contents(), j, completedAt);
          var err := Complete(job, completedAt);
          if err.Some? {
            var _, _ := Fail(job, text(err.value), marshal, failedAt);
          }
      }
    }

    /** A worker's share: register, so that the emitter sees the job while the handler runs, record the result of
        the handler, deregister. */
    method ProcessJob(job: JobObject<Running>, result: HandlerResult, completedAt: Time, failedAt: Time,
                      text: Error -> string, marshal: Encoder)
      returns (ghost during: map<JobId, JobObject<Running>>)
      requires Valid() && job.Value() in O.After(run).claims
      modifies storage, this
      ensures during == old(processingJobs)[old(job.id) := job]
      ensures Valid() && processingJobs == old(processingJobs) - {old(job.id)} && old(run) <= run
      ensures forall i :: |old(run)| <= i < |run| ==> (run[i].Complete? || run[i].Fail?) && run[i].held == old(job.Value())
      ensures !result.Succeeded? ==> storage.Contents().processed == old(storage.Contents()).processed
      ensures var t, t', j := old(storage.Contents()), storage.Contents(), old(job.Value());
        match result
        case Failed(message) => FailsWith(t, t', j, message, "", failedAt, marshal)
        case Panicked(value, stack) => FailsWith(t, t', j, "panic: " + value, stack, failedAt, marshal)
        case Succeeded =>
          if j.id !in t.processed then Completes(t, t', j, completedAt)
          else FailsWith(t, t', j, text(DuplicateJob), "", failedAt, marshal)
    {
      hide Processor.Valid, O.After, Memory.Contents, TextHolds, Completes;
      var id := job.id;
      processingJobs := processingJobs[id := job];
      during := processingJobs;
      RecordResult(job, result, completedAt, failedAt, text, marshal);
      processingJobs := processingJobs - {id};
    }

    /** One round of the scheduled mover: the due jobs, oldest first, up to the first that is refused. */
    method EnqueueReadyScheduledJobs(now: Time, clock: nat -> Time) returns (err: Option<Error>, ghost jobs: seq<ScheduledJob>)
      requires Valid()
      modifies storage, this`run
      ensures Valid() && old(run) <= run && GoesOn(run, |old(run)|, err)
      ensures Lists(jobs, old(storage.Contents()).scheduled, (j: ScheduledJob) => j.phase.enqueueAt <= now)
      ensures forall i, j :: 0 <= i < j < |jobs| ==> jobs[i].phase.enqueueAt <= jobs[j].phase.enqueueAt
      ensures if err == None then |run| == |old(run)| + |jobs| else |run| <= |old(run)| + |jobs|
      ensures forall i :: 0 <= i < |run| - |old(run)| ==> run[|old(run)| + i] == O.MoveScheduled(jobs[i], clock(i))
    {
      hide Processor.Valid, Memory.Contents, O.After, O.IsRun, Lists, GoesOn, Shows, PayloadsOf, ByEnqueueAt;
      StorageIsValid(this);
      var due;
      due, jobs := storage.NextFromScheduled(now);
      DueAreSnapshots(run, jobs, now);
      err := EnqueueEach(due, jobs, clock);
      OldestDueFirst(jobs);
    }

    method EnqueueEach(due: seq<JobObject<Schedule>>, ghost jobs: seq<ScheduledJob>, clock: nat -> Time) returns (err: Option<Error>)
      requires Valid() && Shows(due, jobs)
      requires forall i :: 0 <= i < |jobs| ==> jobs[i] in O.After(run).snapshots
      modifies storage, this`run
      ensures Valid() && old(run) <= run && GoesOn(run, |old(run)|, err)
      ensures if err == None then |run| == |old(run)| + |jobs| else |run| <= |old(run)| + |jobs|
      ensures forall i :: 0 <= i < |run| - |old(run)| ==> run[|old(run)| + i] == O.MoveScheduled(jobs[i], clock(i))
    {
      hide Memory.Valid, Memory.Contents, O.IsRun, O.After, L.EnqueueScheduled, AllCommit;
      NothingYet(run);
      for n := 0 to |due|
        invariant Valid() && old(run) <= run && |run| == |old(run)| + n && AllCommit(run, |old(run)|)
        invariant forall i :: 0 <= i < n ==> run[|old(run)| + i] == O.MoveScheduled(jobs[i], clock(i))
        invariant Shows(due, jobs)
        invariant forall i :: n <= i < |jobs| ==> jobs[i] in O.After(run).snapshots
      {
        OneMoreStep(run, |old(run)|, O.MoveScheduled(jobs[n], clock(n)));
        RecordGrows(run, O.MoveScheduled(jobs[n], clock(n)));
        err := EnqueueScheduled(due[n], clock(n));
        if err.Some? {
          return;
        }
      }
      err := None;
    }

    /** One round of the retry mover, in the order of NextRetryAt. */
    method EnqueueReadyFailedJobs(now: Time, clock: nat -> Time) returns (err: Option<Error>, ghost jobs: seq<Job<Failure>>)
      requires Valid()
      modifies storage, this`run
      ensures Valid() && old(run) <= run && GoesOn(run, |old(run)|, err)
      ensures Lists(jobs, old(storage.Contents()).failed, (j: FailedJob) => j.phase.nextRetryAt <= now)
      ensures forall i, j :: 0 <= i < j < |jobs| ==> jobs[i].phase.nextRetryAt <= jobs[j].phase.nextRetryAt
      ensures if err == None then |run| == |old(run)| + |jobs| else |run| <= |old(run)| + |jobs|
      ensures forall i :: 0 <= i < |run| - |old(run)| ==> run[|old(run)| + i] == O.Retry(jobs[i].id, clock(i))
    {
      hide Processor.Valid, Memory.Contents, O.After, O.IsRun, Lists, GoesOn, Shows, PayloadsOf, ByNextRetryAt;
      StorageIsValid(this);
      var due;
      due, jobs := storage.NextFromFailed(now);
      err := RetryEach(due, jobs, clock);
      OldestRetryFirst(jobs);
    }

    method RetryEach(due: seq<JobObject<Failure>>, ghost jobs: seq<Job<Failure>>, clock: nat -> Time) returns (err: Option<Error>)
      requires Valid() && Shows(due, jobs)
      modifies storage, this`run
      ensures Valid() && old(run) <= run && GoesOn(run, |old(run)|, err)
      ensures if err == None then |run| == |old(run)| + |jobs| else |run| <= |old(run)| + |jobs|
      ensures forall i :: 0 <= i < |run| - |old(run)| ==> run[|old(run)| + i] == O.Retry(jobs[i].id, clock(i))
    {
      hide Memory.Valid, Memory.Contents, O.IsRun, O.After, L.Retry, AllCommit;
      NothingYet(run);
      for n := 0 to |due|
        invariant Valid() && old(run) <= run && |run| == |old(run)| + n && AllCommit(run, |old(run)|)
        invariant forall i :: 0 <= i < n ==> run[|old(run)| + i] == O.Retry(jobs[i].id, clock(i))
        invariant Shows(due, jobs)
      {
        OneMoreStep(run, |old(run)|, O.Retry(jobs[n].id, clock(n)));
        err := Retry(due[n].id, clock(n));
        if err.Some? {
          return;
        }
      }
      err := None;
    }

    /** One round of the orphan checker, which gives up for good when a fail is refused. */
    method CheckForOrphanedJobs(now: Time, clock: nat -> Time, marshal: Encoder)
      returns (err: Option<Error>, ghost jobs: seq<Job<Running>>, ghost errors: seq<string>)
      requires Valid()
      modifies storage, this`run
      ensures Valid() && old(run) <= run && GoesOn(run, |old(run)|, err)
      ensures var t := old(storage.Contents());
        Lists(jobs, t.processing, (j: ProcessingJob) => j.id in t.heartbeats && t.heartbeats[j.id] < now - 9 * SECOND)
      ensures if err == None then |run| == |old(run)| + |jobs| else |run| <= |old(run)| + |jobs|
      ensures |errors| == |run| - |old(run)|
      ensures forall i :: 0 <= i < |run| - |old(run)| ==>
        run[|old(run)| + i] == O.Fail(jobs[i], errors[i], clock(i)) && TextHolds(errors[i], "orphan job", "", marshal)
    {
      hide Processor.Valid, Memory.Contents, O.After, O.IsRun, Lists, GoesOn, TextHolds, Shows, PayloadsOf;
      StorageIsValid(this);
      var due;
      due, jobs := storage.GetByLastHeartbeatBefore(now - SP.ORPHAN_AGE);
      StaleAreClaims(run, jobs, now - SP.ORPHAN_AGE);
      err, errors := FailEach(due, jobs, clock, marshal);
    }

    method FailEach(due: seq<JobObject<Running>>, ghost jobs: seq<Job<Running>>, clock: nat -> Time, marshal: Encoder)
      returns (err: Option<Error>, ghost errors: seq<string>)
      requires Valid() && Shows(due, jobs)
      requires forall i :: 0 <= i < |jobs| ==> jobs[i] in O.After(run).claims
      modifies storage, this`run
      ensures Valid() && old(run) <= run && GoesOn(run, |old(run)|, err)
      ensures if err == None then |run| == |old(run)| + |jobs| else |run| <= |old(run)| + |jobs|
      ensures |errors| == |run| - |old(run)|
      ensures forall i :: 0 <= i < |run| - |old(run)| ==>
        run[|old(run)| + i] == O.Fail(jobs[i], errors[i], clock(i)) && TextHolds(errors[i], ERR_ORPHAN_JOB, "", marshal)
    {
      hide Memory.Valid, Memory.Contents, O.IsRun, O.After, L.Fail, AllCommit, TextHolds, FailsWith;
      NothingYet(run);
      errors := [];
      for n := 0 to |due|
        invariant Valid() && old(run) <= run && |run| == |old(run)| + n && AllCommit(run, |old(run)|)
        invariant |errors| == n
        invariant forall i :: 0 <= i < n ==>
          run[|old(run)| + i] == O.Fail(jobs[i], errors[i], clock(i)) && TextHolds(errors[i], ERR_ORPHAN_JOB, "", marshal)
        invariant Shows(due, jobs)
        invariant forall i :: n <= i < |jobs| ==> jobs[i] in O.After(run).claims
      {
        ghost var earlier, error := run, "";
        err, error := Fail(due[n], ERR_ORPHAN_JOB, marshal, clock(n));
        errors := errors + [error];
        OneMoreStep(earlier, |old(run)|, O.Fail(jobs[n], error, clock(n)));
        RecordGrows(earlier, O.Fail(jobs[n], error, clock(n)));
        if err.Some? {
          return;
        }
      }
      err := None;
    }

    /** One round of the emitter over processingJobs, in the map's order: a heartbeat for each of the entries,
        under the ID that its job has now. */
    method EmitHeartbeats(clock: nat -> Time) returns (ghost order: seq<JobId>)
      requires Valid()
      modifies storage.state.heartbeats, this`run
      ensures Valid() && old(run) <= run && Enumerates(order, processingJobs.Keys) && |run| == |old(run)| + |order|
      ensures forall i :: 0 <= i < |order| ==> run[|old(run)| + i] == O.Heartbeat(processingJobs[order[i]].id, clock(i))
    {
      hide Memory.Valid, Memory.Contents, O.IsRun, O.After;
      order := [];
      var todo, n := processingJobs.Keys, 0;
      while todo != {}
        invariant Valid() && storage.state == old(storage.state) && n == |order|
        invariant todo <= processingJobs.Keys && Enumerates(order, processingJobs.Keys - todo)
        invariant old(run) <= run && |run| == |old(run)| + n
        invariant forall i :: 0 <= i < n ==> order[i] in processingJobs
        invariant forall i :: 0 <= i < n ==> run[|old(run)| + i] == O.Heartbeat(processingJobs[order[i]].id, clock(i))
        decreases todo
      {
        var id :| id in todo;
        var about := processingJobs[id].id;
        Extend(run, O.Heartbeat(about, clock(n)));
        run := run + [O.Heartbeat(about, clock(n))];
        storage.EmitHeartbeat(about, clock(n));
        order, todo, n := order + [id], todo - {id}, n + 1;
      }
    }
  }

  lemma DueAreSnapshots(run: seq<O.Step>, jobs: seq<ScheduledJob>, now: Time)
    requires O.IsRun(run) && Lists(jobs, O.After(run).tables.scheduled, (j: ScheduledJob) => j.phase.enqueueAt <= now)
    ensures forall i :: 0 <= i < |jobs| ==> jobs[i] in O.After(run).snapshots
  {
    hide O.After;
    O.RunsAreSound(run);
  }

  lemma StaleAreClaims(run: seq<O.Step>, jobs: seq<ProcessingJob>, cutoff: Time)
    requires O.IsRun(run)
    requires var t := O.After(run).tables;
      Lists(jobs, t.processing, (j: ProcessingJob) => j.id in t.heartbeats && t.heartbeats[j.id] < cutoff)
    ensures forall i :: 0 <= i < |jobs| ==> jobs[i] in O.After(run).claims
  {
    hide O.After;
    O.RunsAreSound(run);
  }

  lemma StorageIsValid(p: Processor)
    requires p.Valid()
    ensures p.storage.Valid() && O.IsRun(p.run) && O.After(p.run).tables == p.storage.Contents()
  {
  }

  lemma OldestDueFirst(jobs: seq<ScheduledJob>)
    requires ByEnqueueAt(jobs)
    ensures forall i, j :: 0 <= i < j < |jobs| ==> jobs[i].phase.enqueueAt <= jobs[j].phase.enqueueAt
  {
  }

  lemma OldestRetryFirst(jobs: seq<FailedJob>)
    requires ByNextRetryAt(jobs)
    ensures forall i, j :: 0 <= i < j < |jobs| ==> jobs[i].phase.nextRetryAt <= jobs[j].phase.nextRetryAt
  {
  }

  lemma NothingYet(run: seq<O.Step>)
    ensures AllCommit(run, |run|)
  {
  }

  /** A claimed attempt is one of twenty. */
  lemma AttemptInRange(run: seq<O.Step>, claimed: ProcessingJob)
    requires O.IsRun(run) && claimed in O.After(run).claims
    ensures 0 <= claimed.phase.retryCount <= 19
  {
    O.RunsAreSound(run);
    assert O.Reached(O.After(run).claims, claimed.id, claimed.phase.retryCount);
  }

  /** Whatever the code has done, the store is in a state of the open regime: no accepted job is lost. */
  lemma CodeIsSound(p: Processor)
    requires p.Valid()
    ensures var w := O.After(p.run); O.Sound(w) && w.tables == p.storage.Contents()
  {
    O.RunsAreSound(p.run);
  }
}
