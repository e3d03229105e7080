/** storage.Memory on the heap: five maps of pointers to job structs, and the heartbeats. */
module MemoryStore {
  import opened Jobs
  import S = Storage
  import opened Storage
  import opened JobMaps
  import opened JobQuery
  import opened Paging

  class HeartbeatMap {
    var beats: map<JobId, Time>

    constructor (beats: map<JobId, Time>)
      ensures this.beats == beats
    {
      this.beats := beats;
    }

    method Beat(id: JobId, now: Time)
      modifies this
      ensures beats == old(beats)[id := now]
    {
      beats := beats[id := now];
    }

    method Remove(id: JobId)
      modifies this
      ensures beats == old(beats) - {id}
    {
      beats := beats - {id};
    }
  }

  /** memoryState: its maps are made once and then changed in place. */
  class MemoryState {
    const scheduled: JobMap<Schedule>
    const enqueued: JobMap<Queued>
    const processing: JobMap<Running>
    const heartbeats: HeartbeatMap
    const processed: JobMap<Done>
    const failed: JobMap<Failure>

    constructor ()
      ensures Valid() && NewMaps(this) && NewJobs(this) && Contents() == EMPTY
    {
      scheduled := new JobMap();
      enqueued := new JobMap();
      processing := new JobMap();
      heartbeats := new HeartbeatMap(map[]);
      processed := new JobMap();
      failed := new JobMap();
    }

    constructor Of(scheduled: JobMap<Schedule>, enqueued: JobMap<Queued>, processing: JobMap<Running>,
                   heartbeats: HeartbeatMap, processed: JobMap<Done>, failed: JobMap<Failure>)
      ensures this.scheduled == scheduled && this.enqueued == enqueued && this.processing == processing
      ensures this.heartbeats == heartbeats && this.processed == processed && this.failed == failed
    {
      this.scheduled, this.enqueued, this.processing := scheduled, enqueued, processing;
      this.heartbeats, this.processed, this.failed := heartbeats, processed, failed;
    }

    method Clone() returns (cloned: MemoryState)
      requires Valid()
      ensures cloned.Valid() && cloned.Contents() == Contents() && NewMaps(cloned) && NewJobs(cloned)
    {
      hide JobMap.Valid;
      var scheduled', enqueued', processing' := CloneUnfinished();
      var heartbeats', processed', failed' := CloneFinished();
      cloned := new MemoryState.Of(scheduled', enqueued', processing', heartbeats', processed', failed');
    }

    method CloneUnfinished() returns (scheduled': JobMap<Schedule>, enqueued': JobMap<Queued>, processing': JobMap<Running>)
      requires Valid()
      ensures scheduled'.Valid() && enqueued'.Valid() && processing'.Valid()
      ensures scheduled'.rows == scheduled.rows && enqueued'.rows == enqueued.rows && processing'.rows == processing.rows
      ensures fresh(scheduled') && fresh(scheduled'.structs) && fresh(scheduled'.payloads)
      ensures fresh(enqueued') && fresh(enqueued'.structs) && fresh(enqueued'.payloads)
      ensures fresh(processing') && fresh(processing'.structs) && fresh(processing'.payloads)
    {
      hide JobMap.Valid;
      scheduled' := scheduled.Clone();
      enqueued' := enqueued.Clone();
      processing' := processing.Clone();
    }

    method CloneFinished() returns (heartbeats': HeartbeatMap, processed': JobMap<Done>, failed': JobMap<Failure>)
      requires Valid()
      ensures processed'.Valid() && failed'.Valid()
      ensures heartbeats'.beats == heartbeats.beats && processed'.rows == processed.rows && failed'.rows == failed.rows
      ensures fresh(heartbeats')
      ensures fresh(processed') && fresh(processed'.structs) && fresh(processed'.payloads)
      ensures fresh(failed') && fresh(failed'.structs) && fresh(failed'.payloads)
    {
      hide JobMap.Valid;
      heartbeats' := new HeartbeatMap(heartbeats.beats);
      processed' := processed.Clone();
      failed' := failed.Clone();
    }

    ghost predicate Valid()
      reads scheduled, scheduled.structs, scheduled.payloads, enqueued, enqueued.structs, enqueued.payloads
      reads processing, processing.structs, processing.payloads, processed, processed.structs, processed.payloads
      reads failed, failed.structs, failed.payloads
    {
      scheduled.Valid() && enqueued.Valid() && processing.Valid() && processed.Valid() && failed.Valid()
    }

    ghost function Contents(): Tables
      reads scheduled, enqueued, processing, heartbeats, processed, failed
    {
      Tables(scheduled.rows, enqueued.rows, processing.rows, heartbeats.beats, processed.rows, failed.rows)
    }
  }

  /** The state and its maps were not there before. */
  twostate predicate NewMaps(new s: MemoryState) {
    && fresh(s) && fresh(s.scheduled) && fresh(s.enqueued) && fresh(s.processing) && fresh(s.heartbeats)
    && fresh(s.processed) && fresh(s.failed)
  }

  /** The jobs and payloads of the state were not there before. */
  twostate predicate NewJobs(new s: MemoryState)
    reads s.scheduled, s.enqueued, s.processing, s.processed, s.failed
  {
    && fresh(s.scheduled.structs) && fresh(s.scheduled.payloads)
    && fresh(s.enqueued.structs) && fresh(s.enqueued.payloads)
    && fresh(s.processing.structs) && fresh(s.processing.payloads)
    && fresh(s.processed.structs) && fresh(s.processed.payloads)
    && fresh(s.failed.structs) && fresh(s.failed.payloads)
  }

  /** What a writing call leaves behind: its effect, or its error and the tables as they were. */
  predicate Wrote(err: Option<Error>, before: Tables, outcome: Outcome, after: Tables) {
    match outcome
    case Ok(t) => err == None && after == t
    case Err(e) => err == Some(e) && after == before
  }

  /** The jobs that are due first come first. */
  ghost predicate ByEnqueueAt(values: seq<ScheduledJob>) {
    forall i, j :: 0 <= i < j < |values| ==> values[i].phase.enqueueAt <= values[j].phase.enqueueAt
  }

  ghost predicate ByNextRetryAt(values: seq<FailedJob>) {
    forall i, j :: 0 <= i < j < |values| ==> values[i].phase.nextRetryAt <= values[j].phase.nextRetryAt
  }

  class Memory {
    var state: MemoryState

    constructor ()
      ensures Valid() && NewMaps(state) && NewJobs(state) && Contents() == EMPTY
    {
      state := new MemoryState();
    }

    /** The copy that the body of a transaction runs on. */
    constructor Copy(m: Memory)
      requires m.Valid()
      ensures Valid() && NewMaps(state) && NewJobs(state) && Contents() == m.Contents()
    {
      hide JobMap.Valid;
      var s := m.state.Clone();
      state := s;
    }

    ghost predicate Valid()
      reads this, state.scheduled, state.scheduled.structs, state.scheduled.payloads
      reads state.enqueued, state.enqueued.structs, state.enqueued.payloads
      reads state.processing, state.processing.structs, state.processing.payloads
      reads state.processed, state.processed.structs, state.processed.payloads
      reads state.failed, state.failed.structs, state.failed.payloads
    {
      state.Valid()
    }

    ghost function Contents(): Tables
      reads this, state.scheduled, state.enqueued, state.processing, state.heartbeats, state.processed, state.failed
    {
      state.Contents()
    }

    /** The end of Transact, when its body has succeeded on `tx`. */
    method Adopt(tx: Memory)
      requires tx.Valid()
      modifies this
      ensures Valid() && state == tx.state && Contents() == old(tx.Contents())
    {
      hide JobMap.Valid;
      state := tx.state;
    }

    method InsertToScheduled(job: JobObject<Schedule>) returns (err: Option<Error>)
      requires Valid()
      modifies state.scheduled
      ensures Valid() && state == old(state) && OnlyAdds(state.scheduled)
      ensures Wrote(err, old(Contents()), S.InsertToScheduled(old(Contents()), old(job.Value())), Contents())
    {
      hide JobMap.Valid;
      var ok := state.scheduled.Insert(job);
      err := if ok then None else Some(DuplicateJob);
    }

    method NextFromScheduled(now: Time) returns (jobs: seq<JobObject<Schedule>>, ghost values: seq<Job<Schedule>>)
      requires Valid()
      ensures fresh(jobs) && fresh(PayloadsOf(jobs)) && Shows(jobs, values)
      ensures Lists(values, Contents().scheduled, (j: Job<Schedule>) => j.phase.enqueueAt <= now)
      ensures ByEnqueueAt(values)
    {
      jobs, values := state.scheduled.Select((j: Job<Schedule>) => !(j.phase.enqueueAt > now), Earlier((p: Schedule) => p.enqueueAt));
    }

    method DeleteFromScheduled(id: JobId)
      requires Valid()
      modifies state.scheduled
      ensures Valid() && state == old(state) && SameObjects(state.scheduled)
      ensures Contents() == S.DeleteFromScheduled(old(Contents()), id)
    {
      hide JobMap.Valid;
      state.scheduled.Delete(id);
    }

    method ListScheduled(limit: uint, offset: uint)
      returns (page: Option<seq<JobObject<Schedule>>>, ghost all: seq<Job<Schedule>>)
      requires Valid()
      ensures Lists(all, Contents().scheduled, (j: Job<Schedule>) => true)
      ensures forall i, j :: 0 <= i < j < |all| ==> all[i].phase.enqueueAt >= all[j].phase.enqueueAt
      ensures page.Some? <==> Paginate(all, limit, offset).Some?
      ensures page.Some? ==> fresh(page.value) && fresh(PayloadsOf(page.value)) && Shows(page.value, Paginate(all, limit, offset).value)
    {
      page, all := state.scheduled.List((j: Job<Schedule>) => true, Later((p: Schedule) => p.enqueueAt), limit, offset);
    }

    method InsertToQueue(job: JobObject<Queued>) returns (err: Option<Error>)
      requires Valid()
      modifies state.enqueued
      ensures Valid() && state == old(state) && OnlyAdds(state.enqueued)
      ensures Wrote(err, old(Contents()), S.InsertToQueue(old(Contents()), old(job.Value())), Contents())
    {
      hide JobMap.Valid;
      var ok := state.enqueued.Insert(job);
      err := if ok then None else Some(AlreadyEnqueued);
    }

    /** Takes one of the oldest jobs of the queue; which one of several is up to map iteration. */
    method DeleteFromQueue(queue: string) returns (claimed: JobObject?<Queued>)
      requires Valid()
      modifies state.enqueued
      ensures Valid() && state == old(state) && SameObjects(state.enqueued)
      ensures claimed == null ==> Contents() == old(Contents())
      ensures claimed == null ==> forall id :: id in Contents().enqueued ==> Contents().enqueued[id].queue != queue
      ensures claimed != null ==> fresh(claimed.Objects()) && IsOldest(old(Contents().enqueued), queue, claimed.id)
      ensures claimed != null ==> claimed.Value() == old(Contents().enqueued)[claimed.id]
      ensures claimed != null ==> Contents() == RemoveFromQueue(old(Contents()), claimed.id)
    {
      hide JobMap.Valid;
      var id := Oldest(state.enqueued, queue);
      if id == None {
        return null;
      }
      claimed := state.enqueued.Take(id.value);
      assert Contents() == RemoveFromQueue(old(Contents()), id.value);
    }

    method GetFromQueue(queue: string) returns (next: JobObject?<Queued>)
      requires Valid()
      ensures next == null ==> forall id :: id in Contents().enqueued ==> Contents().enqueued[id].queue != queue
      ensures next != null ==> fresh(next.Objects()) && IsOldest(Contents().enqueued, queue, next.id)
      ensures next != null ==> next.Value() == Contents().enqueued[next.id]
    {
      hide JobMap.Valid;
      var id := Oldest(state.enqueued, queue);
      if id == None {
        return null;
      }
      next := state.enqueued.Get(id.value);
    }

    method ListEnqueued(queue: string, limit: uint, offset: uint)
      returns (page: Option<seq<JobObject<Queued>>>, ghost all: seq<Job<Queued>>)
      requires Valid()
      ensures Lists(all, Contents().enqueued, (j: Job<Queued>) => j.queue == queue)
      ensures forall i, j :: 0 <= i < j < |all| ==> all[i].phase.enqueuedAt <= all[j].phase.enqueuedAt
      ensures page.Some? <==> Paginate(all, limit, offset).Some?
      ensures page.Some? ==> fresh(page.value) && fresh(PayloadsOf(page.value)) && Shows(page.value, Paginate(all, limit, offset).value)
    {
      page, all := state.enqueued.List((j: Job<Queued>) => j.queue == queue, Earlier((p: Queued) => p.enqueuedAt), limit, offset);
    }

    method InsertToProcessing(job: JobObject<Running>) returns (err: Option<Error>)
      requires Valid()
      modifies state.processing, state.heartbeats
      ensures Valid() && state == old(state) && OnlyAdds(state.processing)
      ensures Wrote(err, old(Contents()), S.InsertToProcessing(old(Contents()), old(job.Value())), Contents())
    {
      hide JobMap.Valid;
      var id, startedAt := job.id, job.phase.startedAt;
      var ok := state.processing.Insert(job);
      if ok {
        state.heartbeats.Beat(id, startedAt);
      }
      err := if ok then None else Some(DuplicateJob);
    }

    method EmitHeartbeat(id: JobId, now: Time)
      requires Valid()
      modifies state.heartbeats
      ensures Valid() && state == old(state)
      ensures Contents() == S.EmitHeartbeat(old(Contents()), id, now)
    {
      hide JobMap.Valid;
      state.heartbeats.Beat(id, now);
    }

    method GetByLastHeartbeatBefore(timestamp: Time) returns (jobs: seq<JobObject<Running>>, ghost values: seq<ProcessingJob>)
      requires Valid()
      ensures fresh(jobs) && fresh(PayloadsOf(jobs)) && Shows(jobs, values)
      ensures var t := Contents();
        Lists(values, t.processing, (j: ProcessingJob) => j.id in t.heartbeats && t.heartbeats[j.id] < timestamp)
    {
      hide JobMap.Valid;
      jobs, values := StaleJobs(state.processing, state.heartbeats, timestamp, Contents());
    }

    method DeleteFromProcessing(id: JobId)
      requires Valid()
      modifies state.processing, state.heartbeats
      ensures Valid() && state == old(state) && SameObjects(state.processing)
      ensures Contents() == S.DeleteFromProcessing(old(Contents()), id)
    {
      hide JobMap.Valid;
      state.processing.Delete(id);
      state.heartbeats.Remove(id);
    }

    method ListProcessing(limit: uint, offset: uint)
      returns (page: Option<seq<JobObject<Running>>>, ghost all: seq<Job<Running>>)
      requires Valid()
      ensures Lists(all, Contents().processing, (j: Job<Running>) => true)
      ensures forall i, j :: 0 <= i < j < |all| ==> all[i].phase.enqueuedAt >= all[j].phase.enqueuedAt
      ensures page.Some? <==> Paginate(all, limit, offset).Some?
      ensures page.Some? ==> fresh(page.value) && fresh(PayloadsOf(page.value)) && Shows(page.value, Paginate(all, limit, offset).value)
    {
      page, all := state.processing.List((j: Job<Running>) => true, Later((p: Running) => p.enqueuedAt), limit, offset);
    }

    method InsertToProcessed(job: JobObject<Done>) returns (err: Option<Error>)
      requires Valid()
      modifies state.processed
      ensures Valid() && state == old(state) && OnlyAdds(state.processed)
      ensures Wrote(err, old(Contents()), S.InsertToProcessed(old(Contents()), old(job.Value())), Contents())
    {
      hide JobMap.Valid;
      var ok := state.processed.Insert(job);
      err := if ok then None else Some(DuplicateJob);
    }

    method ListProcessed(limit: uint, offset: uint)
      returns (page: Option<seq<JobObject<Done>>>, ghost all: seq<Job<Done>>)
      requires Valid()
      ensures Lists(all, Contents().processed, (j: Job<Done>) => true)
      ensures forall i, j :: 0 <= i < j < |all| ==>
        var a, b := all[i], all[j];
        a.phase.completedAt > b.phase.completedAt || (a.phase.completedAt == b.phase.completedAt && TextLess(a.id, b.id))
      ensures page.Some? <==> Paginate(all, limit, offset).Some?
      ensures page.Some? ==> fresh(page.value) && fresh(PayloadsOf(page.value)) && Shows(page.value, Paginate(all, limit, offset).value)
    {
      hide InOrder, Before;
      page, all := state.processed.List((j: Job<Done>) => true, Before((j: Job<Done>) => ProcessedRow(j)), limit, offset);
      ProcessedInOrder(all);
    }

    method InsertToFailed(job: JobObject<Failure>) returns (err: Option<Error>)
      requires Valid()
      modifies state.failed
      ensures Valid() && state == old(state) && OnlyAdds(state.failed)
      ensures Wrote(err, old(Contents()), S.InsertToFailed(old(Contents()), old(job.Value())), Contents())
    {
      hide JobMap.Valid;
      var ok := state.failed.Insert(job);
      err := if ok then None else Some(DuplicateJob);
    }

    method NextFromFailed(now: Time) returns (jobs: seq<JobObject<Failure>>, ghost values: seq<Job<Failure>>)
      requires Valid()
      ensures fresh(jobs) && fresh(PayloadsOf(jobs)) && Shows(jobs, values)
      ensures Lists(values, Contents().failed, (j: Job<Failure>) => j.phase.nextRetryAt <= now)
      ensures ByNextRetryAt(values)
    {
      jobs, values := state.failed.Select((j: Job<Failure>) => !(j.phase.nextRetryAt > now), Earlier((p: Failure) => p.nextRetryAt));
    }

    method DeleteFromFailed(id: JobId)
      requires Valid()
      modifies state.failed
      ensures Valid() && state == old(state) && SameObjects(state.failed)
      ensures Contents() == S.DeleteFromFailed(old(Contents()), id)
    {
      hide JobMap.Valid;
      state.failed.Delete(id);
    }

    method GetFailed(id: JobId) returns (job: JobObject?<Failure>)
      requires Valid()
      ensures job == null <==> id !in Contents().failed
      ensures job != null ==> fresh(job.Objects()) && job.Value() == Contents().failed[id]
    {
      job := state.failed.Get(id);
    }

    method ClaimFailed(id: JobId) returns (job: JobObject?<Failure>)
      requires Valid()
      modifies state.failed
      ensures Valid() && state == old(state) && SameObjects(state.failed)
      ensures job == null <==> id !in old(Contents().failed)
      ensures job != null ==> fresh(job.Objects()) && job.Value() == old(Contents().failed)[id]
      ensures Contents() == S.DeleteFromFailed(old(Contents()), id)
    {
      hide JobMap.Valid;
      job := state.failed.Take(id);
    }

    method ListFailed(limit: uint, offset: uint)
      returns (page: Option<seq<JobObject<Failure>>>, ghost all: seq<Job<Failure>>)
      requires Valid()
      ensures Lists(all, Contents().failed, (j: Job<Failure>) => true)
      ensures forall i, j :: 0 <= i < j < |all| ==> all[i].phase.nextRetryAt >= all[j].phase.nextRetryAt
      ensures page.Some? <==> Paginate(all, limit, offset).Some?
      ensures page.Some? ==> fresh(page.value) && fresh(PayloadsOf(page.value)) && Shows(page.value, Paginate(all, limit, offset).value)
    {
      page, all := state.failed.List((j: Job<Failure>) => true, Later((p: Failure) => p.nextRetryAt), limit, offset);
    }

    /** The dashboard's listing. No table reaches MAX_SLICE rows, below which paginateWithMore cannot panic. */
    method ListJobs(jobType: JobType, query: Query, text: Text) returns (listed: Listed, ghost reply: Reply)
      requires Valid()
      ensures |RowsOfType(Contents(), jobType)| < MAX_SLICE ==> !listed.Panic? && Answers(reply, Contents(), jobType, query, text)
      ensures match listed
        case ScheduledJobs(jobs, more) =>
          fresh(jobs) && fresh(PayloadsOf(jobs)) && ShowsPage(jobs, (j: Job<Schedule>) => ScheduledRow(j), more, reply)
        case EnqueuedJobs(jobs, more) =>
          fresh(jobs) && fresh(PayloadsOf(jobs)) && ShowsPage(jobs, (j: Job<Queued>) => EnqueuedRow(j), more, reply)
        case ProcessingJobs(jobs, more) =>
          fresh(jobs) && fresh(PayloadsOf(jobs)) && ShowsPage(jobs, (j: Job<Running>) => ProcessingRow(j), more, reply)
        case ProcessedJobs(jobs, more) =>
          fresh(jobs) && fresh(PayloadsOf(jobs)) && ShowsPage(jobs, (j: Job<Done>) => ProcessedRow(j), more, reply)
        case FailedJobs(jobs, more) =>
          fresh(jobs) && fresh(PayloadsOf(jobs)) && ShowsPage(jobs, (j: Job<Failure>) => FailedRow(j), more, reply)
        case UnknownType => reply == UnknownJobType
        case Panic => true
    {
      hide Memory.Valid, Memory.Contents, Answers, ShowsPage, RowsOfType;
      match jobType {
        case Scheduled => listed, reply := ListScheduledJobs(query, text);
        case Enqueued => listed, reply := ListEnqueuedJobs(query, text);
        case Processing => listed, reply := ListProcessingJobs(query, text);
        case Processed => listed, reply := ListProcessedJobs(query, text);
        case Failed => listed, reply := ListFailedJobs(query, text);
        case Unknown(_) =>
          listed, reply := UnknownType, UnknownJobType;
          UnknownAnswers(Contents(), jobType, query, text);
      }
    }

    method ListScheduledJobs(query: Query, text: Text) returns (listed: Listed, ghost reply: Reply)
      requires Valid()
      ensures |RowsOfType(Contents(), Scheduled)| < MAX_SLICE ==> !listed.Panic? && Answers(reply, Contents(), Scheduled, query, text)
      ensures listed.Panic? || listed.ScheduledJobs?
      ensures listed.ScheduledJobs? ==> fresh(listed.scheduled) && fresh(PayloadsOf(listed.scheduled))
      ensures listed.ScheduledJobs? ==> ShowsPage(listed.scheduled, (j: Job<Schedule>) => ScheduledRow(j), listed.more, reply)
    {
      hide Answers, ShowsPage;
      var page;
      page, reply := ListMatching(state.scheduled, (j: Job<Schedule>) => ScheduledRow(j), Contents(), Scheduled, query, text);
      listed := if page.Some? then ScheduledJobs(page.value.0, page.value.1) else Panic;
    }

    method ListEnqueuedJobs(query: Query, text: Text) returns (listed: Listed, ghost reply: Reply)
      requires Valid()
      ensures |RowsOfType(Contents(), Enqueued)| < MAX_SLICE ==> !listed.Panic? && Answers(reply, Contents(), Enqueued, query, text)
      ensures listed.Panic? || listed.EnqueuedJobs?
      ensures listed.EnqueuedJobs? ==> fresh(listed.enqueued) && fresh(PayloadsOf(listed.enqueued))
      ensures listed.EnqueuedJobs? ==> ShowsPage(listed.enqueued, (j: Job<Queued>) => EnqueuedRow(j), listed.more, reply)
    {
      hide Answers, ShowsPage;
      var page;
      page, reply := ListMatching(state.enqueued, (j: Job<Queued>) => EnqueuedRow(j), Contents(), Enqueued, query, text);
      listed := if page.Some? then EnqueuedJobs(page.value.0, page.value.1) else Panic;
    }

    method ListProcessingJobs(query: Query, text: Text) returns (listed: Listed, ghost reply: Reply)
      requires Valid()
      ensures |RowsOfType(Contents(), Processing)| < MAX_SLICE ==> !listed.Panic? && Answers(reply, Contents(), Processing, query, text)
      ensures listed.Panic? || listed.ProcessingJobs?
      ensures listed.ProcessingJobs? ==> fresh(listed.processing) && fresh(PayloadsOf(listed.processing))
      ensures listed.ProcessingJobs? ==> ShowsPage(listed.processing, (j: Job<Running>) => ProcessingRow(j), listed.more, reply)
    {
      hide Answers, ShowsPage;
      var page;
      page, reply := ListMatching(state.processing, (j: Job<Running>) => ProcessingRow(j), Contents(), Processing, query, text);
      listed := if page.Some? then ProcessingJobs(page.value.0, page.value.1) else Panic;
    }

    method ListProcessedJobs(query: Query, text: Text) returns (listed: Listed, ghost reply: Reply)
      requires Valid()
      ensures |RowsOfType(Contents(), Processed)| < MAX_SLICE ==> !listed.Panic? && Answers(reply, Contents(), Processed, query, text)
      ensures listed.Panic? || listed.ProcessedJobs?
      ensures listed.ProcessedJobs? ==> fresh(listed.processed) && fresh(PayloadsOf(listed.processed))
      ensures listed.ProcessedJobs? ==> ShowsPage(listed.processed, (j: Job<Done>) => ProcessedRow(j), listed.more, reply)
    {
      hide Answers, ShowsPage;
      var page;
      page, reply := ListMatching(state.processed, (j: Job<Done>) => ProcessedRow(j), Contents(), Processed, query, text);
      listed := if page.Some? then ProcessedJobs(page.value.0, page.value.1) else Panic;
    }

    method ListFailedJobs(query: Query, text: Text) returns (listed: Listed, ghost reply: Reply)
      requires Valid()
      ensures |RowsOfType(Contents(), Failed)| < MAX_SLICE ==> !listed.Panic? && Answers(reply, Contents(), Failed, query, text)
      ensures listed.Panic? || listed.FailedJobs?
      ensures listed.FailedJobs? ==> fresh(listed.failed) && fresh(PayloadsOf(listed.failed))
      ensures listed.FailedJobs? ==> ShowsPage(listed.failed, (j: Job<Failure>) => FailedRow(j), listed.more, reply)
    {
      hide Answers, ShowsPage;
      var page;
      page, reply := ListMatching(state.failed, (j: Job<Failure>) => FailedRow(j), Contents(), Failed, query, text);
      listed := if page.Some? then FailedJobs(page.value.0, page.value.1) else Panic;
    }

    /** None for a job type that does not exist. */
    method Count(jobType: JobType) returns (count: Option<nat>)
      requires Valid()
      ensures count == if jobType.Unknown? then None else Some(|RowsOfType(Contents(), jobType)|)
    {
      ghost var rows := RowsOfType(Contents(), jobType);
      match jobType {
        case Scheduled => SameKeysSameSize(state.scheduled.jobs, rows); return Some(|state.scheduled.jobs|);
        case Enqueued => SameKeysSameSize(state.enqueued.jobs, rows); return Some(|state.enqueued.jobs|);
        case Processing => SameKeysSameSize(state.processing.jobs, rows); return Some(|state.processing.jobs|);
        case Processed => SameKeysSameSize(state.processed.jobs, rows); return Some(|state.processed.jobs|);
        case Failed => SameKeysSameSize(state.failed.jobs, rows); return Some(|state.failed.jobs|);
        case Unknown(_) => return None;
      }
    }
  }

  // ---- listing ----

  /** The page of jobs that ListJobs returns with hasMore, or its error, or the panic of an impossible slice. */
  datatype Listed =
    | ScheduledJobs(scheduled: seq<JobObject<Schedule>>, more: bool)
    | EnqueuedJobs(enqueued: seq<JobObject<Queued>>, more: bool)
    | ProcessingJobs(processing: seq<JobObject<Running>>, more: bool)
    | ProcessedJobs(processed: seq<JobObject<Done>>, more: bool)
    | FailedJobs(failed: seq<JobObject<Failure>>, more: bool)
    | UnknownType
    | Panic

  /** The comparators with the ID as tie-break. */
  function Before<T(!new)>(row: Job<T> -> Row): (less: (Job<T>, Job<T>) -> bool)
    ensures IsStrict(less)
  {
    RowsAreStrict();
    (a: Job<T>, b: Job<T>) => MemoryBefore(row(a), row(b))
  }

  /** The latest CompletedAt first, and then by ID. */
  lemma ProcessedInOrder(all: seq<Job<Done>>)
    requires DistinctIds(all) && InOrder(all, Before((j: Job<Done>) => ProcessedRow(j)))
    ensures forall i, j :: 0 <= i < j < |all| ==>
      var a, b := all[i], all[j];
      a.phase.completedAt > b.phase.completedAt || (a.phase.completedAt == b.phase.completedAt && TextLess(a.id, b.id))
  {
    forall i, j | 0 <= i < j < |all|
      ensures var a, b := all[i], all[j];
        a.phase.completedAt > b.phase.completedAt || (a.phase.completedAt == b.phase.completedAt && TextLess(a.id, b.id))
    {
      TextLessIsTotal(all[i].id, all[j].id);
      assert !MemoryBefore(ProcessedRow(all[j]), ProcessedRow(all[i]));
    }
  }

  lemma RowsAreStrict()
    ensures forall a, b :: MemoryBefore(a, b) ==> !MemoryBefore(b, a)
    ensures forall a, b, c :: MemoryBefore(a, b) && MemoryBefore(b, c) ==> MemoryBefore(a, c)
  {
    forall a, b, c ensures MemoryBefore(a, b) ==> !MemoryBefore(b, a)
      ensures MemoryBefore(a, b) && MemoryBefore(b, c) ==> MemoryBefore(a, c)
    {
      if TypeOf(a) == TypeOf(b) == TypeOf(c) { MemoryBeforeIsStrictTotal(a, b, c); }
      if TypeOf(a) == TypeOf(b) { MemoryBeforeIsStrictTotal(a, b, a); }
    }
  }

  /** The job structs hold the rows of the reply. */
  ghost predicate ShowsPage<T(!new)>(jobs: seq<JobObject<T>>, row: Job<T> -> Row, more: bool, reply: Reply)
    reads jobs, PayloadsOf(jobs)
  {
    && reply.Page? && more == reply.hasMore && |jobs| == |reply.rows|
    && forall i :: 0 <= i < |jobs| ==> row(jobs[i].Value()) == reply.rows[i]
  }

  /** The case of one job type: collect what matches, sort and slice. */
  method ListMatching<T(!new)>(m: JobMap<T>, row: Job<T> -> Row, ghost t: Tables, jobType: JobType, query: Query, text: Text)
    returns (page: Option<(seq<JobObject<T>>, bool)>, ghost reply: Reply)
    requires m.Valid() && !jobType.Unknown? && Keyed(row, jobType)
    requires RowsOfType(t, jobType) == map id | id in m.rows :: row(m.rows[id])
    ensures |RowsOfType(t, jobType)| < MAX_SLICE ==> page.Some? && Answers(reply, t, jobType, query, text)
    ensures page.Some? ==> fresh(page.value.0) && fresh(PayloadsOf(page.value.0)) && ShowsPage(page.value.0, row, page.value.1, reply)
  {
    hide JobMap.Valid, IsStrict, InOrder, Lists, MatchesJobQuery, Keyed, Answers, Before, Shows, ShowsPage, RowsOfType;
    hide PaginateWithMore, ToRows, NormalizeJobQueryLimit, PayloadsOf;
    var limit := NormalizeJobQueryLimit(query.limit);
    var effective := WithDefaultQueue(jobType, query);
    var jobs;
    ghost var values;
    jobs, values := m.Select((j: Job<T>) => MatchesJobQuery(text, effective, row(j)), Before(row));
    page := PaginateWithMore(jobs, limit, query.offset);
    ghost var shown := PaginateWithMore(ToRows(values, row), limit, query.offset);
    PageShows(jobs, values, row, limit, query.offset);
    if |RowsOfType(t, jobType)| < MAX_SLICE {
      SelectedAnswers(values, m.rows, row, t, jobType, query, text);
    }
    if page.Some? {
      forall i | 0 <= i < |page.value.0| ensures page.value.0[i] in jobs { assert page.value.0[i] in page.value.0; }
      PayloadsAmong(page.value.0, jobs);
    }
    reply := if shown.Some? then Page(shown.value.0, shown.value.1) else UnknownJobType;
  }

  lemma PageShows<T(!new)>(jobs: seq<JobObject<T>>, values: seq<Job<T>>, row: Job<T> -> Row, limit: uint, offset: uint)
    requires Shows(jobs, values)
    ensures var page, shown := PaginateWithMore(jobs, limit, offset), PaginateWithMore(ToRows(values, row), limit, offset);
      && (page.Some? <==> shown.Some?)
      && (page.Some? ==> ShowsPage(page.value.0, row, page.value.1, Page(shown.value.0, shown.value.1)))
      && (page.Some? ==> forall job :: job in page.value.0 ==> job in jobs)
  {
    hide PaginateWithMore;
    var _ := SamePage(jobs, ToRows(values, row), limit, offset);
  }

  ghost predicate Keyed<T(!new)>(row: Job<T> -> Row, jobType: JobType) {
    forall j :: IdOf(row(j)) == j.id && TypeOf(row(j)) == jobType
  }

  function ToRows<T>(values: seq<Job<T>>, row: Job<T> -> Row): seq<Row> {
    seq(|values|, i requires 0 <= i < |values| => row(values[i]))
  }

  /** Pages are cut by position. */
  lemma SamePage<A, B>(xs: seq<A>, ys: seq<B>, limit: uint, offset: uint) returns (start: nat)
    requires |xs| == |ys|
    ensures var p, q := PaginateWithMore(xs, limit, offset), PaginateWithMore(ys, limit, offset);
      && (p.Some? <==> q.Some?)
      && (p.Some? ==>
            && start + |p.value.0| <= |xs| && |p.value.0| == |q.value.0| && p.value.1 == q.value.1
            && p.value.0 == xs[start..start + |p.value.0|] && q.value.0 == ys[start..start + |p.value.0|])
  {
    start := if offset as int < |xs| && ToInt(offset) >= 0 then ToInt(offset) else 0;
  }

  lemma SelectedAreSorted<T(!new)>(values: seq<Job<T>>, row: Job<T> -> Row, jobType: JobType)
    requires Keyed(row, jobType) && DistinctIds(values) && InOrder(values, Before(row))
    ensures SortedBy(ToRows(values, row), MemoryBefore)
  {
    hide MemoryBefore;
    var all := ToRows(values, row);
    forall i, j | 0 <= i < j < |all| ensures MemoryBefore(all[i], all[j]) {
      MemoryBeforeIsStrictTotal(all[i], all[j], all[i]);
      assert !Before(row)(values[j], values[i]);
    }
  }

  lemma SelectedAreKept<T(!new)>(values: seq<Job<T>>, jobs: map<JobId, Job<T>>, row: Job<T> -> Row, keep: Row -> bool)
    requires Lists(values, jobs, (j: Job<T>) => keep(row(j))) && forall j :: IdOf(row(j)) == j.id
    ensures var rows, all := (map id | id in jobs :: row(jobs[id])), ToRows(values, row);
      && (forall i :: 0 <= i < |all| ==> IdOf(all[i]) in rows && rows[IdOf(all[i])] == all[i] && keep(all[i]))
      && (forall id :: id in rows && keep(rows[id]) ==> rows[id] in all)
  {
    var all := ToRows(values, row);
    forall id | id in jobs && keep(row(jobs[id])) ensures row(jobs[id]) in all {
      var i :| 0 <= i < |values| && values[i] == jobs[id];
      assert all[i] == row(jobs[id]);
    }
  }

  lemma SelectedIsListing<T(!new)>(values: seq<Job<T>>, jobs: map<JobId, Job<T>>, row: Job<T> -> Row,
                                   t: Tables, jobType: JobType, query: Query, text: Text)
    requires RowsOfType(t, jobType) == (map id | id in jobs :: row(jobs[id])) && Keyed(row, jobType)
    requires Lists(values, jobs, (j: Job<T>) => MatchesJobQuery(text, WithDefaultQueue(jobType, query), row(j)))
    requires InOrder(values, Before(row))
    ensures IsQueryListing(ToRows(values, row), t, jobType, query, text) && |values| <= |RowsOfType(t, jobType)|
  {
    hide MatchesJobQuery, RowsOfType, MemoryBefore, Before, InOrder;
    SelectedAreSorted(values, row, jobType);
    SelectedAreKept(values, jobs, row, r => MatchesJobQuery(text, WithDefaultQueue(jobType, query), r));
    DistinctIdsFit(values, RowsOfType(t, jobType).Keys);
  }

  lemma {:induction false} DistinctIdsFit<T>(values: seq<Job<T>>, ids: set<JobId>)
    requires DistinctIds(values) && forall i :: 0 <= i < |values| ==> values[i].id in ids
    ensures |values| <= |ids|
  {
    if values != [] {
      var n := |values| - 1;
      DistinctIdsFit(values[..n], ids - {values[n].id});
    }
  }

  lemma UnknownAnswers(t: Tables, jobType: JobType, query: Query, text: Text)
    requires jobType.Unknown?
    ensures Answers(UnknownJobType, t, jobType, query, text)
  {
  }

  /** A page of the sorted jobs answers the query. */
  lemma SelectedAnswers<T(!new)>(values: seq<Job<T>>, jobs: map<JobId, Job<T>>, row: Job<T> -> Row,
                                 t: Tables, jobType: JobType, query: Query, text: Text)
    requires !jobType.Unknown? && |RowsOfType(t, jobType)| < MAX_SLICE
    requires RowsOfType(t, jobType) == (map id | id in jobs :: row(jobs[id])) && Keyed(row, jobType)
    requires Lists(values, jobs, (j: Job<T>) => MatchesJobQuery(text, WithDefaultQueue(jobType, query), row(j)))
    requires InOrder(values, Before(row))
    ensures var page := PaginateWithMore(ToRows(values, row), NormalizeJobQueryLimit(query.limit), query.offset);
      page.Some? && Answers(Page(page.value.0, page.value.1), t, jobType, query, text)
  {
    hide IsQueryListing, RowsOfType, InOrder, Lists, PaginateWithMore;
    SelectedIsListing(values, jobs, row, t, jobType, query, text);
    PageIsWindow(ToRows(values, row), NormalizeJobQueryLimit(query.limit), query.offset);
  }

  /** The loop over the heartbeats, which skips those without a processing row. */
  method StaleJobs(m: JobMap<Running>, heartbeats: HeartbeatMap, timestamp: Time, ghost t: Tables)
    returns (jobs: seq<JobObject<Running>>, ghost values: seq<ProcessingJob>)
    requires m.Valid() && t.processing == m.rows && t.heartbeats == heartbeats.beats
    ensures fresh(jobs) && fresh(PayloadsOf(jobs)) && Shows(jobs, values)
    ensures Lists(values, t.processing, (j: ProcessingJob) => j.id in t.heartbeats && t.heartbeats[j.id] < timestamp)
  {
    hide Lists;
    jobs, values := [], [];
    ghost var stale := (j: ProcessingJob) => j.id in t.heartbeats && t.heartbeats[j.id] < timestamp;
    var ids := heartbeats.beats.Keys;
    forall id | id in m.rows ensures m.rows[id].id == id { assert m.Stores(id); }
    NoneWithoutHeartbeat(t, timestamp);
    while ids != {}
      invariant ids <= heartbeats.beats.Keys && |jobs| == |values|
      invariant forall i :: 0 <= i < |jobs| ==> fresh(jobs[i].Objects()) && jobs[i].Value() == values[i]
      invariant Lists(values, m.rows - ids, stale)
      decreases ids
    {
      var id :| id in ids;
      if id in m.jobs {
        assert m.Stores(id);
        ListsOneMore(values, m.rows, ids, id, stale);
      } else {
        assert m.rows - (ids - {id}) == m.rows - ids;
      }
      if heartbeats.beats[id] < timestamp {
        if id in m.jobs {
          var copy := CloneJob(m.jobs[id]);
          jobs, values := jobs + [copy], values + [copy.Value()];
        }
      }
      ids := ids - {id};
    }
    assert m.rows - {} == m.rows;
  }

  lemma NoneWithoutHeartbeat(t: Tables, timestamp: Time)
    requires forall id :: id in t.processing ==> t.processing[id].id == id
    ensures Lists([], t.processing - t.heartbeats.Keys, (j: ProcessingJob) => j.id in t.heartbeats && t.heartbeats[j.id] < timestamp)
  {
  }

  /** The sizes of two maps with the same keys. */
  lemma SameKeysSameSize<A, B>(a: map<JobId, A>, b: map<JobId, B>)
    requires a.Keys == b.Keys
    ensures |a| == |b|
  {
    assert |a| == |a.Keys| && |b| == |b.Keys|;
  }

  /** A changed map holds no other objects than before. */
  twostate predicate SameObjects<T(!new)>(m: JobMap<T>)
    reads m
  {
    m.structs == old(m.structs) && m.payloads == old(m.payloads)
  }

  /** A changed map holds no other objects than before, except new ones. */
  twostate predicate OnlyAdds<T(!new)>(m: JobMap<T>)
    reads m
  {
    fresh(m.structs - old(m.structs)) && fresh(m.payloads - old(m.payloads))
  }

  method Oldest(m: JobMap<Queued>, queue: string) returns (oldest: Option<JobId>)
    requires m.Valid()
    ensures oldest == None ==> forall id :: id in m.rows ==> m.rows[id].queue != queue
    ensures oldest.Some? ==> IsOldest(m.rows, queue, oldest.value)
  {
    oldest := None;
    var ids := m.jobs.Keys;
    while ids != {}
      invariant ids <= m.jobs.Keys
      invariant oldest == None ==> forall id :: id in m.rows && id !in ids ==> m.rows[id].queue != queue
      invariant oldest.Some? ==> IsOldest(m.rows - ids, queue, oldest.value)
      decreases ids
    {
      var id :| id in ids;
      assert m.Stores(id) && (oldest.Some? ==> m.Stores(oldest.value));
      if m.jobs[id].queue == queue {
        if oldest == None || m.jobs[id].phase.enqueuedAt < m.jobs[oldest.value].phase.enqueuedAt {
          oldest := Some(id);
        }
      }
      assert m.rows - (ids - {id}) == (m.rows - ids)[id := m.rows[id]];
      ids := ids - {id};
    }
    assert m.rows - {} == m.rows;
  }
}
