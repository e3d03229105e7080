/** A caller shares no object with the store: it may change every job and payload it ever passed in or got
    back, between any two calls and inside transactions, and the store still holds what the calls gave it. */
module Isolation {
  import opened Jobs
  import opened Storage
  import opened JobQuery
  import opened Paging
  import opened JobMaps
  import opened MemoryStore
  import opened Transactions

  /** The objects a caller can reach. */
  datatype Hands = Hands(
    scheduled: set<JobObject<Schedule>>,
    enqueued: set<JobObject<Queued>>,
    processing: set<JobObject<Running>>,
    processed: set<JobObject<Done>>,
    failed: set<JobObject<Failure>>,
    payloads: set<PayloadMap>,
    /** All of these. */
    all: set<object>)

  function HandsOf(scheduled: set<JobObject<Schedule>>, enqueued: set<JobObject<Queued>>, processing: set<JobObject<Running>>,
                   processed: set<JobObject<Done>>, failed: set<JobObject<Failure>>, payloads: set<PayloadMap>): Hands {
    var s: set<object>, e: set<object>, p: set<object> := scheduled, enqueued, processing;
    var d: set<object>, f: set<object>, maps: set<object> := processed, failed, payloads;
    Hands(scheduled, enqueued, processing, processed, failed, payloads, s + e + p + d + f + maps)
  }

  ghost predicate Whole(h: Hands) {
    h == HandsOf(h.scheduled, h.enqueued, h.processing, h.processed, h.failed, h.payloads)
  }

  ghost predicate PayloadsIn<T>(jobs: set<JobObject<T>>, payloads: set<PayloadMap>)
    reads jobs
  {
    forall job :: job in jobs && job.payload != null ==> job.payload in payloads
  }

  /** Whatever a job in the caller's hands points to is in the caller's hands. */
  ghost predicate Closed(h: Hands)
    reads h.scheduled, h.enqueued, h.processing, h.processed, h.failed
  {
    && Whole(h)
    && PayloadsIn(h.scheduled, h.payloads) && PayloadsIn(h.enqueued, h.payloads) && PayloadsIn(h.processing, h.payloads)
    && PayloadsIn(h.processed, h.payloads) && PayloadsIn(h.failed, h.payloads)
  }

  ghost predicate MapApart<T(!new)>(m: JobMap<T>, jobs: set<JobObject<T>>, payloads: set<PayloadMap>)
    reads m
  {
    m.structs !! jobs && m.payloads !! payloads
  }

  /** No object is both in the store and in the caller's hands. */
  ghost predicate Apart(m: Memory, h: Hands)
    reads m, m.state, m.state.scheduled, m.state.enqueued, m.state.processing, m.state.processed, m.state.failed
  {
    var s := m.state;
    && MapApart(s.scheduled, h.scheduled, h.payloads) && MapApart(s.enqueued, h.enqueued, h.payloads)
    && MapApart(s.processing, h.processing, h.payloads) && MapApart(s.processed, h.processed, h.payloads)
    && MapApart(s.failed, h.failed, h.payloads)
  }

  // ---- what the caller does on its own ----

  /** Overwrites one job, which may share its payload map with any other. */
  method Mutate<T(0)>(jobs: set<JobObject<T>>, payloads: set<PayloadMap>)
    requires PayloadsIn(jobs, payloads)
    modifies jobs
    ensures PayloadsIn(jobs, payloads)
  {
    if jobs != {} {
      var job :| job in jobs;
      job.id, job.name, job.queue, job.scheduledAt, job.phase := *, *, *, *, *;
      if payloads == {} {
        job.payload := null;
      } else if * {
        var payload :| payload in payloads;
        job.payload := payload;
      }
    }
  }

  method CallerMutates(h: Hands)
    requires Closed(h)
    modifies h.scheduled, h.enqueued, h.processing, h.processed, h.failed, h.payloads
    ensures Closed(h)
  {
    Mutate(h.scheduled, h.payloads);
    Mutate(h.enqueued, h.payloads);
    Mutate(h.processing, h.payloads);
    Mutate(h.processed, h.payloads);
    Mutate(h.failed, h.payloads);
    if h.payloads != {} {
      var payload :| payload in h.payloads;
      payload.entries := *;
    }
  }

  const NOTHING := HandsOf({}, {}, {}, {}, {}, {})

  lemma NothingHeld()
    ensures Closed(NOTHING) && NOTHING.all == {}
  {
  }

  function Plus(h: Hands, got: Hands): Hands {
    HandsOf(h.scheduled + got.scheduled, h.enqueued + got.enqueued, h.processing + got.processing,
            h.processed + got.processed, h.failed + got.failed, h.payloads + got.payloads)
  }

  lemma PlusKeepsApart(m: Memory, h: Hands, got: Hands)
    requires Closed(h) && Apart(m, h) && Closed(got) && Apart(m, got)
    ensures Closed(Plus(h, got)) && Apart(m, Plus(h, got))
  {
  }

  method MakeJob<T>(payloads: set<PayloadMap>, phase: T) returns (job: JobObject<T>)
    ensures fresh(job) && (job.payload != null ==> job.payload in payloads)
  {
    var payload: PayloadMap? := null;
    var pick: bool := *;
    if payloads != {} && pick {
      payload :| payload in payloads;
    }
    var id: JobId, name: string, queue: string, scheduledAt: Time := *, *, *, *;
    job := new JobObject(id, name, queue, payload, scheduledAt, phase);
  }

  /** A new payload map, or a new job that points to any payload map the caller has. */
  method CallerMakes(h: Hands) returns (made: Hands)
    requires Closed(h)
    ensures Whole(made) && fresh(made.all) && Closed(Plus(h, made))
  {
    var kind: int := *;
    if kind == 0 {
      var phase: Schedule := *;
      var job := MakeJob(h.payloads, phase);
      made := HandsOf({job}, {}, {}, {}, {}, {});
    } else if kind == 1 {
      var phase: Queued := *;
      var job := MakeJob(h.payloads, phase);
      made := HandsOf({}, {job}, {}, {}, {}, {});
    } else if kind == 2 {
      var phase: Running := *;
      var job := MakeJob(h.payloads, phase);
      made := HandsOf({}, {}, {job}, {}, {}, {});
    } else if kind == 3 {
      var phase: Done := *;
      var job := MakeJob(h.payloads, phase);
      made := HandsOf({}, {}, {}, {job}, {}, {});
    } else if kind == 4 {
      var phase: Failure := *;
      var job := MakeJob(h.payloads, phase);
      made := HandsOf({}, {}, {}, {}, {job}, {});
    } else {
      var entries: map<string, string> := *;
      var payload := new PayloadMap(entries);
      made := HandsOf({}, {}, {}, {}, {}, {payload});
    }
  }

  // ---- calls ----

  // Each passes in any job the caller holds.

  method PassScheduled(m: Memory, h: Hands) returns (ghost call: Call, err: Option<Error>)
    requires m.Valid() && Apart(m, h) && h.scheduled != {}
    modifies m.state.scheduled
    ensures m.Valid() && m.state == old(m.state) && Apart(m, h)
    ensures err.Some? ==> m.Contents() == old(m.Contents())
    ensures CallMay(old(m.Contents()), call, Ended(err, m.Contents()))
  {
    hide Memory.Valid, Memory.Contents;
    var job :| job in h.scheduled;
    call := InsertToScheduled(job.Value());
    err := m.InsertToScheduled(job);
  }

  method PassEnqueued(m: Memory, h: Hands) returns (ghost call: Call, err: Option<Error>)
    requires m.Valid() && Apart(m, h) && h.enqueued != {}
    modifies m.state.enqueued
    ensures m.Valid() && m.state == old(m.state) && Apart(m, h)
    ensures err.Some? ==> m.Contents() == old(m.Contents())
    ensures CallMay(old(m.Contents()), call, Ended(err, m.Contents()))
  {
    hide Memory.Valid, Memory.Contents;
    var job :| job in h.enqueued;
    call := InsertToQueue(job.Value());
    err := m.InsertToQueue(job);
  }

  method PassProcessing(m: Memory, h: Hands) returns (ghost call: Call, err: Option<Error>)
    requires m.Valid() && Apart(m, h) && h.processing != {}
    modifies m.state.processing, m.state.heartbeats
    ensures m.Valid() && m.state == old(m.state) && Apart(m, h)
    ensures err.Some? ==> m.Contents() == old(m.Contents())
    ensures CallMay(old(m.Contents()), call, Ended(err, m.Contents()))
  {
    hide Memory.Valid, Memory.Contents;
    var job :| job in h.processing;
    call := InsertToProcessing(job.Value());
    err := m.InsertToProcessing(job);
  }

  method PassProcessed(m: Memory, h: Hands) returns (ghost call: Call, err: Option<Error>)
    requires m.Valid() && Apart(m, h) && h.processed != {}
    modifies m.state.processed
    ensures m.Valid() && m.state == old(m.state) && Apart(m, h)
    ensures err.Some? ==> m.Contents() == old(m.Contents())
    ensures CallMay(old(m.Contents()), call, Ended(err, m.Contents()))
  {
    hide Memory.Valid, Memory.Contents;
    var job :| job in h.processed;
    call := InsertToProcessed(job.Value());
    err := m.InsertToProcessed(job);
  }

  method PassFailed(m: Memory, h: Hands) returns (ghost call: Call, err: Option<Error>)
    requires m.Valid() && Apart(m, h) && h.failed != {}
    modifies m.state.failed
    ensures m.Valid() && m.state == old(m.state) && Apart(m, h)
    ensures err.Some? ==> m.Contents() == old(m.Contents())
    ensures CallMay(old(m.Contents()), call, Ended(err, m.Contents()))
  {
    hide Memory.Valid, Memory.Contents;
    var job :| job in h.failed;
    call := InsertToFailed(job.Value());
    err := m.InsertToFailed(job);
  }

  function PayloadOf<T>(job: JobObject<T>): set<PayloadMap>
    reads job
  {
    if job.payload == null then {} else {job.payload}
  }

  /** Deletes or refreshes anything by its ID. */
  method AnyDelete(m: Memory) returns (ghost call: Call)
    requires m.Valid()
    modifies m.state.scheduled, m.state.processing, m.state.heartbeats, m.state.failed
    ensures m.Valid() && m.state == old(m.state) && SameJobs(m)
    ensures CallMay(old(m.Contents()), call, Ok(m.Contents()))
  {
    hide Memory.Valid, Memory.Contents;
    var kind: int, id: JobId := *, *;
    if kind == 0 {
      call := DeleteFromScheduled(id);
      m.DeleteFromScheduled(id);
    } else if kind == 1 {
      var now: Time := *;
      call := EmitHeartbeat(id, now);
      m.EmitHeartbeat(id, now);
    } else if kind == 2 {
      call := DeleteFromProcessing(id);
      m.DeleteFromProcessing(id);
    } else {
      call := DeleteFromFailed(id);
      m.DeleteFromFailed(id);
    }
  }

  /** Takes a job out of a queue or the failed jobs and hands over what comes back. */
  method AnyClaim(m: Memory) returns (ghost call: Call, got: Hands)
    requires m.Valid()
    modifies m.state.enqueued, m.state.failed
    ensures m.Valid() && m.state == old(m.state) && SameJobs(m)
    ensures CallMay(old(m.Contents()), call, Ok(m.Contents()))
    ensures Closed(got) && fresh(got.all)
  {
    hide Memory.Valid, Memory.Contents;
    got := NOTHING;
    var failed: bool := *;
    if failed {
      var id: JobId := *;
      call := ClaimFailed(id);
      var job := m.ClaimFailed(id);
      if job != null {
        got := HandsOf({}, {}, {}, {}, {job}, PayloadOf(job));
      }
    } else {
      var queue: string := *;
      call := DeleteFromQueue(queue);
      var job := m.DeleteFromQueue(queue);
      if job != null {
        got := HandsOf({}, {job}, {}, {}, {}, PayloadOf(job));
      }
    }
  }

  twostate predicate SameJobs(m: Memory)
    reads m, m.state, m.state.scheduled, m.state.enqueued, m.state.processing, m.state.processed, m.state.failed
  {
    && m.state == old(m.state)
    && SameObjects(m.state.scheduled) && SameObjects(m.state.enqueued) && SameObjects(m.state.processing)
    && SameObjects(m.state.processed) && SameObjects(m.state.failed)
  }

  /** Asks for any one job. */
  method AnyGet(m: Memory) returns (got: Hands)
    requires m.Valid()
    ensures Closed(got) && fresh(got.all)
  {
    hide Memory.Valid, Memory.Contents, IsOldest;
    got := NOTHING;
    var failed: bool := *;
    if failed {
      var id: JobId := *;
      var job := m.GetFailed(id);
      if job != null {
        got := HandsOf({}, {}, {}, {}, {job}, PayloadOf(job));
      }
    } else {
      var queue: string := *;
      var job := m.GetFromQueue(queue);
      if job != null {
        got := HandsOf({}, {job}, {}, {}, {}, PayloadOf(job));
      }
    }
  }

  /** Asks for any list that a background loop asks for. */
  method AnyBatch(m: Memory) returns (got: Hands)
    requires m.Valid()
    ensures Closed(got) && fresh(got.all)
  {
    hide Memory.Valid, Memory.Contents, Lists, InOrder, Shows;
    var kind: int, now: Time := *, *;
    if kind == 0 {
      var jobs, _ := m.NextFromScheduled(now);
      got := ScheduledIn(jobs);
    } else if kind == 1 {
      var jobs, _ := m.GetByLastHeartbeatBefore(now);
      got := ProcessingIn(jobs);
    } else {
      var jobs, _ := m.NextFromFailed(now);
      got := FailedIn(jobs);
    }
  }

  /** Asks for any page of a legacy listing. */
  method AnyPage(m: Memory) returns (got: Hands)
    requires m.Valid()
    ensures Closed(got) && fresh(got.all)
  {
    hide Memory.Valid, Memory.Contents, Lists, InOrder, Shows, Paginate, Closed, HandsOf;
    hide ScheduledIn, EnqueuedIn, ProcessingIn, ProcessedIn, FailedIn;
    got := NOTHING;
    var kind: int, queue: string, limit: uint, offset: uint := *, *, *, *;
    if kind == 0 {
      var page, _ := m.ListScheduled(limit, offset);
      if page.Some? { got := ScheduledIn(page.value); }
    } else if kind == 1 {
      var page, _ := m.ListEnqueued(queue, limit, offset);
      if page.Some? { got := EnqueuedIn(page.value); }
    } else if kind == 2 {
      var page, _ := m.ListProcessing(limit, offset);
      if page.Some? { got := ProcessingIn(page.value); }
    } else if kind == 3 {
      var page, _ := m.ListProcessed(limit, offset);
      if page.Some? { got := ProcessedIn(page.value); }
    } else {
      var page, _ := m.ListFailed(limit, offset);
      if page.Some? { got := FailedIn(page.value); }
    }
    NothingHeld();
  }

  /** Asks for any page of the dashboard's listing. */
  method AnyListing(m: Memory, text: Text) returns (got: Hands)
    requires m.Valid()
    ensures Closed(got) && fresh(got.all)
  {
    hide Memory.Valid, Memory.Contents, Answers, ShowsPage, Closed, HandsOf;
    hide ScheduledIn, EnqueuedIn, ProcessingIn, ProcessedIn, FailedIn;
    got := NOTHING;
    var jobType: JobType, query: Query := *, *;
    var listed, _ := m.ListJobs(jobType, query, text);
    match listed {
      case ScheduledJobs(jobs, _) => got := ScheduledIn(jobs);
      case EnqueuedJobs(jobs, _) => got := EnqueuedIn(jobs);
      case ProcessingJobs(jobs, _) => got := ProcessingIn(jobs);
      case ProcessedJobs(jobs, _) => got := ProcessedIn(jobs);
      case FailedJobs(jobs, _) => got := FailedIn(jobs);
      case _ => NothingHeld();
    }
  }

  function ScheduledIn(jobs: seq<JobObject<Schedule>>): (got: Hands)
    reads jobs
    ensures Closed(got)
    ensures forall o :: o in got.all ==> (exists job :: job in jobs && job == o) || exists p :: p in PayloadsOf(jobs) && p == o
  {
    var all := set job | job in jobs;
    HandsOf(all, {}, {}, {}, {}, PayloadsOf(jobs))
  }

  function EnqueuedIn(jobs: seq<JobObject<Queued>>): (got: Hands)
    reads jobs
    ensures Closed(got)
    ensures forall o :: o in got.all ==> (exists job :: job in jobs && job == o) || exists p :: p in PayloadsOf(jobs) && p == o
  {
    var all := set job | job in jobs;
    HandsOf({}, all, {}, {}, {}, PayloadsOf(jobs))
  }

  function ProcessingIn(jobs: seq<JobObject<Running>>): (got: Hands)
    reads jobs
    ensures Closed(got)
    ensures forall o :: o in got.all ==> (exists job :: job in jobs && job == o) || exists p :: p in PayloadsOf(jobs) && p == o
  {
    var all := set job | job in jobs;
    HandsOf({}, {}, all, {}, {}, PayloadsOf(jobs))
  }

  function ProcessedIn(jobs: seq<JobObject<Done>>): (got: Hands)
    reads jobs
    ensures Closed(got)
    ensures forall o :: o in got.all ==> (exists job :: job in jobs && job == o) || exists p :: p in PayloadsOf(jobs) && p == o
  {
    var all := set job | job in jobs;
    HandsOf({}, {}, {}, all, {}, PayloadsOf(jobs))
  }

  function FailedIn(jobs: seq<JobObject<Failure>>): (got: Hands)
    reads jobs
    ensures Closed(got)
    ensures forall o :: o in got.all ==> (exists job :: job in jobs && job == o) || exists p :: p in PayloadsOf(jobs) && p == o
  {
    var all := set job | job in jobs;
    HandsOf({}, {}, {}, {}, all, PayloadsOf(jobs))
  }

  // ---- a session ----

  /** The caller changes its objects; the store does not notice. */
  method Outside(m: Memory, h: Hands)
    requires m.Valid() && Closed(h) && Apart(m, h)
    modifies h.all
    ensures m.Valid() && m.Contents() == old(m.Contents()) && m.state == old(m.state)
    ensures Closed(h) && Apart(m, h)
  {
    hide Memory.Valid, Memory.Contents;
    CallerMutates(h);
  }

  /** The caller makes new objects or reads. */
  method Gather(m: Memory, h: Hands, text: Text) returns (h': Hands)
    requires m.Valid() && Closed(h) && Apart(m, h)
    ensures Closed(h') && Apart(m, h') && fresh(h'.all - h.all)
  {
    hide Memory.Valid, Closed, Apart;
    var make: bool := *;
    if make {
      h' := Make(m, h);
    } else {
      h' := Read(m, h, text);
    }
  }

  method Make(m: Memory, h: Hands) returns (h': Hands)
    requires m.Valid() && Closed(h) && Apart(m, h)
    ensures Closed(h') && Apart(m, h') && fresh(h'.all - h.all)
  {
    hide Memory.Valid, Memory.Contents, PayloadsIn;
    var made := CallerMakes(h);
    h' := Plus(h, made);
  }

  method Read(m: Memory, h: Hands, text: Text) returns (h': Hands)
    requires m.Valid() && Closed(h) && Apart(m, h)
    ensures Closed(h') && Apart(m, h') && fresh(h'.all - h.all)
  {
    hide Memory.Valid, Memory.Contents, PayloadsIn;
    var got := AnyRead(m, text);
    PlusKeepsApart(m, h, got);
    h' := Plus(h, got);
  }

  method AnyRead(m: Memory, text: Text) returns (got: Hands)
    requires m.Valid()
    ensures Closed(got) && fresh(got.all)
  {
    hide Memory.Valid, Memory.Contents;
    var kind: int := *;
    if kind == 0 {
      got := AnyGet(m);
    } else if kind == 1 {
      got := AnyBatch(m);
    } else if kind == 2 {
      got := AnyPage(m);
    } else {
      got := AnyListing(m, text);
    }
  }

  /** The caller deletes something, or claims a job and keeps what comes back. */
  method Remove(m: Memory, h: Hands) returns (h': Hands, ghost call: Call)
    requires m.Valid() && Closed(h) && Apart(m, h)
    modifies m.state.scheduled, m.state.enqueued, m.state.processing, m.state.heartbeats, m.state.failed
    ensures m.Valid() && m.state == old(m.state)
    ensures Closed(h') && Apart(m, h') && fresh(h'.all - h.all)
    ensures CallMay(old(m.Contents()), call, Ok(m.Contents()))
  {
    hide Memory.Valid, Memory.Contents, CallMay, PayloadsIn;
    h' := h;
    var claim: bool := *;
    if claim {
      var got;
      call, got := AnyClaim(m);
      PlusKeepsApart(m, h, got);
      h' := Plus(h, got);
    } else {
      call := AnyDelete(m);
    }
  }

  /** One writing call, with any argument in the caller's hands. */
  method Inside(m: Memory, h: Hands) returns (h': Hands, ghost log: seq<Stmt>)
    requires m.Valid() && Closed(h) && Apart(m, h)
    modifies m.state.scheduled, m.state.enqueued, m.state.processing, m.state.heartbeats, m.state.processed, m.state.failed
    ensures m.Valid() && m.state == old(m.state)
    ensures Closed(h') && Apart(m, h') && fresh(h'.all - h.all)
    ensures BodyMay(old(m.Contents()), log, Ok(m.Contents()))
  {
    hide Memory.Valid, Memory.Contents, CallMay, Apart, PayloadsIn, Whole;
    h' := h;
    var kind: int := *;
    ghost var call: Call, before := *, m.Contents();
    var err: Option<Error> := None;
    if kind == 0 && h.scheduled != {} {
      call, err := PassScheduled(m, h);
    } else if kind == 1 && h.enqueued != {} {
      call, err := PassEnqueued(m, h);
    } else if kind == 2 && h.processing != {} {
      call, err := PassProcessing(m, h);
    } else if kind == 3 && h.processed != {} {
      call, err := PassProcessed(m, h);
    } else if kind == 4 && h.failed != {} {
      call, err := PassFailed(m, h);
    } else {
      h', call := Remove(m, h);
    }
    log := [Do(call, true)];
    OneCall(before, call, Ended(err, m.Contents()), m.Contents());
  }

  lemma OneCall(before: Tables, call: Call, r: Outcome, after: Tables)
    requires CallMay(before, call, r) && Swallowed(before, true, r) == Ok(after)
    ensures BodyMay(before, [Do(call, true)], Ok(after))
  {
    OneStmt(before, Do(call, true), after);
  }

  /** The copy that a transaction works on shares nothing with anybody. */
  method Begin(m: Memory, h: Hands) returns (tx: Memory)
    requires m.Valid()
    ensures fresh(tx) && NewMaps(tx.state) && tx.Valid() && tx.Contents() == m.Contents() && Apart(tx, h)
  {
    hide Memory.Valid, Memory.Contents;
    tx := new Memory.Copy(m);
  }

  method Commit(m: Memory, tx: Memory, h: Hands)
    requires tx.Valid() && Closed(h) && Apart(tx, h) && tx != m
    modifies m
    ensures m.Valid() && m.state == tx.state && m.Contents() == old(tx.Contents())
    ensures Closed(h) && Apart(m, h)
  {
    hide Memory.Valid, Memory.Contents, MapApart;
    m.Adopt(tx);
  }

  /** None of these objects is a stored job or payload. */
  ghost predicate NotStored(s: MemoryState, held: set<object>)
    reads s.scheduled, s.enqueued, s.processing, s.processed, s.failed
  {
    && s.scheduled.structs !! held && s.scheduled.payloads !! held
    && s.enqueued.structs !! held && s.enqueued.payloads !! held
    && s.processing.structs !! held && s.processing.payloads !! held
    && s.processed.structs !! held && s.processed.payloads !! held
    && s.failed.structs !! held && s.failed.payloads !! held
  }

  lemma ApartMeansNotStored(m: Memory, h: Hands)
    requires Whole(h)
    ensures Apart(m, h) <==> NotStored(m.state, h.all)
    ensures m !in h.all && m.state !in h.all && m.state.heartbeats !in h.all
    ensures m.state.scheduled !in h.all && m.state.enqueued !in h.all && m.state.processing !in h.all
    ensures m.state.processed !in h.all && m.state.failed !in h.all
  {
  }

  /** The two states have no map in common. */
  ghost predicate OtherMaps(s: MemoryState, t: MemoryState) {
    && s.scheduled != t.scheduled && s.enqueued != t.enqueued && s.processing != t.processing
    && s.heartbeats != t.heartbeats && s.processed != t.processed && s.failed != t.failed
  }

  /** What happens inside a transaction does not reach the store outside. */
  method InnerSession(m: Memory, tx: Memory, h: Hands, steps: nat, text: Text) returns (h': Hands, ghost log: seq<Stmt>)
    requires m.Valid() && Closed(h) && Apart(m, h)
    requires tx.Valid() && Apart(tx, h) && tx != m && OtherMaps(m.state, tx.state)
    modifies tx, tx.state.scheduled, tx.state.enqueued, tx.state.processing, tx.state.heartbeats, tx.state.processed, tx.state.failed
    modifies h.all
    ensures m.Valid() && m.Contents() == old(m.Contents()) && m.state == old(m.state) && Apart(m, h')
    ensures tx.Valid() && KeepsMaps(tx)
    ensures Closed(h') && Apart(tx, h') && fresh(h'.all - h.all)
    ensures BodyMay(old(tx.Contents()), log, Ok(tx.Contents()))
    decreases steps, 1
  {
    hide Memory.Valid, Memory.Contents, BodyMay, KeepsMaps, Apart, PayloadsIn, Whole, MapApart, HandsOf;
    ApartMeansNotStored(m, h);
    h', log := Session(tx, h, steps, text);
    ApartMeansNotStored(m, h');
  }

  /** A transaction in which the caller does anything that it does outside, and then commits or fails. */
  method Nested(m: Memory, h: Hands, steps: nat, text: Text) returns (h': Hands, ghost log: seq<Stmt>)
    requires m.Valid() && Closed(h) && Apart(m, h)
    modifies m, h.all
    ensures m.Valid() && KeepsMaps(m)
    ensures Closed(h') && Apart(m, h') && fresh(h'.all - h.all)
    ensures BodyMay(old(m.Contents()), log, Ok(m.Contents()))
    decreases steps, 2
  {
    hide Memory.Valid, Memory.Contents, Closed, BodyMay;
    ghost var before := m.Contents();
    ghost var body;
    var tx := Begin(m, h);
    h', body := InnerSession(m, tx, h, steps, text);
    var commit: bool := *;
    if commit {
      log := [Transact(body, true)];
      CommittedBody(before, body, tx.Contents());
      Commit(m, tx, h');
    } else {
      log := [Transact(body + [Return(HandlerError)], true)];
      AbortedBody(before, body, tx.Contents());
    }
  }

  /** Any number of steps, calls and transactions, nested to any depth. */
  method Session(m: Memory, h: Hands, steps: nat, text: Text) returns (h': Hands, ghost log: seq<Stmt>)
    requires m.Valid() && Closed(h) && Apart(m, h)
    modifies m, m.state.scheduled, m.state.enqueued, m.state.processing, m.state.heartbeats, m.state.processed, m.state.failed
    modifies h.all
    ensures m.Valid() && KeepsMaps(m)
    ensures Closed(h') && Apart(m, h') && fresh(h'.all - h.all)
    ensures BodyMay(old(m.Contents()), log, Ok(m.Contents()))
    decreases steps, 0
  {
    hide Memory.Valid, Memory.Contents, Closed, Apart, BodyMay;
    if steps == 0 {
      h', log := h, [];
      assert BodyMay(m.Contents(), log, Ok(m.Contents())) by { NoSteps(m.Contents()); }
      return;
    }
    ghost var first, rest;
    var h1;
    h1, first := OneStep(m, h, steps - 1, text);
    ghost var middle := m.Contents();
    h', rest := Session(m, h1, steps - 1, text);
    log := first + rest;
    JoinBodies(old(m.Contents()), first, middle, rest, m.Contents());
  }

  method OneStep(m: Memory, h: Hands, steps: nat, text: Text) returns (h': Hands, ghost log: seq<Stmt>)
    requires m.Valid() && Closed(h) && Apart(m, h)
    modifies m, m.state.scheduled, m.state.enqueued, m.state.processing, m.state.heartbeats, m.state.processed, m.state.failed
    modifies h.all
    ensures m.Valid() && KeepsMaps(m)
    ensures Closed(h') && Apart(m, h') && fresh(h'.all - h.all)
    ensures BodyMay(old(m.Contents()), log, Ok(m.Contents()))
    decreases steps, 3
  {
    hide Memory.Valid, Memory.Contents, Closed, Apart, BodyMay;
    h', log := h, [];
    NoSteps(m.Contents());
    var kind: int := *;
    if kind == 0 {
      Outside(m, h);
    } else if kind == 1 {
      h' := Gather(m, h, text);
    } else if kind == 2 {
      h', log := Inside(m, h);
    } else {
      h', log := Nested(m, h, steps, text);
    }
  }

  lemma NoSteps(t: Tables)
    ensures BodyMay(t, [], Ok(t))
  {
  }

  lemma JoinBodies(before: Tables, first: seq<Stmt>, middle: Tables, rest: seq<Stmt>, after: Tables)
    requires BodyMay(before, first, Ok(middle)) && BodyMay(middle, rest, Ok(after))
    ensures BodyMay(before, first + rest, Ok(after))
  {
    Join(before, first, Ok(middle), rest, Ok(after));
  }

  lemma OneStmt(before: Tables, stmt: Stmt, after: Tables)
    requires StmtMay(before, stmt, Ok(after))
    ensures BodyMay(before, [stmt], Ok(after))
  {
    var body := [stmt];
    assert StmtMay(before, body[0], Ok(after)) && Continues(Ok(after), body[1..], Ok(after));
  }

  lemma CommittedBody(before: Tables, body: seq<Stmt>, after: Tables)
    requires BodyMay(before, body, Ok(after))
    ensures BodyMay(before, [Transact(body, true)], Ok(after))
  {
    assert Swallowed(before, true, Ok(after)) == Ok(after);
    OneStmt(before, Transact(body, true), after);
  }

  lemma AbortedBody(before: Tables, body: seq<Stmt>, inside: Tables)
    requires BodyMay(before, body, Ok(inside))
    ensures BodyMay(before, [Transact(body + [Return(HandlerError)], true)], Ok(before))
  {
    var last := [Return(HandlerError)];
    assert StmtMay(inside, last[0], Err(HandlerError)) && Continues(Err(HandlerError), last[1..], Err(HandlerError));
    Join(before, body, Ok(inside), last, Err(HandlerError));
    assert Swallowed(before, true, Err(HandlerError)) == Ok(before);
    OneStmt(before, Transact(body + last, true), before);
  }
}
