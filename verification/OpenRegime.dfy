/** The job lifecycle with any number of processors and no assumption on timing.
    Every copy of a record that any goroutine ever read stays usable for ever: a mover, an orphan
    checker or a worker may act on it at any later moment, any number of times, by any clock. */
module OpenRegime {
  import opened Jobs
  import opened Storage
  import L = Lifecycle
  import opened JobRows

  datatype World = World(
    tables: Tables,
    accepted: map<JobId, Origin>,
    /** every record that was ever in scheduled */
    snapshots: set<ScheduledJob>,
    /** every record that was ever in processing */
    claims: set<ProcessingJob>,
    /** the jobs that failWithStack gave up on */
    discarded: set<JobId>)

  datatype Step =
    | Accept(job: ScheduledJob, checkedAt: Time, stampedAt: Time, now: Time)
    | MoveScheduled(snapshot: ScheduledJob, now: Time)
    | Dequeue(queue: string, id: JobId, now: Time)
    | Complete(held: ProcessingJob, now: Time)
    | Fail(held: ProcessingJob, error: string, now: Time)
    | Retry(id: JobId, now: Time)
    | WebRetry(id: JobId, now: Time)
    | Heartbeat(id: JobId, now: Time)
    | StorageFault  // a transaction that the storage refused: nothing is committed

  const START := World(EMPTY, map[], {}, {}, {})

  ghost predicate Enabled(w: World, step: Step) {
    match step
    case Accept(job, _, _, _) => job.id !in w.accepted
    case MoveScheduled(snapshot, _) => snapshot in w.snapshots
    case Dequeue(queue, id, _) => IsOldest(w.tables.enqueued, queue, id)
    case Complete(job, _) => job in w.claims
    case Fail(job, _, _) => job in w.claims
    case Retry(_, _) => true
    case WebRetry(_, _) => true
    case Heartbeat(_, _) => true
    case StorageFault => true
  }

  /** What the body of the step's transaction does to the tables. */
  function Body(t: Tables, step: Step): Outcome {
    match step
    case Accept(job, checkedAt, stampedAt, _) => L.Enqueue(t, job, checkedAt, stampedAt)
    case MoveScheduled(snapshot, now) => L.EnqueueScheduled(t, snapshot, now)
    case Dequeue(_, id, now) => if id in t.enqueued then L.Dequeue(t, id, now) else Ok(t)
    case Complete(job, now) => L.Complete(t, job, now)
    case Fail(job, error, now) => L.Fail(t, job, error, now)
    case Retry(id, now) => L.Retry(t, id, now)
    case WebRetry(id, now) => L.WebRetry(t, id, now)
    case Heartbeat(id, now) => Ok(EmitHeartbeat(t, id, now))
    case StorageFault => Err(HandlerError)
  }

  function Next(w: World, step: Step): World {
    var t := Commit(w.tables, Body(w.tables, step));
    World(t,
          if step.Accept? then w.accepted[step.job.id := OriginOf(step.job)] else w.accepted,
          w.snapshots + t.scheduled.Values,
          w.claims + t.processing.Values,
          if step.Fail? && L.Exhausted(step.held) then w.discarded + {step.held.id} else w.discarded)
  }

  function After(run: seq<Step>): World {
    if run == [] then START else Next(After(run[..|run| - 1]), run[|run| - 1])
  }

  ghost predicate IsRun(run: seq<Step>) {
    run != [] ==> IsRun(run[..|run| - 1]) && Enabled(After(run[..|run| - 1]), run[|run| - 1])
  }

  // ---- each step only touches the job it is about ----

  function Subject(step: Step): Option<JobId> {
    match step
    case Accept(job, _, _, _) => Some(job.id)
    case MoveScheduled(snapshot, _) => Some(snapshot.id)
    case Dequeue(_, id, _) => Some(id)
    case Complete(held, _) => Some(held.id)
    case Fail(held, _, _) => Some(held.id)
    case Retry(id, _) => Some(id)
    case WebRetry(id, _) => Some(id)
    case Heartbeat(id, _) => Some(id)
    case StorageFault => None
  }

  /** What the step does to the rows of its subject; None when its transaction rolls back. */
  function RowStep(r: Rows, step: Step): Option<Rows> {
    match step
    case Accept(job, checkedAt, stampedAt, _) => JobRows.Enqueue(r, job, checkedAt, stampedAt)
    case MoveScheduled(snapshot, now) => JobRows.EnqueueScheduled(r, snapshot, now)
    case Dequeue(_, _, now) => if r.enqueued.Some? then JobRows.Dequeue(r, now) else Some(r)
    case Complete(held, now) => JobRows.Complete(r, held, now)
    case Fail(held, error, now) => JobRows.Fail(r, held, error, now)
    case Retry(_, now) => JobRows.Retry(r, now)
    case WebRetry(_, now) => JobRows.WebRetry(r, now)
    case Heartbeat(_, now) => Some(r.(heartbeat := Some(now)))
    case StorageFault => None
  }

  function RowsNext(r: Rows, step: Step): Rows {
    match RowStep(r, step)
    case Some(r') => r'
    case None => r
  }

  /** A step changes the rows of its subject as RowStep says and no other job's rows. */
  lemma StepRows(w: World, step: Step, id: JobId)
    requires WellKeyed(w.tables)
    ensures RowsOf(Next(w, step).tables, id)
         == if Subject(step) == Some(id) then RowsNext(RowsOf(w.tables, id), step) else RowsOf(w.tables, id)
    ensures Subject(step) == Some(id) ==>
      (Body(w.tables, step).Ok? <==> RowStep(RowsOf(w.tables, id), step).Some?)
  {
    var t := w.tables;
    match step {
      case Accept(job, checkedAt, stampedAt, _) => EnqueueRows(t, job, checkedAt, stampedAt, id);
      case MoveScheduled(snapshot, now) => EnqueueScheduledRows(t, snapshot, now, id);
      case Dequeue(_, about, now) => if about in t.enqueued { DequeueRows(t, about, now, id); }
      case Complete(held, now) => CompleteRows(t, held, now, id);
      case Fail(held, error, now) => FailRows(t, held, error, now, id);
      case Retry(about, now) => RetryRows(t, about, now, id);
      case WebRetry(about, now) => WebRetryRows(t, about, now, id);
      case Heartbeat(about, now) =>
      case StorageFault =>
    }
  }

  // ---- identity: every copy of an ID is the job that was accepted ----

  predicate CopyOf<T>(job: Job<T>, accepted: map<JobId, Origin>) {
    job.id in accepted && OriginOf(job) == accepted[job.id]
  }

  /** The rows of `id` are copies of the job that was accepted under `id`. */
  predicate Copies(r: Rows, id: JobId, accepted: map<JobId, Origin>) {
    && (r.scheduled.Some? ==> r.scheduled.value.id == id && CopyOf(r.scheduled.value, accepted))
    && (r.enqueued.Some? ==> r.enqueued.value.id == id && CopyOf(r.enqueued.value, accepted))
    && (r.processing.Some? ==> r.processing.value.id == id && CopyOf(r.processing.value, accepted))
    && (r.processed.Some? ==> r.processed.value.id == id && CopyOf(r.processed.value, accepted))
    && (r.failed.Some? ==> r.failed.value.id == id && CopyOf(r.failed.value, accepted))
  }

  ghost predicate Identity(w: World) {
    && (forall id :: Copies(RowsOf(w.tables, id), id, w.accepted))
    && (forall s :: s in w.snapshots ==> CopyOf(s, w.accepted))
    && (forall c :: c in w.claims ==> CopyOf(c, w.accepted))
    && w.tables.scheduled.Values <= w.snapshots
    && w.tables.processing.Values <= w.claims
    && w.discarded <= w.accepted.Keys
  }

  lemma IdentityMeansKeyed(w: World)
    requires forall id :: Copies(RowsOf(w.tables, id), id, w.accepted)
    ensures WellKeyed(w.tables)
  {
    forall id
      ensures var t := w.tables;
        && (id in t.scheduled ==> t.scheduled[id].id == id)
        && (id in t.enqueued ==> t.enqueued[id].id == id)
        && (id in t.processing ==> t.processing[id].id == id)
        && (id in t.processed ==> t.processed[id].id == id)
        && (id in t.failed ==> t.failed[id].id == id)
    {
      assert Copies(RowsOf(w.tables, id), id, w.accepted);
    }
  }

  lemma AcceptCopies(r: Rows, step: Step, id: JobId, accepted: map<JobId, Origin>)
    requires Copies(r, id, accepted) && Subject(step) == Some(id)
    requires (step.Accept? && CopyOf(step.job, accepted)) || (step.MoveScheduled? && CopyOf(step.snapshot, accepted))
    ensures Copies(RowsNext(r, step), id, accepted)
  {
  }

  lemma EndCopies(r: Rows, step: Step, id: JobId, accepted: map<JobId, Origin>)
    requires Copies(r, id, accepted) && Subject(step) == Some(id) && (step.Complete? || step.Fail?) && CopyOf(step.held, accepted)
    ensures Copies(RowsNext(r, step), id, accepted)
  {
    hide L.ExponentialBackoff;
  }

  lemma OtherCopies(r: Rows, step: Step, id: JobId, accepted: map<JobId, Origin>)
    requires Copies(r, id, accepted) && Subject(step) == Some(id)
    requires !step.Accept? && !step.MoveScheduled? && !step.Complete? && !step.Fail?
    ensures Copies(RowsNext(r, step), id, accepted)
  {
  }

  lemma CopiesStep(r: Rows, step: Step, id: JobId, accepted: map<JobId, Origin>)
    requires Copies(r, id, accepted) && Subject(step) == Some(id)
    requires step.Accept? ==> CopyOf(step.job, accepted)
    requires step.MoveScheduled? ==> CopyOf(step.snapshot, accepted)
    requires step.Complete? || step.Fail? ==> CopyOf(step.held, accepted)
    ensures Copies(RowsNext(r, step), id, accepted)
  {
    hide Copies, RowsNext, CopyOf;
    if step.Accept? || step.MoveScheduled? {
      AcceptCopies(r, step, id, accepted);
    } else if step.Complete? || step.Fail? {
      EndCopies(r, step, id, accepted);
    } else {
      OtherCopies(r, step, id, accepted);
    }
  }

  lemma IdentityStepAt(w: World, step: Step, id: JobId)
    requires Identity(w) && Enabled(w, step)
    ensures Copies(RowsOf(Next(w, step).tables, id), id, Next(w, step).accepted)
  {
    hide RowStep, RowsNext, Body;
    IdentityMeansKeyed(w);
    StepRows(w, step, id);
    var r, accepted := RowsOf(w.tables, id), Next(w, step).accepted;
    assert Copies(r, id, w.accepted);
    assert Copies(r, id, accepted);
    if Subject(step) == Some(id) {
      CopiesStep(r, step, id, accepted);
    }
  }

  lemma IdentityStep(w: World, step: Step)
    requires Identity(w) && Enabled(w, step)
    ensures Identity(Next(w, step))
  {
    var w' := Next(w, step);
    forall id ensures Copies(RowsOf(w'.tables, id), id, w'.accepted) { IdentityStepAt(w, step, id); }
    forall s | s in w'.snapshots && s !in w.snapshots ensures CopyOf(s, w'.accepted) {
      var id :| id in w'.tables.scheduled && w'.tables.scheduled[id] == s;
      assert Copies(RowsOf(w'.tables, id), id, w'.accepted);
    }
    forall c | c in w'.claims && c !in w.claims ensures CopyOf(c, w'.accepted) {
      var id :| id in w'.tables.processing && w'.tables.processing[id] == c;
      assert Copies(RowsOf(w'.tables, id), id, w'.accepted);
    }
  }

  // ---- conservation: an accepted job is always somewhere ----

  predicate Stored(r: Rows) {
    r.scheduled.Some? || r.enqueued.Some? || r.processing.Some? || r.processed.Some? || r.failed.Some?
  }

  ghost predicate NothingLost(w: World) {
    forall id :: id in w.accepted ==> Stored(RowsOf(w.tables, id)) || id in w.discarded
  }

  lemma StoredStep(r: Rows, step: Step)
    requires Stored(r) || step.Accept?
    ensures Stored(RowsNext(r, step)) || (step.Fail? && L.Exhausted(step.held))
  {
  }

  lemma NothingLostStep(w: World, step: Step)
    requires Identity(w) && NothingLost(w) && Enabled(w, step)
    ensures NothingLost(Next(w, step))
  {
    var w' := Next(w, step);
    IdentityMeansKeyed(w);
    forall id | id in w'.accepted ensures Stored(RowsOf(w'.tables, id)) || id in w'.discarded {
      StepRows(w, step, id);
      if Subject(step) == Some(id) && id !in w.discarded {
        StoredStep(RowsOf(w.tables, id), step);
      }
    }
  }

  // ---- attempts: retry counts are bounded and no attempt is skipped ----

  /** Some worker was handed the job with this retry count. */
  ghost predicate Attempted(claims: set<ProcessingJob>, id: JobId, retryCount: int) {
    exists c :: c in claims && c.id == id && c.phase.retryCount == retryCount
  }

  ghost predicate Reached(claims: set<ProcessingJob>, id: JobId, retryCount: int) {
    && 0 <= retryCount <= L.DEFAULT_MAX_RETRY_COUNT
    && (retryCount > 0 ==> Attempted(claims, id, retryCount - 1))
  }

  ghost predicate AttemptsAt(r: Rows, id: JobId, claims: set<ProcessingJob>) {
    && (r.enqueued.Some? ==> Reached(claims, id, r.enqueued.value.phase.retryCount))
    && (r.processing.Some? ==> Reached(claims, id, r.processing.value.phase.retryCount))
    && (r.failed.Some? ==>
          r.failed.value.phase.retryCount >= 1 && Reached(claims, id, r.failed.value.phase.retryCount))
  }

  ghost predicate AttemptsInOrder(w: World) {
    && (forall id :: AttemptsAt(RowsOf(w.tables, id), id, w.claims))
    && (forall c :: c in w.claims ==> Reached(w.claims, c.id, c.phase.retryCount))
    && (forall id :: id in w.discarded ==> Attempted(w.claims, id, L.DEFAULT_MAX_RETRY_COUNT))
  }

  lemma AttemptsGrow(claims: set<ProcessingJob>, claims': set<ProcessingJob>)
    requires claims <= claims'
    ensures forall id, r :: Attempted(claims, id, r) ==> Attempted(claims', id, r)
    ensures forall id, r :: Reached(claims, id, r) ==> Reached(claims', id, r)
  {
  }

  lemma AttemptsRow(r: Rows, step: Step, id: JobId, claims: set<ProcessingJob>)
    requires AttemptsAt(r, id, claims) && Subject(step) == Some(id)
    requires step.Complete? || step.Fail? ==> step.held in claims && Reached(claims, id, step.held.phase.retryCount)
    ensures AttemptsAt(RowsNext(r, step), id, claims)
  {
    if step.Fail? {
      assert Attempted(claims, id, step.held.phase.retryCount);
    }
  }

  lemma AttemptsStepAt(w: World, step: Step, id: JobId)
    requires Identity(w) && AttemptsInOrder(w) && Enabled(w, step)
    ensures AttemptsAt(RowsOf(Next(w, step).tables, id), id, Next(w, step).claims)
  {
    IdentityMeansKeyed(w);
    StepRows(w, step, id);
    AttemptsGrow(w.claims, Next(w, step).claims);
    var r := RowsOf(w.tables, id);
    assert AttemptsAt(r, id, w.claims);
    if Subject(step) == Some(id) {
      AttemptsRow(r, step, id, Next(w, step).claims);
    }
  }

  lemma AttemptsStep(w: World, step: Step)
    requires Identity(w) && AttemptsInOrder(w) && Enabled(w, step)
    ensures AttemptsInOrder(Next(w, step))
  {
    var w' := Next(w, step);
    forall id ensures AttemptsAt(RowsOf(w'.tables, id), id, w'.claims) { AttemptsStepAt(w, step, id); }
    AttemptsGrow(w.claims, w'.claims);
    forall c | c in w'.claims && c !in w.claims ensures Reached(w'.claims, c.id, c.phase.retryCount) {
      var id :| id in w'.tables.processing && w'.tables.processing[id] == c;
      IdentityStepAt(w, step, id);
      assert AttemptsAt(RowsOf(w'.tables, id), id, w'.claims);
    }
    if step.Fail? && L.Exhausted(step.held) {
      assert Reached(w.claims, step.held.id, step.held.phase.retryCount);
      assert Attempted(w.claims, step.held.id, L.DEFAULT_MAX_RETRY_COUNT);
    }
  }

  // ---- whole runs ----

  ghost predicate Sound(w: World) {
    Identity(w) && NothingLost(w) && AttemptsInOrder(w)
  }

  /** Whatever the processors do, every stored or held copy of an ID is the accepted job,
      no accepted job is ever lost, and retry counts stay within 0..19 (1..19 in failed). */
  lemma {:induction false} RunsAreSound(run: seq<Step>)
    requires IsRun(run)
    ensures Sound(After(run))
  {
    if run != [] {
      var before, step := run[..|run| - 1], run[|run| - 1];
      RunsAreSound(before);
      IdentityStep(After(before), step);
      NothingLostStep(After(before), step);
      AttemptsStep(After(before), step);
    }
  }

  lemma {:induction false} EarlierAttempts(w: World, id: JobId, retryCount: nat, r: nat)
    requires AttemptsInOrder(w) && Attempted(w.claims, id, retryCount) && r <= retryCount
    ensures Attempted(w.claims, id, r)
    decreases retryCount
  {
    if r < retryCount {
      assert Reached(w.claims, id, retryCount);
      EarlierAttempts(w, id, retryCount - 1, r);
    }
  }

  /** A job is only ever given up after all twenty attempts were handed to a worker. */
  lemma DiscardedAfterTwentyAttempts(run: seq<Step>, id: JobId, r: nat)
    requires IsRun(run) && id in After(run).discarded && r <= 19
    ensures Attempted(After(run).claims, id, r)
  {
    RunsAreSound(run);
    assert Attempted(After(run).claims, id, L.DEFAULT_MAX_RETRY_COUNT);
    EarlierAttempts(After(run), id, L.DEFAULT_MAX_RETRY_COUNT, r);
  }

  lemma {:induction false} PrefixIsRun(run: seq<Step>, n: nat)
    requires IsRun(run) && n <= |run|
    ensures IsRun(run[..n])
  {
    if n == |run| {
      assert run[..n] == run;
    } else {
      assert run[..|run| - 1][..n] == run[..n];
      PrefixIsRun(run[..|run| - 1], n);
    }
  }

  lemma ProcessedRowStep(r: Rows, step: Step)
    requires r.processed.Some?
    ensures RowsNext(r, step).processed == r.processed
  {
  }

  /** A processed record, once written, is never changed or removed. */
  lemma {:induction false} ProcessedIsPermanent(run: seq<Step>, n: nat, id: JobId)
    requires IsRun(run) && n <= |run| && id in After(run[..n]).tables.processed
    ensures id in After(run).tables.processed
    ensures After(run).tables.processed[id] == After(run[..n]).tables.processed[id]
  {
    if n == |run| {
      assert run[..n] == run;
    } else {
      var before, step := run[..|run| - 1], run[|run| - 1];
      assert before[..n] == run[..n];
      ProcessedIsPermanent(before, n, id);
      RunsAreSound(before);
      IdentityMeansKeyed(After(before));
      StepRows(After(before), step, id);
      ProcessedRowStep(RowsOf(After(before).tables, id), step);
    }
  }

  // ---- each failure record is claimed at most once ----

  /** The step commits a new record in failed for `id`. */
  predicate InsertsFailed(w: World, step: Step, id: JobId) {
    step.Fail? && step.held.id == id && !L.Exhausted(step.held) && Body(w.tables, step).Ok?
  }

  /** The step commits a claim on the record of `id` in failed, by a retry mover or a web caller. */
  predicate CommitsClaim(w: World, step: Step, id: JobId) {
    (step.Retry? || step.WebRetry?) && step.id == id && id in w.tables.failed && Body(w.tables, step).Ok?
  }

  function FailedInserts(run: seq<Step>, id: JobId): nat {
    if run == [] then 0 else
      var before, step := run[..|run| - 1], run[|run| - 1];
      FailedInserts(before, id) + if InsertsFailed(After(before), step, id) then 1 else 0
  }

  function CommittedClaims(run: seq<Step>, id: JobId): nat {
    if run == [] then 0 else
      var before, step := run[..|run| - 1], run[|run| - 1];
      CommittedClaims(before, id) + if CommitsClaim(After(before), step, id) then 1 else 0
  }

  lemma FailedRow(r: Rows, step: Step)
    requires !step.StorageFault?
    ensures var inserts := step.Fail? && !L.Exhausted(step.held) && RowStep(r, step).Some?;
      var claims := (step.Retry? || step.WebRetry?) && r.failed.Some? && RowStep(r, step).Some?;
      && (inserts ==> r.failed.None?)
      && (RowsNext(r, step).failed.Some? <==> inserts || (r.failed.Some? && !claims))
  {
  }

  lemma FailedRowStep(w: World, step: Step, id: JobId)
    requires WellKeyed(w.tables)
    ensures InsertsFailed(w, step, id) ==> id !in w.tables.failed && id in Next(w, step).tables.failed
    ensures CommitsClaim(w, step, id) ==> id in w.tables.failed && id !in Next(w, step).tables.failed
    ensures !InsertsFailed(w, step, id) && !CommitsClaim(w, step, id) ==>
      (id in Next(w, step).tables.failed <==> id in w.tables.failed)
  {
    hide Next, Body, RowStep, RowsNext;
    StepRows(w, step, id);
    var r := RowsOf(w.tables, id);
    assert r.failed.Some? <==> id in w.tables.failed;
    assert RowsOf(Next(w, step).tables, id).failed.Some? <==> id in Next(w, step).tables.failed;
    if Subject(step) == Some(id) {
      FailedRow(r, step);
    }
  }

  /** Each committed failure is claimed exactly once or is still waiting in failed, however many
      movers and web callers race for it; claims that were rolled back do not count. */
  lemma {:induction false} ClaimConservation(run: seq<Step>, id: JobId)
    requires IsRun(run)
    ensures FailedInserts(run, id) == CommittedClaims(run, id) + if id in After(run).tables.failed then 1 else 0
  {
    if run != [] {
      var before, step := run[..|run| - 1], run[|run| - 1];
      ClaimConservation(before, id);
      RunsAreSound(before);
      IdentityMeansKeyed(After(before));
      FailedRowStep(After(before), step, id);
    }
  }

  lemma ClaimRequeuesRow(r: Rows, step: Step)
    requires (step.Retry? || step.WebRetry?) && r.failed.Some? && RowStep(r, step).Some?
    ensures RowsNext(r, step).enqueued == if r.enqueued.Some? then r.enqueued else Some(L.ToRetried(r.failed.value, step.now))
  {
  }

  /** A committed claim leaves the job in its queue, with the retry count of the record it took
      unless a copy was already queued. */
  lemma ClaimsRequeue(run: seq<Step>, step: Step, id: JobId)
    requires IsRun(run) && CommitsClaim(After(run), step, id)
    ensures var t, t' := After(run).tables, Next(After(run), step).tables;
      && id in t'.enqueued
      && t'.enqueued[id] == if id in t.enqueued then t.enqueued[id] else L.ToRetried(t.failed[id], step.now)
  {
    hide Next, Body, RowStep, RowsNext, L.ToRetried;
    RunsAreSound(run);
    IdentityMeansKeyed(After(run));
    StepRows(After(run), step, id);
    ClaimRequeuesRow(RowsOf(After(run).tables, id), step);
    assert RowsOf(Next(After(run), step).tables, id).enqueued.Some?;
  }
}
