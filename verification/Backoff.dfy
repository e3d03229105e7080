/** The waits of a job add up, for any number of processors that share one clock, as long as nobody takes
    the job's failure record before it is due. A web retry may; it takes any record there is. */
module Backoff {
  import opened Jobs
  import opened Storage
  import opened JobRows
  import L = Lifecycle
  import opened OpenRegime
  import opened Timing

  /** No committed claim, by a mover or a web caller, took a record of this job before it was due. */
  ghost predicate ClaimedWhenDue(run: seq<Step>, id: JobId) {
    run != [] ==>
      var before, step := run[..|run| - 1], run[|run| - 1];
      && ClaimedWhenDue(before, id)
      && (CommitsClaim(After(before), step, id) ==> After(before).tables.failed[id].phase.nextRetryAt <= step.now)
  }

  /** The time of the first failure of the job in the run. */
  function FirstFailure(run: seq<Step>, id: JobId): Option<Time> {
    if run == [] then None
    else
      var before, step := run[..|run| - 1], run[|run| - 1];
      if FirstFailure(before, id).Some? then FirstFailure(before, id)
      else if InsertsFailed(After(before), step, id) then Some(step.now)
      else None
  }

  /** `time` is no earlier than k backoffs after the first failure. */
  predicate Waited(k: int, first: Option<Time>, time: Time) {
    k > 0 ==> first.Some? && first.value + TotalBackoff(k) * MINUTE <= time
  }

  /** The attempt did not start before the job's backoffs were over. */
  predicate ClaimWaited(c: ProcessingJob, first: Option<Time>, now: Time) {
    c.phase.startedAt <= now && Waited(c.phase.retryCount, first, c.phase.startedAt)
  }

  /** A job with retry count k has waited for its first k backoffs; in failed, it will have by NextRetryAt. */
  predicate BackedOff(r: Rows, first: Option<Time>, now: Time) {
    && (first.Some? ==> first.value <= now)
    && (r.enqueued.Some? ==> Waited(r.enqueued.value.phase.retryCount, first, now))
    && (r.processing.Some? ==> ClaimWaited(r.processing.value, first, now))
    && (r.failed.Some? ==> Waited(r.failed.value.phase.retryCount, first, r.failed.value.phase.nextRetryAt))
  }

  /** So has every copy that a worker or an orphan checker was handed. */
  ghost predicate AllBackedOff(w: World, id: JobId, first: Option<Time>, now: Time) {
    && BackedOff(RowsOf(w.tables, id), first, now)
    && forall c :: c in w.claims && c.id == id ==> ClaimWaited(c, first, now)
  }

  lemma WaitedLonger(k: int, first: Option<Time>, now: Time)
    requires 0 <= k < L.DEFAULT_MAX_RETRY_COUNT && Waited(k, first, now) && first.Some? && first.value <= now
    ensures Waited(k + 1, first, now + L.ExponentialBackoff(k + 1))
  {
    BackoffIsExact(k + 1);
    assert TotalBackoff(0) == 0;
    assert TotalBackoff(k + 1) == TotalBackoff(k) + Cube(k + 1);
  }

  lemma BackedOffRow(r: Rows, step: Step, first: Option<Time>)
    requires !step.StorageFault? && BackedOff(r, first, step.now)
    requires step.Complete? || step.Fail? ==>
      0 <= step.held.phase.retryCount <= L.DEFAULT_MAX_RETRY_COUNT && ClaimWaited(step.held, first, step.now)
    requires (step.Retry? || step.WebRetry?) && r.failed.Some? && RowStep(r, step).Some? ==>
      r.failed.value.phase.nextRetryAt <= step.now
    ensures var inserts := step.Fail? && !L.Exhausted(step.held) && RowStep(r, step).Some?;
      BackedOff(RowsNext(r, step), if first.None? && inserts then Some(step.now) else first, step.now)
  {
    if step.Fail? && !L.Exhausted(step.held) {
      WaitedLonger(step.held.phase.retryCount, if first.None? then Some(step.now) else first, step.now);
    }
  }

  lemma Later(w: World, id: JobId, first: Option<Time>, now: Time, later: Time)
    requires AllBackedOff(w, id, first, now) && now <= later
    ensures AllBackedOff(w, id, first, later)
  {
  }

  /** A worker's copy was handed out with a retry count in range. */
  lemma HeldInRange(w: World, held: ProcessingJob)
    requires Sound(w) && held in w.claims
    ensures 0 <= held.phase.retryCount <= L.DEFAULT_MAX_RETRY_COUNT
  {
    assert Reached(w.claims, held.id, held.phase.retryCount);
  }

  lemma BackedOffRows(w: World, step: Step, id: JobId, first: Option<Time>)
    requires Sound(w) && Enabled(w, step) && !step.StorageFault? && AllBackedOff(w, id, first, step.now)
    requires CommitsClaim(w, step, id) ==> w.tables.failed[id].phase.nextRetryAt <= step.now
    ensures BackedOff(RowsOf(Next(w, step).tables, id),
                      if first.None? && InsertsFailed(w, step, id) then Some(step.now) else first, step.now)
  {
    IdentityMeansKeyed(w);
    StepRows(w, step, id);
    if Subject(step) == Some(id) {
      if step.Complete? || step.Fail? { HeldInRange(w, step.held); }
      BackedOffRow(RowsOf(w.tables, id), step, first);
    }
  }

  lemma NewClaimBackedOff(w: World, id: JobId, first: Option<Time>, now: Time, c: ProcessingJob)
    requires Identity(w) && c in w.tables.processing.Values && c.id == id && BackedOff(RowsOf(w.tables, id), first, now)
    ensures ClaimWaited(c, first, now)
  {
    var k :| k in w.tables.processing && w.tables.processing[k] == c;
    assert Copies(RowsOf(w.tables, k), k, w.accepted);
  }

  lemma BackedOffStep(w: World, step: Step, id: JobId, first: Option<Time>)
    requires Sound(w) && Enabled(w, step) && !step.StorageFault? && AllBackedOff(w, id, first, step.now)
    requires CommitsClaim(w, step, id) ==> w.tables.failed[id].phase.nextRetryAt <= step.now
    ensures AllBackedOff(Next(w, step), id, if first.None? && InsertsFailed(w, step, id) then Some(step.now) else first, step.now)
  {
    hide Next, Identity, NothingLost, AttemptsInOrder, BackedOff;
    var w' := Next(w, step);
    var first' := if first.None? && InsertsFailed(w, step, id) then Some(step.now) else first;
    BackedOffRows(w, step, id, first);
    IdentityStep(w, step);
    HistoryStep(w, step);
    forall c | c in w'.claims && c.id == id ensures ClaimWaited(c, first', step.now) {
      if c !in w.claims { NewClaimBackedOff(w', id, first', step.now, c); }
    }
  }

  lemma {:induction false} RetriesBackOff(run: seq<Step>, now: Time, id: JobId)
    requires IsRun(run) && InTime(run, now) && ClaimedWhenDue(run, id)
    ensures AllBackedOff(After(run), id, FirstFailure(run, id), now)
  {
    if run != [] {
      var before, step := run[..|run| - 1], run[|run| - 1];
      RunsAreSound(before);
      if step.StorageFault? {
        RetriesBackOff(before, now, id);
        FaultChangesNothing(After(before));
      } else {
        RetriesBackOff(before, step.now, id);
        BackedOffStep(After(before), step, id, FirstFailure(before, id));
        Later(After(run), id, FirstFailure(run, id), step.now, now);
      }
    }
  }

  /** A failed record with retry count k is due no earlier than (k(k+1)/2)^2 minutes after the job's first failure. */
  lemma BackoffIsCumulative(run: seq<Step>, now: Time, id: JobId)
    requires IsRun(run) && InTime(run, now) && ClaimedWhenDue(run, id) && id in After(run).tables.failed
    ensures var k := After(run).tables.failed[id].phase.retryCount;
      && 1 <= k <= 19 && FirstFailure(run, id).Some?
      && FirstFailure(run, id).value + TotalBackoff(k) * MINUTE <= After(run).tables.failed[id].phase.nextRetryAt
  {
    RetriesBackOff(run, now, id);
    RunsAreSound(run);
    assert AttemptsAt(RowsOf(After(run).tables, id), id, After(run).claims);
  }

  /** No job starts for the twentieth time before 36100 minutes after its first failure. */
  lemma LastAttemptComesLate(run: seq<Step>, now: Time, c: ProcessingJob)
    requires IsRun(run) && InTime(run, now) && ClaimedWhenDue(run, c.id)
    requires c in After(run).claims && c.phase.retryCount == L.DEFAULT_MAX_RETRY_COUNT
    ensures FirstFailure(run, c.id).Some? && FirstFailure(run, c.id).value + 36100 * MINUTE <= c.phase.startedAt
  {
    RetriesBackOff(run, now, c.id);
    LastRetryTotal();
  }
}
