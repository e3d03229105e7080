/** When things happen, for any number of processors that share one clock: the growing distance between
    retries, the order of the time stamps, and jobs that are never early. */
module Timing {
  import opened Jobs
  import opened Storage
  import opened JobRows
  import L = Lifecycle
  import opened OpenRegime

  // ---- the backoff formula ----

  function Cube(k: nat): nat {
    k * k * k
  }

  /** Minutes from the first failure to the k-th retry: 1 + 8 + 27 + ... + k^3. */
  function TotalBackoff(k: nat): nat {
    if k == 0 then 0 else TotalBackoff(k - 1) + Cube(k)
  }

  lemma SquareOfProduct(a: int, b: int)
    ensures (a * b) * (a * b) == (a * a) * (b * b)
  {
    assert (a * b) * (a * b) == a * (b * (a * b)) == a * (a * (b * b));
  }

  lemma CubeStep(k: int)
    ensures (k * k) * ((k - 1) * (k - 1)) + 4 * (k * k * k) == (k * k) * ((k + 1) * (k + 1))
  {
    assert (k * k) * (4 * k) == 4 * (k * k * k);
    assert (k + 1) * (k + 1) == (k - 1) * (k - 1) + 4 * k;
  }

  lemma {:induction false} TotalBackoffFormula(k: nat)
    ensures 4 * TotalBackoff(k) == (k * (k + 1)) * (k * (k + 1))
  {
    if k > 0 {
      TotalBackoffFormula(k - 1);
      SquareOfProduct(k - 1, k);
      SquareOfProduct(k, k + 1);
      CubeStep(k);
    }
  }

  /** The last retry waits 36100 minutes in total: 25 days, 1 hour and 40 minutes. */
  lemma LastRetryTotal()
    ensures TotalBackoff(19) == 36100
    ensures TotalBackoff(19) * MINUTE == ((25 * 24 + 1) * 60 + 40) * 60 * 1_000_000_000
  {
    hide TotalBackoff;
    TotalBackoffFormula(19);
    assert 19 * 20 == 380 && 380 * 380 == 144400 && 144400 == 4 * 36100;
  }

  /** No retry count that a job can have overflows the 64-bit duration. */
  lemma BackoffIsExact(k: int)
    requires 0 <= k <= L.DEFAULT_MAX_RETRY_COUNT
    ensures L.ExponentialBackoff(k) == Cube(k) * MINUTE < 0x8000_0000_0000_0000
  {
    assert 0 <= k * k <= 19 * 19;
    assert 0 <= k * k * k <= 19 * 19 * 19;
    assert L.Wrap64(k * k * k) == k * k * k;
    assert 0 <= k * k * k * MINUTE <= 6859 * MINUTE;
  }

  // ---- runs under a clock ----

  /** The stamps a submitter takes are taken in order, and before the job is inserted. */
  predicate StampedBefore(step: Step) {
    step.Accept? ==> step.job.scheduledAt <= step.checkedAt <= step.stampedAt <= step.now
  }

  /** The steps of the run happened one after the other, the last of them no later than `now`. */
  ghost predicate InTime(run: seq<Step>, now: Time) {
    run != [] ==>
      var before, step := run[..|run| - 1], run[|run| - 1];
      if step.StorageFault? then InTime(before, now)
      else StampedBefore(step) && step.now <= now && InTime(before, step.now)
  }

  lemma {:induction false} InTimeLater(run: seq<Step>, now: Time, later: Time)
    requires InTime(run, now) && now <= later
    ensures InTime(run, later)
  {
    if run != [] && run[|run| - 1].StorageFault? {
      InTimeLater(run[..|run| - 1], now, later);
    }
  }

  // ---- the order of the stamps ----

  /** The stamps of a job are in the order in which things happened to it. */
  predicate StampsInOrder(r: Rows, now: Time) {
    && (r.scheduled.Some? ==> r.scheduled.value.scheduledAt <= now)
    && (r.enqueued.Some? ==> r.enqueued.value.scheduledAt <= r.enqueued.value.phase.enqueuedAt <= now)
    && (r.processing.Some? ==> ClaimStamped(r.processing.value, now))
    && (r.processed.Some? ==>
          var j := r.processed.value; j.scheduledAt <= j.phase.enqueuedAt <= j.phase.startedAt <= j.phase.completedAt <= now)
    && (r.failed.Some? ==>
          var j := r.failed.value;
          && j.scheduledAt <= j.phase.lastRetryAt <= now
          && 1 <= j.phase.retryCount <= 19
          && j.phase.nextRetryAt == j.phase.lastRetryAt + Cube(j.phase.retryCount) * MINUTE)
  }

  predicate ClaimStamped(j: ProcessingJob, now: Time) {
    j.scheduledAt <= j.phase.enqueuedAt <= j.phase.startedAt <= now
  }

  /** So are those of every copy that anybody ever read. */
  ghost predicate AllStamped(w: World, now: Time) {
    && (forall id :: StampsInOrder(RowsOf(w.tables, id), now))
    && (forall s :: s in w.snapshots ==> s.scheduledAt <= now)
    && (forall c :: c in w.claims ==> ClaimStamped(c, now))
  }

  lemma StampsLater(w: World, now: Time, later: Time)
    requires AllStamped(w, now) && now <= later
    ensures AllStamped(w, later)
  {
    forall id ensures StampsInOrder(RowsOf(w.tables, id), later) {
      assert StampsInOrder(RowsOf(w.tables, id), now);
    }
  }

  lemma StampsRow(r: Rows, step: Step)
    requires !step.StorageFault? && StampsInOrder(r, step.now) && StampedBefore(step)
    requires step.MoveScheduled? ==> step.snapshot.scheduledAt <= step.now
    requires step.Complete? || step.Fail? ==> ClaimStamped(step.held, step.now) && 0 <= step.held.phase.retryCount <= 19
    ensures StampsInOrder(RowsNext(r, step), step.now)
  {
    if step.Fail? && !L.Exhausted(step.held) {
      BackoffIsExact(step.held.phase.retryCount + 1);
    }
  }

  lemma StampsStepAt(w: World, step: Step, id: JobId)
    requires Sound(w) && Enabled(w, step) && !step.StorageFault? && AllStamped(w, step.now) && StampedBefore(step)
    ensures StampsInOrder(RowsOf(Next(w, step).tables, id), step.now)
  {
    IdentityMeansKeyed(w);
    StepRows(w, step, id);
    assert StampsInOrder(RowsOf(w.tables, id), step.now);
    if Subject(step) == Some(id) {
      StampsRow(RowsOf(w.tables, id), step);
    }
  }

  lemma StampsStep(w: World, step: Step)
    requires Sound(w) && Enabled(w, step) && !step.StorageFault? && AllStamped(w, step.now) && StampedBefore(step)
    ensures AllStamped(Next(w, step), step.now)
  {
    var w' := Next(w, step);
    forall id ensures StampsInOrder(RowsOf(w'.tables, id), step.now) { StampsStepAt(w, step, id); }
    forall s | s in w'.snapshots && s !in w.snapshots ensures s.scheduledAt <= step.now {
      var id :| id in w'.tables.scheduled && w'.tables.scheduled[id] == s;
      assert StampsInOrder(RowsOf(w'.tables, id), step.now);
    }
    forall c | c in w'.claims && c !in w.claims ensures ClaimStamped(c, step.now) {
      var id :| id in w'.tables.processing && w'.tables.processing[id] == c;
      assert StampsInOrder(RowsOf(w'.tables, id), step.now);
    }
  }

  lemma FaultChangesNothing(w: World)
    requires Identity(w)
    ensures Next(w, StorageFault) == w
  {
    assert w.snapshots + w.tables.scheduled.Values == w.snapshots;
    assert w.claims + w.tables.processing.Values == w.claims;
  }

  /** ScheduledAt <= EnqueuedAt <= StartedAt <= CompletedAt on every record and every copy, and a failure
      is due exactly retryCount^3 minutes after it happened. */
  lemma {:induction false} StampsAreInOrder(run: seq<Step>, now: Time)
    requires IsRun(run) && InTime(run, now)
    ensures AllStamped(After(run), now)
  {
    if run != [] {
      var before, step := run[..|run| - 1], run[|run| - 1];
      RunsAreSound(before);
      if step.StorageFault? {
        StampsAreInOrder(before, now);
        FaultChangesNothing(After(before));
      } else {
        StampsAreInOrder(before, step.now);
        StampsStep(After(before), step);
        StampsLater(After(run), step.now, now);
      }
    }
  }

  // ---- scheduled jobs ----

  function Noted(requests: map<JobId, Time>, step: Step): map<JobId, Time> {
    if step.Accept? then requests[step.job.id := step.job.phase.enqueueAt] else requests
  }

  /** The times the submitters asked for. */
  function Requests(run: seq<Step>): map<JobId, Time> {
    if run == [] then map[] else Noted(Requests(run[..|run| - 1]), run[|run| - 1])
  }

  /** The snapshot was in the table after `n` steps, and due when it was read. */
  ghost predicate ReadAt(run: seq<Step>, n: nat, snapshot: ScheduledJob, readAt: Time) {
    n <= |run| && snapshot in After(run[..n]).tables.scheduled.Values && snapshot.phase.enqueueAt <= readAt
  }

  ghost predicate ReadWhenDue(run: seq<Step>, snapshot: ScheduledJob, now: Time) {
    exists n, readAt :: ReadAt(run, n, snapshot, readAt) && readAt <= now
  }

  /** Movers only act on snapshots that were due when they were read. */
  ghost predicate MoversReadDue(run: seq<Step>) {
    run != [] ==>
      var before, step := run[..|run| - 1], run[|run| - 1];
      MoversReadDue(before) && (step.MoveScheduled? ==> ReadWhenDue(before, step.snapshot, step.now))
  }

  /** The job is, or has been, anywhere but in the schedule. */
  predicate HasLeft(r: Rows) {
    r.scheduled.None? || r.enqueued.Some? || r.processing.Some? || r.processed.Some? || r.failed.Some?
  }

  predicate KeepsSchedule(r: Rows, requested: Option<Time>, now: Time) {
    && (r.scheduled.Some? ==> requested == Some(r.scheduled.value.phase.enqueueAt))
    && (requested.Some? && HasLeft(r) ==> requested.value <= now)
  }

  /** Every job is where its submitter's wish allows it to be, and every copy carries that wish. */
  ghost predicate AllKeepSchedule(w: World, requests: map<JobId, Time>, now: Time) {
    && requests.Keys == w.accepted.Keys
    && (forall id :: KeepsSchedule(RowsOf(w.tables, id), Find(requests, id), now))
    && (forall s :: s in w.snapshots ==> s.id in requests && requests[s.id] == s.phase.enqueueAt)
    && (forall c :: c in w.claims ==> c.id in requests && requests[c.id] <= now)
  }

  lemma ScheduleLater(w: World, requests: map<JobId, Time>, now: Time, later: Time)
    requires AllKeepSchedule(w, requests, now) && now <= later
    ensures AllKeepSchedule(w, requests, later)
  {
    forall id ensures KeepsSchedule(RowsOf(w.tables, id), Find(requests, id), later) {
      assert KeepsSchedule(RowsOf(w.tables, id), Find(requests, id), now);
    }
  }

  /** The job has no rows at all. */
  predicate Absent(r: Rows) {
    r.scheduled.None? && r.enqueued.None? && r.processing.None? && r.processed.None? && r.failed.None?
  }

  lemma ScheduleRow(r: Rows, step: Step, requested: Option<Time>)
    requires !step.StorageFault? && KeepsSchedule(r, requested, step.now) && StampedBefore(step)
    requires if step.Accept? then requested.None? && Absent(r) else requested.Some?
    requires step.MoveScheduled? || step.Complete? || step.Fail? ==> requested.value <= step.now
    requires step.Dequeue? ==> r.enqueued.Some?
    ensures KeepsSchedule(RowsNext(r, step), if step.Accept? then Some(step.job.phase.enqueueAt) else requested, step.now)
  {
  }

  /** A mover's copy carries the requested time, and was due when it was read. */
  lemma MovedIsDue(run: seq<Step>, step: Step)
    requires step.MoveScheduled? && Enabled(After(run), step) && ReadWhenDue(run, step.snapshot, step.now)
    requires AllKeepSchedule(After(run), Requests(run), step.now)
    ensures step.snapshot.id in Requests(run) && Requests(run)[step.snapshot.id] <= step.now
  {
    var n, readAt :| ReadAt(run, n, step.snapshot, readAt) && readAt <= step.now;
  }

  lemma ScheduleStepAt(w: World, step: Step, id: JobId, requests: map<JobId, Time>)
    requires Sound(w) && Enabled(w, step) && !step.StorageFault? && StampedBefore(step)
    requires AllKeepSchedule(w, requests, step.now)
    requires step.MoveScheduled? ==> step.snapshot.id in requests && requests[step.snapshot.id] <= step.now
    ensures KeepsSchedule(RowsOf(Next(w, step).tables, id), Find(Noted(requests, step), id), step.now)
  {
    IdentityMeansKeyed(w);
    StepRows(w, step, id);
    var r := RowsOf(w.tables, id);
    assert KeepsSchedule(r, Find(requests, id), step.now);
    assert Copies(r, id, w.accepted);
    if Subject(step) == Some(id) {
      if step.Accept? || id in w.accepted {
        ScheduleRow(r, step, Find(requests, id));
      } else {
        assert RowsNext(r, step).scheduled.None?;
      }
    }
  }

  lemma NewSnapshotKeeps(w: World, requests: map<JobId, Time>, now: Time, s: ScheduledJob)
    requires Identity(w) && s in w.tables.scheduled.Values
    requires forall id :: KeepsSchedule(RowsOf(w.tables, id), Find(requests, id), now)
    ensures s.id in requests && requests[s.id] == s.phase.enqueueAt
  {
    var id :| id in w.tables.scheduled && w.tables.scheduled[id] == s;
    assert Copies(RowsOf(w.tables, id), id, w.accepted);
    assert KeepsSchedule(RowsOf(w.tables, id), Find(requests, id), now);
  }

  lemma NewClaimKeeps(w: World, requests: map<JobId, Time>, now: Time, c: ProcessingJob)
    requires Identity(w) && c in w.tables.processing.Values && requests.Keys == w.accepted.Keys
    requires forall id :: KeepsSchedule(RowsOf(w.tables, id), Find(requests, id), now)
    ensures c.id in requests && requests[c.id] <= now
  {
    var id :| id in w.tables.processing && w.tables.processing[id] == c;
    assert Copies(RowsOf(w.tables, id), id, w.accepted);
    assert KeepsSchedule(RowsOf(w.tables, id), Find(requests, id), now);
  }

  lemma HistoryStep(w: World, step: Step)
    ensures Next(w, step).snapshots == w.snapshots + Next(w, step).tables.scheduled.Values
    ensures Next(w, step).claims == w.claims + Next(w, step).tables.processing.Values
    ensures step.Accept? ==> Next(w, step).accepted == w.accepted[step.job.id := OriginOf(step.job)]
    ensures !step.Accept? ==> Next(w, step).accepted == w.accepted
  {
  }

  lemma ScheduleStep(w: World, step: Step, requests: map<JobId, Time>)
    requires Sound(w) && Enabled(w, step) && !step.StorageFault? && StampedBefore(step)
    requires AllKeepSchedule(w, requests, step.now)
    requires step.MoveScheduled? ==> step.snapshot.id in requests && requests[step.snapshot.id] <= step.now
    ensures AllKeepSchedule(Next(w, step), Noted(requests, step), step.now)
  {
    hide Next, NothingLost, AttemptsInOrder, KeepsSchedule, Identity;
    var w', requests' := Next(w, step), Noted(requests, step);
    IdentityStep(w, step);
    HistoryStep(w, step);
    forall id ensures KeepsSchedule(RowsOf(w'.tables, id), Find(requests', id), step.now) { ScheduleStepAt(w, step, id, requests); }
    forall s | s in w'.snapshots ensures s.id in requests' && requests'[s.id] == s.phase.enqueueAt {
      if s !in w.snapshots { NewSnapshotKeeps(w', requests', step.now, s); }
    }
    forall c | c in w'.claims ensures c.id in requests' && requests'[c.id] <= step.now {
      if c !in w.claims { NewClaimKeeps(w', requests', step.now, c); }
    }
  }

  /** No job leaves the schedule, or skips it, before the time that was asked for, however many movers
      work on snapshots however old, as long as each was due when it was read. */
  lemma {:induction false} NeverEarly(run: seq<Step>, now: Time)
    requires IsRun(run) && InTime(run, now) && MoversReadDue(run)
    ensures AllKeepSchedule(After(run), Requests(run), now)
  {
    if run != [] {
      var before, step := run[..|run| - 1], run[|run| - 1];
      RunsAreSound(before);
      if step.StorageFault? {
        NeverEarly(before, now);
        FaultChangesNothing(After(before));
      } else {
        NeverEarly(before, step.now);
        if step.MoveScheduled? { MovedIsDue(before, step); }
        ScheduleStep(After(before), step, Requests(before));
        ScheduleLater(After(run), Requests(run), step.now, now);
      }
    }
  }
}
