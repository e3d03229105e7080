/** The clock of the single processor. Every run of it, orderly or not, is a run of the open regime under
    that clock, so its time stamps are in order, its jobs are never early and its retries back off. */
module ProcessorTiming {
  import opened Jobs
  import opened Storage
  import opened JobRows
  import L = Lifecycle
  import O = OpenRegime
  import T = Timing
  import B = Backoff
  import opened SingleProcessor
  import opened Refinement

  lemma StepsTakeNow(s: System, a: Action)
    requires Enabled(s, a) && StepOf(s, a).Some? && !StepOf(s, a).value.StorageFault?
    ensures T.StampedBefore(StepOf(s, a).value) && StepOf(s, a).value.now == s.now
  {
  }

  lemma {:induction false} StepsAreInTime(run: seq<Action>)
    requires IsRun(run)
    ensures T.InTime(StepsOf(run), After(run).now)
  {
    if run != [] {
      var before, a := run[..|run| - 1], run[|run| - 1];
      var s := After(before);
      StepsAreInTime(before);
      T.InTimeLater(StepsOf(before), s.now, After(run).now);
      if StepOf(s, a).Some? {
        assert StepsOf(run)[..|StepsOf(run)| - 1] == StepsOf(before);
        if !StepOf(s, a).value.StorageFault? { StepsTakeNow(s, a); }
      }
    }
  }

  /** ScheduledAt <= EnqueuedAt <= StartedAt <= CompletedAt on every record, and a failure is due
      exactly retryCount^3 minutes after it happened. */
  lemma StampsAreInOrder(run: seq<Action>)
    requires IsRun(run)
    ensures T.AllStamped(After(run).world, After(run).now)
  {
    RunsRefineTheOpenRegime(run);
    StepsAreInTime(run);
    T.StampsAreInOrder(StepsOf(run), After(run).now);
  }

  // ---- scheduled jobs ----

  /** Every job the scheduled mover still has to move was due when it was read. */
  ghost predicate BatchWasDue(run: seq<Action>) {
    forall b :: b in After(run).scheduledBatch ==> T.ReadWhenDue(StepsOf(run), b, After(run).now)
  }

  lemma ReadEarlier(run: seq<O.Step>, more: seq<O.Step>, b: ScheduledJob, now: Time, later: Time)
    requires T.ReadWhenDue(run, b, now) && now <= later
    ensures T.ReadWhenDue(run + more, b, later)
  {
    var n: nat, readAt: Time :| T.ReadAt(run, n, b, readAt) && readAt <= now;
    assert (run + more)[..n] == run[..n];
    assert T.ReadAt(run + more, n, b, readAt);
  }

  lemma ReadNow(run: seq<Action>, a: Action, b: ScheduledJob)
    requires IsRun(run) && a.ReadScheduled? && Enabled(After(run), a) && b in a.batch
    ensures T.ReadWhenDue(StepsOf(run), b, After(run).now)
  {
    RunsRefineTheOpenRegime(run);
    var s, steps := After(run), StepsOf(run);
    assert steps[..|steps|] == steps;
    assert b.id in s.world.tables.scheduled && s.world.tables.scheduled[b.id] == b;
    assert T.ReadAt(steps, |steps|, b, s.now);
  }

  lemma {:induction false} BatchesWereDue(run: seq<Action>)
    requires IsRun(run)
    ensures BatchWasDue(run)
  {
    if run != [] {
      var before, a := run[..|run| - 1], run[|run| - 1];
      var s := After(before);
      BatchesWereDue(before);
      var more := if StepOf(s, a).Some? then [StepOf(s, a).value] else [];
      assert StepsOf(run) == StepsOf(before) + more;
      forall b | b in After(run).scheduledBatch ensures T.ReadWhenDue(StepsOf(run), b, After(run).now) {
        if a.ReadScheduled? {
          ReadNow(before, a, b);
        } else {
          assert b in s.scheduledBatch;
        }
        ReadEarlier(StepsOf(before), more, b, s.now, After(run).now);
      }
    }
  }

  lemma MoveIsFromBatch(s: System, a: Action)
    requires Enabled(s, a) && StepOf(s, a).Some? && StepOf(s, a).value.MoveScheduled?
    ensures StepOf(s, a).value.snapshot in s.scheduledBatch && StepOf(s, a).value.now == s.now
  {
  }

  lemma {:induction false} MoversReadDue(run: seq<Action>)
    requires IsRun(run)
    ensures T.MoversReadDue(StepsOf(run))
  {
    if run != [] {
      hide StepOf, After, Enabled, T.ReadWhenDue;
      var before, a := run[..|run| - 1], run[|run| - 1];
      MoversReadDue(before);
      BatchesWereDue(before);
      if StepOf(After(before), a).Some? {
        assert StepsOf(run)[..|StepsOf(run)| - 1] == StepsOf(before);
        if StepOf(After(before), a).value.MoveScheduled? { MoveIsFromBatch(After(before), a); }
      }
    }
  }

  /** No job leaves the schedule, or skips it, before the time that was asked for. */
  lemma NeverEarly(run: seq<Action>)
    requires IsRun(run)
    ensures T.AllKeepSchedule(After(run).world, T.Requests(StepsOf(run)), After(run).now)
  {
    RunsRefineTheOpenRegime(run);
    StepsAreInTime(run);
    MoversReadDue(run);
    T.NeverEarly(StepsOf(run), After(run).now);
  }

  // ---- retries ----

  /** Nobody retries this job by hand. */
  ghost predicate NoWeb(run: seq<Action>, id: JobId) {
    forall n :: 0 <= n < |run| ==> !(run[n].Web? && run[n].id == id)
  }

  /** What the retry mover holds of this job is still in failed, and is due. */
  ghost predicate DueInFailed(s: System, id: JobId) {
    && (forall i :: 0 <= i < |s.failedBatch| && s.failedBatch[i].id == id ==>
          RowsIn(s, id).failed == Some(s.failedBatch[i]) && s.failedBatch[i].phase.nextRetryAt <= s.now)
    && (forall i, j :: 0 <= i < j < |s.failedBatch| ==> s.failedBatch[i].id != s.failedBatch[j].id)
  }

  lemma FailedRowStays(r: Rows, step: O.Step)
    requires r.failed.Some? && !step.Retry? && !step.WebRetry?
    ensures O.RowsNext(r, step).failed == r.failed
  {
  }

  lemma FailedPersists(s: System, a: Action, id: JobId)
    requires O.Identity(s.world) && Enabled(s, a) && RowsIn(s, id).failed.Some?
    requires a != Web(id) && (a.RetryNext? ==> s.failedBatch[0].id != id)
    ensures RowsOf(NextWorld(s, a).tables, id).failed == RowsIn(s, id).failed
  {
    RowsAfterAction(s, a, id);
    if StepOf(s, a).Some? && O.Subject(StepOf(s, a).value) == Some(id) {
      FailedRowStays(RowsIn(s, id), StepOf(s, a).value);
    }
  }

  lemma DueInFailedStep(s: System, a: Action, id: JobId)
    requires O.Identity(s.world) && Enabled(s, a) && DueInFailed(s, id) && a != Web(id)
    ensures DueInFailed(Next(s, a), id)
  {
    var s' := Next(s, a);
    forall i | 0 <= i < |s'.failedBatch| && s'.failedBatch[i].id == id
      ensures RowsIn(s', id).failed == Some(s'.failedBatch[i]) && s'.failedBatch[i].phase.nextRetryAt <= s'.now
    {
      if a.ReadFailed? {
        assert a.due[i].phase.nextRetryAt <= s.now;
      } else {
        var j := if a.RetryNext? then i + 1 else i;
        assert s'.failedBatch[i] == s.failedBatch[j];
        FailedPersists(s, a, id);
      }
    }
  }

  lemma ClaimTakesDue(s: System, a: Action, id: JobId)
    requires DueInFailed(s, id) && Enabled(s, a) && a != Web(id)
    requires StepOf(s, a).Some? && O.CommitsClaim(s.world, StepOf(s, a).value, id)
    ensures s.world.tables.failed[id].phase.nextRetryAt <= s.now && StepOf(s, a).value.now == s.now
  {
    assert a.RetryNext? && s.failedBatch[0].id == id;
    assert RowsIn(s, id).failed == Some(s.world.tables.failed[id]);
  }

  lemma {:induction false} RetriesAreDue(run: seq<Action>, id: JobId)
    requires IsRun(run) && NoWeb(run, id)
    ensures DueInFailed(After(run), id)
    ensures B.ClaimedWhenDue(StepsOf(run), id)
  {
    if run != [] {
      var before, a := run[..|run| - 1], run[|run| - 1];
      var s := After(before);
      assert NoWeb(before, id);
      RetriesAreDue(before, id);
      EveryRunIsSound(before);
      RunsRefineTheOpenRegime(before);
      DueInFailedStep(s, a, id);
      if StepOf(s, a).Some? {
        assert StepsOf(run)[..|StepsOf(run)| - 1] == StepsOf(before);
        if O.CommitsClaim(s.world, StepOf(s, a).value, id) { ClaimTakesDue(s, a, id); }
      }
    }
  }

  /** A failed record with retry count k is due no earlier than (k(k+1)/2)^2 minutes after the job's first failure. */
  lemma BackoffIsCumulative(run: seq<Action>, id: JobId)
    requires IsRun(run) && NoWeb(run, id) && id in After(run).world.tables.failed
    ensures var k, first := After(run).world.tables.failed[id].phase.retryCount, B.FirstFailure(StepsOf(run), id);
      && 1 <= k <= 19 && first.Some?
      && first.value + T.TotalBackoff(k) * MINUTE <= After(run).world.tables.failed[id].phase.nextRetryAt
  {
    RunsRefineTheOpenRegime(run);
    StepsAreInTime(run);
    RetriesAreDue(run, id);
    B.BackoffIsCumulative(StepsOf(run), After(run).now, id);
  }

  /** A job starts for the last time no earlier than 36100 minutes after its first failure. */
  lemma LastAttemptComesLate(run: seq<Action>, c: ProcessingJob)
    requires IsRun(run) && NoWeb(run, c.id) && c in After(run).world.claims
    requires c.phase.retryCount == L.DEFAULT_MAX_RETRY_COUNT
    ensures var first := B.FirstFailure(StepsOf(run), c.id);
      first.Some? && first.value + 36100 * MINUTE <= c.phase.startedAt
  {
    RunsRefineTheOpenRegime(run);
    StepsAreInTime(run);
    RetriesAreDue(run, c.id);
    B.LastAttemptComesLate(StepsOf(run), After(run).now, c);
  }

  /** A job that nobody retries by hand leaves failed only through the retry mover, and only when it is due. */
  lemma NoRetryIsEarly(run: seq<Action>, a: Action, id: JobId)
    requires IsRun(run + [a]) && NoWeb(run + [a], id)
    requires id in After(run).world.tables.failed && id !in Next(After(run), a).world.tables.failed
    ensures a.RetryNext? && After(run).world.tables.failed[id].phase.nextRetryAt <= After(run).now
  {
    var s := After(run);
    assert (run + [a])[..|run|] == run && (run + [a])[|run|] == a;
    assert NoWeb(run, id) by {
      assert forall n :: 0 <= n < |run| ==> (run + [a])[n] == run[n];
    }
    RetriesAreDue(run, id);
    EveryRunIsSound(run);
    assert RowsIn(s, id).failed == Some(s.world.tables.failed[id]);
    if !a.RetryNext? || s.failedBatch[0].id != id {
      FailedPersists(s, a, id);
    }
  }
}
