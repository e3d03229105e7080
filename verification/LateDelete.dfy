/** processJob registers its job in processingJobs under the job's ID and deletes that ID when it
    returns (process.go:335-336), after complete or fail has committed. A web retry can put the job
    back in its queue, and a second worker can register it, before the first worker's Delete.
    The Delete then takes the second worker's entry, and the emitter stops beating for a live job. */
module LateDelete {
  import opened Jobs
  import opened Storage
  import opened JobRows
  import L = Lifecycle
  import O = OpenRegime
  import opened SingleProcessor
  import opened OneJob
  import E = Exclusivity
  import P = Progress

  /** Every registered worker's job is visible to the heartbeat emitter. */
  ghost predicate AllVisible(s: System) {
    forall w :: Holds(s, w) && !s.workers[w].Claimed? ==> s.workers[w].job.id in s.inFlight
  }

  /** A deferred Delete keeps every registered job visible exactly when no other registered worker has the same job. */
  lemma DeleteIsHarmlessIff(s: System, worker: nat)
    requires AllVisible(s) && Enabled(s, Unregister(worker))
    ensures AllVisible(Next(s, Unregister(worker))) <==>
      forall w :: Holds(s, w) && !s.workers[w].Claimed? ==> s.workers[w].job.id != s.workers[worker].id
  {
    var s' := Next(s, Unregister(worker));
    assert forall w :: Holds(s', w) <==> Holds(s, w);
    assert forall w :: Holds(s, w) ==> s'.workers[w] == s.workers[w];
  }

  /** Whenever a worker registers a job whose earlier worker has yet to run its Delete, that Delete
      may come next, and then the emitter cannot see the job. */
  lemma DisorderHidesTheJob(s: System, worker: nat, earlier: nat)
    requires Enabled(s, Register(worker)) && E.SharesEntry(s, earlier, s.workers[worker].job.id)
    ensures var s1 := Next(s, Register(worker));
      && Enabled(s1, Unregister(earlier))
      && Holds(Next(s1, Unregister(earlier)), worker)
      && !AllVisible(Next(s1, Unregister(earlier)))
  {
    var s2 := Next(Next(s, Register(worker)), Unregister(earlier));
    assert Holds(s2, worker) && s2.workers[worker] == Working(s.workers[worker].job);
  }

  // ---- a run in which it happens ----

  const AGAIN: EnqueuedJob := L.ToRetried(FAILED, 0)
  const SECOND_TRY: ProcessingJob := L.ToProcessing(AGAIN, 0)

  const IN_QUEUE_AGAIN: Tables := EMPTY.(enqueued := map[ID := AGAIN])
  const IN_PROCESSING_AGAIN: Tables := EMPTY.(processing := map[ID := SECOND_TRY], heartbeats := map[ID := 0])

  function Workers(t: Tables, claims: set<ProcessingJob>, workers: map<nat, Worker>, inFlight: map<JobId, ProcessingJob>): System {
    Store(t, claims, 0).(workers := workers, inFlight := inFlight)
  }

  const S5 := Workers(IN_QUEUE_AGAIN, {FIRST}, map[0 := Leaving(ID)], map[ID := FIRST])
  const S6 := Workers(IN_PROCESSING_AGAIN, {FIRST, SECOND_TRY}, map[0 := Leaving(ID), 1 := Claimed(SECOND_TRY)], map[ID := FIRST])
  const S7 := Workers(IN_PROCESSING_AGAIN, {FIRST, SECOND_TRY}, map[0 := Leaving(ID), 1 := Working(SECOND_TRY)], map[ID := SECOND_TRY])
  const S8 := Workers(IN_PROCESSING_AGAIN, {FIRST, SECOND_TRY}, map[1 := Working(SECOND_TRY)], map[])

  lemma WebRetried() ensures Enabled(S4, Web(ID)) && Next(S4, Web(ID)) == S5 {
    assert O.Body(IN_FAILED, O.WebRetry(ID, 0)) == Ok(IN_QUEUE_AGAIN);
    assert O.Next(S4.world, O.WebRetry(ID, 0)) == S5.world;
  }

  lemma ClaimedAgain() ensures Enabled(S5, Claim(1, "default", ID)) && Next(S5, Claim(1, "default", ID)) == S6 {
    assert O.Body(IN_QUEUE_AGAIN, O.Dequeue("default", ID, 0)) == Ok(IN_PROCESSING_AGAIN);
    assert O.Next(S5.world, O.Dequeue("default", ID, 0)) == S6.world;
  }

  lemma RegisteredAgain() ensures Enabled(S6, Register(1)) && Next(S6, Register(1)) == S7 {
  }

  lemma DeletedLate() ensures Enabled(S7, Unregister(0)) && Next(S7, Unregister(0)) == S8 {
  }

  // ---- nobody beats for the second worker's job any more ----

  function QuietAt(t: Time): System {
    S8.(now := t, roundStart := t)
  }

  lemma QuietRound(run: seq<Action>, t: Time)
    requires Reaches(run, QuietAt(t))
    ensures Reaches(run + [Pass(3_000_000_000)] + [StartRound], QuietAt(t + HEARTBEAT_TICKER))
  {
    var later := QuietAt(t).(now := t + HEARTBEAT_TICKER);
    Then(run, QuietAt(t), Pass(3_000_000_000), later);
    Then(run + [Pass(3_000_000_000)], later, StartRound, QuietAt(t + HEARTBEAT_TICKER));
  }

  const LATE: Time := 3 * HEARTBEAT_TICKER + 1
  const S9: System := QuietAt(3 * HEARTBEAT_TICKER).(now := LATE)
  const S10: System := S9.(orphanBatch := [SECOND_TRY])
  const FAILED_ALIVE: FailedJob := L.ToFailed(SECOND_TRY, ORPHAN_ERROR, LATE)
  const IN_FAILED_ALIVE: Tables := EMPTY.(failed := map[ID := FAILED_ALIVE])
  const S11: System := S9.(world := Store(IN_FAILED_ALIVE, {FIRST, SECOND_TRY}, LATE).world)
  const IN_BOTH: Tables := IN_FAILED_ALIVE.(processed := map[ID := L.ToProcessed(SECOND_TRY, LATE)])
  const S12: System := S11.(world := Store(IN_BOTH, {FIRST, SECOND_TRY}, LATE).world, workers := map[1 := Leaving(ID)])

  lemma SelectedAlive() ensures Enabled(S9, ReadOrphans(LATE, [SECOND_TRY])) && Next(S9, ReadOrphans(LATE, [SECOND_TRY])) == S10 {
  }

  lemma OrphanedAlive() ensures Enabled(S10, OrphanNext(true)) && Next(S10, OrphanNext(true)) == S11 {
    assert O.Body(IN_PROCESSING_AGAIN, O.Fail(SECOND_TRY, ORPHAN_ERROR, LATE)) == Ok(IN_FAILED_ALIVE);
    assert O.Next(S10.world, O.Fail(SECOND_TRY, ORPHAN_ERROR, LATE)) == S11.world;
  }

  lemma CompletedAnyway() ensures Enabled(S11, CompleteJob(1, true)) && Next(S11, CompleteJob(1, true)) == S12 {
    assert O.Body(IN_FAILED_ALIVE, O.Complete(SECOND_TRY, LATE)) == Ok(IN_BOTH);
    assert O.Next(S11.world, O.Complete(SECOND_TRY, LATE)) == S12.world;
  }

  const UNTIL_DELETE: seq<Action> :=
    UNTIL_FAILED + [Web(ID)] + [Claim(1, "default", ID)] + [Register(1)] + [Unregister(0)]

  const UNTIL_SELECTED: seq<Action> :=
    UNTIL_DELETE + [Pass(3_000_000_000)] + [StartRound] + [Pass(3_000_000_000)] + [StartRound]
    + [Pass(3_000_000_000)] + [StartRound] + [Pass(1)] + [ReadOrphans(LATE, [SECOND_TRY])]

  lemma DeleteComesLate()
    ensures Reaches(UNTIL_DELETE, S8)
  {
    hide Next, Enabled;
    FailsOnce(); WebRetried(); ClaimedAgain(); RegisteredAgain(); DeletedLate();
    var r := UNTIL_FAILED;
    Then(r, S4, Web(ID), S5); r := r + [Web(ID)];
    Then(r, S5, Claim(1, "default", ID), S6); r := r + [Claim(1, "default", ID)];
    Then(r, S6, Register(1), S7); r := r + [Register(1)];
    Then(r, S7, Unregister(0), S8);
  }

  /** In this run every timing assumption is met, and yet the checker selects the row of a working job. */
  lemma LateDeleteOrphansALiveJob()
    ensures Reaches(UNTIL_SELECTED, S10)
    ensures S10.workers == map[1 := Working(SECOND_TRY)] && S10.orphanBatch == [SECOND_TRY]
  {
    DeleteComesLate();
    var r := UNTIL_DELETE;
    assert QuietAt(0) == S8;
    QuietRound(r, 0); r := r + [Pass(3_000_000_000)] + [StartRound];
    QuietRound(r, HEARTBEAT_TICKER); r := r + [Pass(3_000_000_000)] + [StartRound];
    QuietRound(r, 2 * HEARTBEAT_TICKER); r := r + [Pass(3_000_000_000)] + [StartRound];
    Then(r, QuietAt(3 * HEARTBEAT_TICKER), Pass(1), S9);
    SelectedAlive();
    Then(r + [Pass(1)], S9, ReadOrphans(LATE, [SECOND_TRY]), S10);
  }

  /** The job then fails as an orphan and completes as well: it is in two tables, and will run again. */
  lemma LateDeleteBreaksExclusivity()
    ensures var run := UNTIL_SELECTED + [OrphanNext(true)] + [CompleteJob(1, true)];
      && IsRun(run)
      && ID in After(run).world.tables.failed && ID in After(run).world.tables.processed
      && !E.Exclusive(After(run).world)
  {
    LateDeleteOrphansALiveJob();
    OrphanedAlive();
    CompletedAnyway();
    Then(UNTIL_SELECTED, S10, OrphanNext(true), S11);
    Then(UNTIL_SELECTED + [OrphanNext(true)], S11, CompleteJob(1, true), S12);
    assert E.Places(RowsOf(IN_BOTH, ID), ID in S12.world.discarded) == 2;
  }

  // ---- or it runs on under the retry count of another attempt ----

  const THIRD_QUEUED: EnqueuedJob := L.ToRetried(FAILED_ALIVE, LATE)
  const THIRD_TRY: ProcessingJob := L.ToProcessing(THIRD_QUEUED, LATE)
  const IN_QUEUE_THIRD: Tables := EMPTY.(enqueued := map[ID := THIRD_QUEUED])
  const IN_PROCESSING_THIRD: Tables := EMPTY.(processing := map[ID := THIRD_TRY], heartbeats := map[ID := LATE])
  const FAILED_BY_SECOND: FailedJob := L.ToFailed(SECOND_TRY, "handler", LATE)
  const IN_FAILED_BY_SECOND: Tables := EMPTY.(failed := map[ID := FAILED_BY_SECOND])
  const ALL_TRIES: set<ProcessingJob> := {FIRST, SECOND_TRY, THIRD_TRY}

  const S13: System := S11.(world := Store(IN_QUEUE_THIRD, {FIRST, SECOND_TRY}, LATE).world)
  const S14: System := S11.(world := Store(IN_PROCESSING_THIRD, ALL_TRIES, LATE).world,
                            workers := map[1 := Working(SECOND_TRY), 2 := Claimed(THIRD_TRY)])
  const S15: System := S14.(world := Store(IN_FAILED_BY_SECOND, ALL_TRIES, LATE).world,
                            workers := map[1 := Leaving(ID), 2 := Claimed(THIRD_TRY)])
  const S16: System := S15.(world := Store(IN_QUEUE_THIRD, ALL_TRIES, LATE).world)
  const S17: System := S15.(world := Store(IN_PROCESSING_THIRD, ALL_TRIES, LATE).world,
                            workers := map[1 := Leaving(ID), 2 := Claimed(THIRD_TRY), 3 := Claimed(THIRD_TRY)])

  const UNTIL_THIRD: seq<Action> := UNTIL_SELECTED + [OrphanNext(true)] + [Web(ID)] + [Claim(2, "default", ID)]

  lemma OrphanRetried() ensures Enabled(S11, Web(ID)) && Next(S11, Web(ID)) == S13 {
    assert O.Body(IN_FAILED_ALIVE, O.WebRetry(ID, LATE)) == Ok(IN_QUEUE_THIRD);
    assert O.Next(S11.world, O.WebRetry(ID, LATE)) == S13.world;
  }

  lemma ClaimedThird() ensures Enabled(S13, Claim(2, "default", ID)) && Next(S13, Claim(2, "default", ID)) == S14 {
    assert O.Body(IN_QUEUE_THIRD, O.Dequeue("default", ID, LATE)) == Ok(IN_PROCESSING_THIRD);
    assert O.Next(S13.world, O.Dequeue("default", ID, LATE)) == S14.world;
  }

  lemma SecondFails() ensures Enabled(S14, FailJob(1, "handler", true)) && Next(S14, FailJob(1, "handler", true)) == S15 {
    assert O.Body(IN_PROCESSING_THIRD, O.Fail(SECOND_TRY, "handler", LATE)) == Ok(IN_FAILED_BY_SECOND);
    assert O.Next(S14.world, O.Fail(SECOND_TRY, "handler", LATE)) == S15.world;
  }

  lemma SecondRetried() ensures Enabled(S15, Web(ID)) && Next(S15, Web(ID)) == S16 {
    assert L.ToRetried(FAILED_BY_SECOND, LATE) == THIRD_QUEUED;
    assert O.Body(IN_FAILED_BY_SECOND, O.WebRetry(ID, LATE)) == Ok(IN_QUEUE_THIRD);
    assert O.Next(S15.world, O.WebRetry(ID, LATE)) == S16.world;
  }

  lemma ClaimedThirdAgain() ensures Enabled(S16, Claim(3, "default", ID)) && Next(S16, Claim(3, "default", ID)) == S17 {
    assert O.Body(IN_QUEUE_THIRD, O.Dequeue("default", ID, LATE)) == Ok(IN_PROCESSING_THIRD);
    assert O.Next(S16.world, O.Dequeue("default", ID, LATE)) == S17.world;
  }

  lemma ThirdTryBegins()
    ensures Reaches(UNTIL_THIRD, S14)
  {
    hide Next, Enabled;
    LateDeleteOrphansALiveJob(); OrphanedAlive(); OrphanRetried(); ClaimedThird();
    Then(UNTIL_SELECTED, S10, OrphanNext(true), S11);
    Then(UNTIL_SELECTED + [OrphanNext(true)], S11, Web(ID), S13);
    Then(UNTIL_SELECTED + [OrphanNext(true)] + [Web(ID)], S13, Claim(2, "default", ID), S14);
  }

  /** The second worker, which was orphaned alive, fails after the third has started: the job goes back from
      processing at retry count 2 to failed at 2, which is no arrow, and is started at 2 once more. */
  lemma LateDeleteRepeatsAnAttempt()
    ensures Reaches(UNTIL_THIRD, S14) && Enabled(S14, FailJob(1, "handler", true))
    ensures P.PlaceIn(S14, ID) == P.InProcessing(2) && P.PlaceIn(Next(S14, FailJob(1, "handler", true)), ID) == P.InFailed(2)
    ensures !P.KeepsToArrows(S14, FailJob(1, "handler", true), ID)
    ensures Reaches(UNTIL_THIRD + [FailJob(1, "handler", true)] + [Web(ID)] + [Claim(3, "default", ID)], S17)
    ensures S17.workers[2].Claimed? && S17.workers[3].Claimed?
    ensures S17.workers[2].job.phase.retryCount == S17.workers[3].job.phase.retryCount == 2
  {
    hide Next, Enabled;
    ThirdTryBegins(); SecondFails(); SecondRetried(); ClaimedThirdAgain();
    Then(UNTIL_THIRD, S14, FailJob(1, "handler", true), S15);
    Then(UNTIL_THIRD + [FailJob(1, "handler", true)], S15, Web(ID), S16);
    Then(UNTIL_THIRD + [FailJob(1, "handler", true)] + [Web(ID)], S16, Claim(3, "default", ID), S17);
  }
}
