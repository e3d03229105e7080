/** Failed jobs that are taken before they are due. A web caller takes any record there is, and the retry
    mover claims by ID what it read as due, without looking at the record that is there now. */
module EarlyRetries {
  import opened Jobs
  import opened Storage
  import opened JobRows
  import L = Lifecycle
  import O = OpenRegime
  import T = Timing
  import opened SingleProcessor
  import Refinement
  import PT = ProcessorTiming
  import opened OneJob

  /** What the retry mover still holds was due when it was read. */
  ghost predicate BatchWasDue(s: System) {
    forall b :: b in s.failedBatch ==> b.phase.nextRetryAt <= s.now
  }

  lemma {:induction false} BatchesWereDue(run: seq<Action>)
    requires IsRun(run)
    ensures BatchWasDue(After(run))
  {
    if run != [] {
      var s, a := After(run[..|run| - 1]), run[|run| - 1];
      BatchesWereDue(run[..|run| - 1]);
      forall b | b in Next(s, a).failedBatch ensures b.phase.nextRetryAt <= Next(s, a).now {
        if a.ReadFailed? {
          var i :| 0 <= i < |a.due| && a.due[i] == b;
        } else {
          assert b in s.failedBatch;
        }
      }
    }
  }

  /** The action takes the job out of failed although its record is not due yet. */
  predicate LeavesEarly(s: System, a: Action, id: JobId) {
    && id in s.world.tables.failed && s.world.tables.failed[id].phase.nextRetryAt > s.now
    && id !in Next(s, a).world.tables.failed
  }

  lemma RowLeavesFailed(r: Rows, step: O.Step)
    requires r.failed.Some?
    ensures O.RowsNext(r, step).failed.None? <==> step.Retry? || (step.WebRetry? && r.enqueued.None?)
  {
  }

  lemma LeavesFailedIff(s: System, a: Action, id: JobId)
    requires O.Identity(s.world) && Enabled(s, a) && id in s.world.tables.failed
    ensures id !in Next(s, a).world.tables.failed <==>
      (a == Web(id) && id !in s.world.tables.enqueued) || (a == RetryNext(true) && s.failedBatch[0].id == id)
  {
    hide O.Next, O.Identity;
    RowsAfterAction(s, a, id);
    assert id in Next(s, a).world.tables.failed <==> RowsOf(NextWorld(s, a).tables, id).failed.Some?;
    if StepOf(s, a).Some? && O.Subject(StepOf(s, a).value) == Some(id) {
      RowLeavesFailed(RowsIn(s, id), StepOf(s, a).value);
    }
  }

  /** A job leaves failed early exactly when a web caller takes its record, or the retry mover comes to an
      entry it once read for it, while the record that is there now is not due. */
  lemma LeavesEarlyIff(run: seq<Action>, a: Action, id: JobId)
    requires IsRun(run) && Enabled(After(run), a) && id in After(run).world.tables.failed
    ensures var s := After(run); var record := s.world.tables.failed[id];
      LeavesEarly(s, a, id) <==>
        record.phase.nextRetryAt > s.now
        && ((a == Web(id) && id !in s.world.tables.enqueued) || (a == RetryNext(true) && s.failedBatch[0].id == id))
  {
    Refinement.EveryRunIsSound(run);
    LeavesFailedIff(After(run), a, id);
  }

  lemma RetriedByHandBefore(run: seq<Action>, a: Action, id: JobId)
    requires IsRun(run + [a]) && a.RetryNext? && LeavesEarly(After(run), a, id)
    ensures exists n :: 0 <= n < |run| && run[n] == Web(id)
  {
    hide Next, Enabled, IsRun, After;
    if forall n :: 0 <= n < |run| ==> run[n] != Web(id) {
      forall n | 0 <= n < |run + [a]| ensures !((run + [a])[n].Web? && (run + [a])[n].id == id) {
        assert (run + [a])[n] == if n < |run| then run[n] else a;
      }
      PT.NoRetryIsEarly(run, a, id);
    }
  }

  /** The mover is only ever early on a record that replaced the one it read, after a retry by hand. */
  lemma EarlyMoverMeansReplaced(run: seq<Action>, a: Action, id: JobId)
    requires IsRun(run + [a]) && a.RetryNext? && LeavesEarly(After(run), a, id)
    ensures After(run).failedBatch != [] && After(run).failedBatch[0].id == id
    ensures After(run).failedBatch[0] != After(run).world.tables.failed[id]
    ensures exists n :: 0 <= n < |run| && run[n] == Web(id)
  {
    hide Next, After;
    LastAction(run, a);
    BatchesWereDue(run);
    LeavesEarlyIff(run, a, id);
    assert After(run).failedBatch[0] in After(run).failedBatch;
    RetriedByHandBefore(run, a, id);
  }

  lemma LastAction(run: seq<Action>, a: Action)
    requires IsRun(run + [a])
    ensures IsRun(run) && Enabled(After(run), a)
  {
    assert (run + [a])[..|run|] == run;
  }

  // ---- two runs ----

  const AGAIN: EnqueuedJob := L.ToRetried(FAILED, MINUTE)
  const FIRST_AGAIN: ProcessingJob := L.ToProcessing(AGAIN, MINUTE)
  const FAILED_AGAIN: FailedJob := Job(ID, "mail", "default", None, -1, Failure("handler", 2, MINUTE, 9 * MINUTE))

  const IN_QUEUE_AGAIN: Tables := EMPTY.(enqueued := map[ID := AGAIN])
  const IN_PROCESSING_AGAIN: Tables := EMPTY.(processing := map[ID := FIRST_AGAIN], heartbeats := map[ID := MINUTE])
  const IN_FAILED_AGAIN: Tables := EMPTY.(failed := map[ID := FAILED_AGAIN])

  const S5 := Store(IN_FAILED, {FIRST}, 0)

  lemma FirstGoes()
    ensures Reaches(UNTIL_FAILED + [Unregister(0)], S5)
  {
    FailsOnce();
    Then(UNTIL_FAILED, S4, Unregister(0), S5);
  }

  /** A web caller retries the job at once, a minute early. */
  lemma WebRetryIsEarly()
    ensures Reaches(UNTIL_FAILED + [Unregister(0)], S5) && Enabled(S5, Web(ID)) && LeavesEarly(S5, Web(ID), ID)
  {
    FirstGoes();
    LeavesEarlyIff(UNTIL_FAILED + [Unregister(0)], Web(ID), ID);
  }

  /** Time passes, 3 s at a time, while nobody works. */
  lemma {:induction false} Idle(run: seq<Action>, t: Tables, claims: set<ProcessingJob>, now: Time, rounds: nat)
    returns (later: seq<Action>)
    requires Reaches(run, Store(t, claims, now))
    ensures Reaches(later, Store(t, claims, now + rounds * HEARTBEAT_TICKER))
    decreases rounds
  {
    later := run;
    if rounds > 0 {
      var s := Store(t, claims, now);
      var s' := s.(now := now + HEARTBEAT_TICKER);
      Then(run, s, Pass(3_000_000_000), s');
      Then(run + [Pass(3_000_000_000)], s', StartRound, Store(t, claims, now + HEARTBEAT_TICKER));
      later := Idle(run + [Pass(3_000_000_000)] + [StartRound], t, claims, now + HEARTBEAT_TICKER, rounds - 1);
    }
  }

  const V0 := Store(IN_FAILED, {FIRST}, MINUTE)
  const V1 := V0.(failedBatch := [FAILED])
  const V2 := Store(IN_QUEUE_AGAIN, {FIRST}, MINUTE).(failedBatch := [FAILED])
  const V3 := Store(IN_PROCESSING_AGAIN, {FIRST, FIRST_AGAIN}, MINUTE).(failedBatch := [FAILED], workers := map[0 := Claimed(FIRST_AGAIN)])
  const V4 := V3.(workers := map[0 := Working(FIRST_AGAIN)], inFlight := map[ID := FIRST_AGAIN])
  const V5 := Store(IN_FAILED_AGAIN, {FIRST, FIRST_AGAIN}, MINUTE).(
    failedBatch := [FAILED], workers := map[0 := Leaving(ID)], inFlight := map[ID := FIRST_AGAIN])

  lemma RetriedByHand()
    ensures Enabled(V0, ReadFailed([FAILED])) && Next(V0, ReadFailed([FAILED])) == V1
    ensures Enabled(V1, Web(ID)) && Next(V1, Web(ID)) == V2
  {
    assert O.Body(IN_FAILED, O.WebRetry(ID, MINUTE)) == Ok(IN_QUEUE_AGAIN);
    assert O.Next(V1.world, O.WebRetry(ID, MINUTE)) == V2.world;
  }

  lemma ClaimedAgain()
    ensures Enabled(V2, Claim(0, "default", ID)) && Next(V2, Claim(0, "default", ID)) == V3
    ensures Enabled(V3, Register(0)) && Next(V3, Register(0)) == V4
  {
    assert O.Body(IN_QUEUE_AGAIN, O.Dequeue("default", ID, MINUTE)) == Ok(IN_PROCESSING_AGAIN);
    assert O.Next(V2.world, O.Dequeue("default", ID, MINUTE)) == V3.world;
  }

  lemma FailsAgain()
    ensures Enabled(V4, FailJob(0, "handler", true)) && Next(V4, FailJob(0, "handler", true)) == V5
  {
    T.BackoffIsExact(2);
    assert L.ToFailed(FIRST_AGAIN, "handler", MINUTE) == FAILED_AGAIN;
    assert O.Body(IN_PROCESSING_AGAIN, O.Fail(FIRST_AGAIN, "handler", MINUTE)) == Ok(IN_FAILED_AGAIN);
    assert O.Next(V4.world, O.Fail(FIRST_AGAIN, "handler", MINUTE)) == V5.world;
  }

  lemma EarlyHere()
    ensures Enabled(V5, RetryNext(true)) && ID in V5.world.tables.failed && V5.failedBatch[0].id == ID
    ensures V5.world.tables.failed[ID].phase.nextRetryAt > V5.now
  {
  }

  /** The mover reads a due record, a web caller retries it, it fails again, and the mover comes to its entry:
      it takes the new record eight minutes early. */
  lemma MoverIsEarly() returns (run: seq<Action>)
    ensures Reaches(run, V5) && Enabled(V5, RetryNext(true)) && LeavesEarly(V5, RetryNext(true), ID)
  {
    hide Next, Enabled, Store;
    FirstGoes(); RetriedByHand(); ClaimedAgain(); FailsAgain(); EarlyHere();
    assert S5 == Store(IN_FAILED, {FIRST}, 0) && V0 == Store(IN_FAILED, {FIRST}, 0 + 20 * HEARTBEAT_TICKER);
    var r := Idle(UNTIL_FAILED + [Unregister(0)], IN_FAILED, {FIRST}, 0, 20);
    Then(r, V0, ReadFailed([FAILED]), V1); r := r + [ReadFailed([FAILED])];
    Then(r, V1, Web(ID), V2); r := r + [Web(ID)];
    Then(r, V2, Claim(0, "default", ID), V3); r := r + [Claim(0, "default", ID)];
    Then(r, V3, Register(0), V4); r := r + [Register(0)];
    Then(r, V4, FailJob(0, "handler", true), V5);
    run := r + [FailJob(0, "handler", true)];
    LeavesEarlyIff(run, RetryNext(true), ID);
  }
}
