/** One job in an otherwise idle system, up to its first failure: how the concrete runs begin. */
module OneJob {
  import opened Jobs
  import opened Storage
  import L = Lifecycle
  import O = OpenRegime
  import T = Timing
  import opened SingleProcessor

  const ID: JobId := "1"
  const SUBMITTED: ScheduledJob := Job(ID, "mail", "default", None, -1, Schedule(-1))
  const QUEUED: EnqueuedJob := L.ToEnqueued(SUBMITTED, 0)
  const FIRST: ProcessingJob := L.ToProcessing(QUEUED, 0)
  const FAILED: FailedJob := Job(ID, "mail", "default", None, -1, Failure("handler", 1, 0, MINUTE))

  /** The job is in its queue, in processing, or in failed, and nowhere else. */
  const IN_QUEUE: Tables := EMPTY.(enqueued := map[ID := QUEUED])
  const IN_PROCESSING: Tables := EMPTY.(processing := map[ID := FIRST], heartbeats := map[ID := 0])
  const IN_FAILED: Tables := EMPTY.(failed := map[ID := FAILED])

  function Store(t: Tables, claims: set<ProcessingJob>, now: Time): System {
    START.(world := O.World(t, map[ID := OriginOf(SUBMITTED)], {}, claims, {}), now := now, roundStart := now)
  }

  const S1 := Store(IN_QUEUE, {}, 0)
  const S2 := Store(IN_PROCESSING, {FIRST}, 0).(workers := map[0 := Claimed(FIRST)])
  const S3 := Store(IN_PROCESSING, {FIRST}, 0).(workers := map[0 := Working(FIRST)], inFlight := map[ID := FIRST])
  const S4 := Store(IN_FAILED, {FIRST}, 0).(workers := map[0 := Leaving(ID)], inFlight := map[ID := FIRST])

  const UNTIL_FAILED: seq<Action> :=
    [] + [Submit(SUBMITTED, 0, 0)] + [Claim(0, "default", ID)] + [Register(0)] + [FailJob(0, "handler", true)]

  lemma Submitted() ensures Enabled(START, Submit(SUBMITTED, 0, 0)) && Next(START, Submit(SUBMITTED, 0, 0)) == S1 {
    assert O.Body(EMPTY, O.Accept(SUBMITTED, 0, 0, 0)) == Ok(IN_QUEUE);
    assert O.Next(O.START, O.Accept(SUBMITTED, 0, 0, 0)) == S1.world;
  }

  lemma ClaimedFirst() ensures Enabled(S1, Claim(0, "default", ID)) && Next(S1, Claim(0, "default", ID)) == S2 {
    assert O.Body(IN_QUEUE, O.Dequeue("default", ID, 0)) == Ok(IN_PROCESSING);
    assert O.Next(S1.world, O.Dequeue("default", ID, 0)) == S2.world;
  }

  lemma RegisteredFirst() ensures Enabled(S2, Register(0)) && Next(S2, Register(0)) == S3 {
  }

  lemma FailedFirst() ensures Enabled(S3, FailJob(0, "handler", true)) && Next(S3, FailJob(0, "handler", true)) == S4 {
    T.BackoffIsExact(1);
    assert L.ToFailed(FIRST, "handler", 0) == FAILED;
    assert O.Body(IN_PROCESSING, O.Fail(FIRST, "handler", 0)) == Ok(IN_FAILED);
    assert O.Next(S3.world, O.Fail(FIRST, "handler", 0)) == S4.world;
  }

  lemma FailsOnce()
    ensures Reaches(UNTIL_FAILED, S4)
  {
    hide Next, Enabled, Store;
    Submitted(); ClaimedFirst(); RegisteredFirst(); FailedFirst();
    var r := [];
    Then(r, START, Submit(SUBMITTED, 0, 0), S1); r := r + [Submit(SUBMITTED, 0, 0)];
    Then(r, S1, Claim(0, "default", ID), S2); r := r + [Claim(0, "default", ID)];
    Then(r, S2, Register(0), S3); r := r + [Register(0)];
    Then(r, S3, FailJob(0, "handler", true), S4);
  }
}
