/** With any number of processors a job can be in several tables, because three transactions do not look
    whether the record they work from is still there. This is exactly when. */
module Guards {
  import opened Jobs
  import opened Storage
  import opened JobRows
  import L = Lifecycle
  import opened OpenRegime
  import J = OneJob
  import opened Exclusivity

  /** What enqueueScheduled, complete and failWithStack would have to check first. */
  predicate RowGuard(r: Rows, step: Step, discarded: bool) {
    match step
    case MoveScheduled(_, _) => r.scheduled.Some? || r.enqueued.Some?
    case Complete(_, _) => r.processing.Some? || r.processed.Some?
    case Fail(held, _, _) => r.processing.Some? || if L.Exhausted(held) then discarded else r.failed.Some?
    case _ => true
  }

  ghost predicate Guarded(w: World, step: Step) {
    match Subject(step)
    case Some(id) => RowGuard(RowsOf(w.tables, id), step, id in w.discarded)
    case None => true
  }

  lemma RowGuardIff(r: Rows, step: Step, discarded: bool)
    requires Places(r, discarded) == if step.Accept? then 0 else 1
    requires step.Dequeue? ==> r.enqueued.Some?
    ensures Places(RowsNext(r, step), discarded || (step.Fail? && L.Exhausted(step.held))) == 1 <==> RowGuard(r, step, discarded)
  {
  }

  /** A job that nobody accepted has no rows, and a step about it changes nothing. */
  lemma NobodysRow(r: Rows, step: Step)
    requires Places(r, false) == 0 && (step.Retry? || step.WebRetry? || step.Heartbeat?)
    ensures Places(RowsNext(r, step), false) == 0
  {
  }

  lemma SubjectPlaces(w: World, step: Step, id: JobId)
    requires Identity(w) && Exclusive(w) && Enabled(w, step) && Subject(step) == Some(id)
    ensures var w' := Next(w, step);
      Places(RowsOf(w'.tables, id), id in w'.discarded) == One(id in w'.accepted) <==> Guarded(w, step)
  {
    IdentityMeansKeyed(w);
    StepRows(w, step, id);
    var r := RowsOf(w.tables, id);
    assert Places(r, id in w.discarded) == One(id in w.accepted);
    if step.Accept? || id in w.accepted {
      RowGuardIff(r, step, id in w.discarded);
    } else {
      assert Copies(r, id, w.accepted);
      NobodysRow(r, step);
    }
  }

  lemma OtherPlaces(w: World, step: Step, id: JobId)
    requires Identity(w) && Exclusive(w) && Subject(step) != Some(id)
    ensures var w' := Next(w, step); Places(RowsOf(w'.tables, id), id in w'.discarded) == One(id in w'.accepted)
  {
    IdentityMeansKeyed(w);
    StepRows(w, step, id);
    assert Places(RowsOf(w.tables, id), id in w.discarded) == One(id in w.accepted);
  }

  /** A step keeps every job in exactly one place if and only if it meets its guard. */
  lemma ExclusiveStepIff(w: World, step: Step)
    requires Identity(w) && Exclusive(w) && Enabled(w, step)
    ensures Exclusive(Next(w, step)) <==> Guarded(w, step)
  {
    var w' := Next(w, step);
    forall id | Subject(step) != Some(id)
      ensures Places(RowsOf(w'.tables, id), id in w'.discarded) == One(id in w'.accepted)
    {
      OtherPlaces(w, step, id);
    }
    if Subject(step).Some? { SubjectPlaces(w, step, Subject(step).value); }
  }

  ghost predicate AlwaysExclusive(run: seq<Step>) {
    Exclusive(After(run)) && (run != [] ==> AlwaysExclusive(run[..|run| - 1]))
  }

  ghost predicate AlwaysGuarded(run: seq<Step>) {
    run != [] ==> AlwaysGuarded(run[..|run| - 1]) && Guarded(After(run[..|run| - 1]), run[|run| - 1])
  }

  /** A run keeps every job in exactly one place at all times if and only if each of its steps meets its guard. */
  lemma {:induction false} AlwaysExclusiveIff(run: seq<Step>)
    requires IsRun(run)
    ensures AlwaysExclusive(run) <==> AlwaysGuarded(run)
  {
    if run != [] {
      var before := run[..|run| - 1];
      AlwaysExclusiveIff(before);
      RunsAreSound(before);
      if AlwaysExclusive(before) {
        assert Exclusive(After(before));
        ExclusiveStepIff(After(before), run[|run| - 1]);
      }
    }
  }

  // ---- a stale snapshot runs a job again ----

  const IN_SCHEDULE: Tables := EMPTY.(scheduled := map[J.ID := J.SUBMITTED])
  const IN_PROCESSED: Tables := EMPTY.(processed := map[J.ID := L.ToProcessed(J.FIRST, 0)])
  const IN_BOTH: Tables := IN_PROCESSED.(enqueued := map[J.ID := J.QUEUED])

  const STALE: seq<Step> :=
    [] + [Accept(J.SUBMITTED, -1, -1, -1)] + [MoveScheduled(J.SUBMITTED, 0)] + [Dequeue("default", J.ID, 0)]
    + [Complete(J.FIRST, 0)] + [MoveScheduled(J.SUBMITTED, 0)]

  function Since(t: Tables, claims: set<ProcessingJob>): World {
    World(t, map[J.ID := OriginOf(J.SUBMITTED)], {J.SUBMITTED}, claims, {})
  }

  lemma Takes(run: seq<Step>, w: World, step: Step, w': World)
    requires IsRun(run) && After(run) == w && Enabled(w, step) && Next(w, step) == w'
    ensures IsRun(run + [step]) && After(run + [step]) == w'
  {
    assert (run + [step])[..|run|] == run;
  }

  lemma FirstSteps()
    ensures Enabled(START, Accept(J.SUBMITTED, -1, -1, -1)) && Next(START, Accept(J.SUBMITTED, -1, -1, -1)) == Since(IN_SCHEDULE, {})
    ensures Next(Since(IN_SCHEDULE, {}), MoveScheduled(J.SUBMITTED, 0)) == Since(J.IN_QUEUE, {})
  {
    assert Body(EMPTY, Accept(J.SUBMITTED, -1, -1, -1)) == Ok(IN_SCHEDULE);
    assert Body(IN_SCHEDULE, MoveScheduled(J.SUBMITTED, 0)) == Ok(J.IN_QUEUE);
  }

  lemma NextSteps()
    ensures Enabled(Since(J.IN_QUEUE, {}), Dequeue("default", J.ID, 0))
    ensures Next(Since(J.IN_QUEUE, {}), Dequeue("default", J.ID, 0)) == Since(J.IN_PROCESSING, {J.FIRST})
    ensures Next(Since(J.IN_PROCESSING, {J.FIRST}), Complete(J.FIRST, 0)) == Since(IN_PROCESSED, {J.FIRST})
    ensures Next(Since(IN_PROCESSED, {J.FIRST}), MoveScheduled(J.SUBMITTED, 0)) == Since(IN_BOTH, {J.FIRST})
  {
    assert Body(J.IN_QUEUE, Dequeue("default", J.ID, 0)) == Ok(J.IN_PROCESSING);
    assert Body(J.IN_PROCESSING, Complete(J.FIRST, 0)) == Ok(IN_PROCESSED);
    assert Body(IN_PROCESSED, MoveScheduled(J.SUBMITTED, 0)) == Ok(IN_BOTH);
  }

  /** Two movers read the same scheduled job; the second moves it after it has completed. */
  lemma StaleMoveEnqueuesAgain()
    ensures IsRun(STALE) && J.ID in After(STALE).tables.processed && J.ID in After(STALE).tables.enqueued
    ensures !Exclusive(After(STALE))
  {
    FirstSteps();
    NextSteps();
    var r := [];
    Takes(r, START, Accept(J.SUBMITTED, -1, -1, -1), Since(IN_SCHEDULE, {})); r := r + [Accept(J.SUBMITTED, -1, -1, -1)];
    Takes(r, Since(IN_SCHEDULE, {}), MoveScheduled(J.SUBMITTED, 0), Since(J.IN_QUEUE, {})); r := r + [MoveScheduled(J.SUBMITTED, 0)];
    Takes(r, Since(J.IN_QUEUE, {}), Dequeue("default", J.ID, 0), Since(J.IN_PROCESSING, {J.FIRST})); r := r + [Dequeue("default", J.ID, 0)];
    Takes(r, Since(J.IN_PROCESSING, {J.FIRST}), Complete(J.FIRST, 0), Since(IN_PROCESSED, {J.FIRST})); r := r + [Complete(J.FIRST, 0)];
    Takes(r, Since(IN_PROCESSED, {J.FIRST}), MoveScheduled(J.SUBMITTED, 0), Since(IN_BOTH, {J.FIRST}));
    assert Places(RowsOf(IN_BOTH, J.ID), false) == 2;
  }
}
