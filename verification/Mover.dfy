/** The scheduled mover of the single processor. In every run, orderly or not, what it holds is still in the
    schedule, and a job in the schedule is nowhere else and was never claimed. */
module Mover {
  import opened Jobs
  import opened Storage
  import opened JobRows
  import O = OpenRegime
  import opened SingleProcessor
  import Refinement

  // ---- the batch ----

  /** What the mover still has to do is still there to be done. */
  ghost predicate BatchIsCurrent(s: System) {
    && (forall i :: 0 <= i < |s.scheduledBatch| ==>
          RowsIn(s, s.scheduledBatch[i].id).scheduled == Some(s.scheduledBatch[i])
          && s.scheduledBatch[i].phase.enqueueAt <= s.now)
    && (forall i, j :: 0 <= i < j < |s.scheduledBatch| ==> s.scheduledBatch[i].id != s.scheduledBatch[j].id)
  }

  lemma ScheduledRowStays(r: Rows, step: O.Step)
    requires r.scheduled.Some? && !step.MoveScheduled? && !step.Accept?
    ensures O.RowsNext(r, step).scheduled == r.scheduled
  {
  }

  lemma ScheduledPersists(s: System, a: Action, id: JobId)
    requires O.Identity(s.world) && Enabled(s, a) && RowsIn(s, id).scheduled.Some?
    requires a.MoveNext? ==> s.scheduledBatch[0].id != id
    ensures RowsOf(NextWorld(s, a).tables, id).scheduled == RowsIn(s, id).scheduled
  {
    RowsAfterAction(s, a, id);
    assert O.Copies(RowsIn(s, id), id, s.world.accepted);
    if StepOf(s, a).Some? && O.Subject(StepOf(s, a).value) == Some(id) {
      ScheduledRowStays(RowsIn(s, id), StepOf(s, a).value);
    }
  }

  /** The `i`-th job that the mover holds after the action was in its hands before, or has just been read. */
  lemma EntryStep(s: System, a: Action, i: nat)
    requires O.Identity(s.world) && Enabled(s, a) && BatchIsCurrent(s) && i < |Next(s, a).scheduledBatch|
    ensures var b := Next(s, a).scheduledBatch[i];
      RowsOf(NextWorld(s, a).tables, b.id).scheduled == Some(b) && b.phase.enqueueAt <= s.now
  {
    hide O.Identity, O.Next;
    if a.ReadScheduled? {
      assert a.batch[i].phase.enqueueAt <= s.now;
    } else {
      var j := if a.MoveNext? then i + 1 else i;
      assert Next(s, a).scheduledBatch[i] == s.scheduledBatch[j];
      ScheduledPersists(s, a, s.scheduledBatch[j].id);
    }
  }

  lemma DistinctStep(s: System, a: Action)
    requires Enabled(s, a) && BatchIsCurrent(s)
    ensures var batch := Next(s, a).scheduledBatch; forall i, j :: 0 <= i < j < |batch| ==> batch[i].id != batch[j].id
  {
    hide O.Next;
  }

  lemma BatchStep(s: System, a: Action)
    requires O.Identity(s.world) && Enabled(s, a) && BatchIsCurrent(s)
    ensures BatchIsCurrent(Next(s, a))
  {
    hide O.Identity, O.Next, Enabled, StepOf;
    var s' := Next(s, a);
    forall i | 0 <= i < |s'.scheduledBatch|
      ensures RowsIn(s', s'.scheduledBatch[i].id).scheduled == Some(s'.scheduledBatch[i])
      ensures s'.scheduledBatch[i].phase.enqueueAt <= s'.now
    {
      EntryStep(s, a, i);
    }
    DistinctStep(s, a);
  }

  lemma {:induction false} BatchesAreCurrent(run: seq<Action>)
    requires IsRun(run)
    ensures BatchIsCurrent(After(run))
  {
    if run != [] {
      BatchesAreCurrent(run[..|run| - 1]);
      Refinement.EveryRunIsSound(run[..|run| - 1]);
      BatchStep(After(run[..|run| - 1]), run[|run| - 1]);
    }
  }

  // ---- a job in the schedule is nowhere else ----

  predicate OnlyScheduled(r: Rows) {
    r.scheduled.Some? ==> r.enqueued.None? && r.processing.None? && r.processed.None? && r.failed.None?
  }

  /** No job in the schedule has another row, and none was ever claimed. */
  ghost predicate ScheduledIsUntouched(w: O.World) {
    && (forall id :: OnlyScheduled(RowsOf(w.tables, id)))
    && (forall c :: c in w.claims ==> c.id !in w.tables.scheduled)
  }

  lemma UntouchedRow(r: Rows, step: O.Step)
    requires OnlyScheduled(r) && (step.Complete? || step.Fail? ==> r.scheduled.None?)
    requires step.Accept? ==> r.scheduled.None? && r.enqueued.None? && r.processing.None? && r.processed.None? && r.failed.None?
    ensures OnlyScheduled(O.RowsNext(r, step))
    ensures O.RowsNext(r, step).scheduled.Some? ==> r.scheduled.Some? || step.Accept?
  {
  }

  lemma UntouchedStepAt(w: O.World, step: O.Step, id: JobId)
    requires O.Identity(w) && ScheduledIsUntouched(w) && O.Enabled(w, step)
    ensures OnlyScheduled(RowsOf(O.Next(w, step).tables, id))
    ensures id in O.Next(w, step).tables.scheduled ==> id in w.tables.scheduled || id !in w.accepted
  {
    O.IdentityMeansKeyed(w);
    O.StepRows(w, step, id);
    var r := RowsOf(w.tables, id);
    assert OnlyScheduled(r) && O.Copies(r, id, w.accepted);
    if O.Subject(step) == Some(id) {
      UntouchedRow(r, step);
    }
    assert id in O.Next(w, step).tables.scheduled <==> RowsOf(O.Next(w, step).tables, id).scheduled.Some?;
  }

  lemma UntouchedStep(w: O.World, step: O.Step)
    requires O.Identity(w) && O.Identity(O.Next(w, step)) && ScheduledIsUntouched(w) && O.Enabled(w, step)
    ensures ScheduledIsUntouched(O.Next(w, step))
  {
    var w' := O.Next(w, step);
    forall id ensures OnlyScheduled(RowsOf(w'.tables, id)) { UntouchedStepAt(w, step, id); }
    forall c | c in w'.claims ensures c.id !in w'.tables.scheduled {
      UntouchedStepAt(w, step, c.id);
      if c in w.claims {
        assert O.CopyOf(c, w.accepted);
      } else {
        var id :| id in w'.tables.processing && w'.tables.processing[id] == c;
        assert O.Copies(RowsOf(w'.tables, id), id, w'.accepted);
      }
    }
  }

  /** In every run of any number of processors, a job in the schedule is nowhere else and nobody was ever handed it. */
  lemma {:induction false} ScheduledJobsAreUntouched(run: seq<O.Step>)
    requires O.IsRun(run)
    ensures ScheduledIsUntouched(O.After(run))
  {
    if run != [] {
      ScheduledJobsAreUntouched(run[..|run| - 1]);
      O.RunsAreSound(run[..|run| - 1]);
      O.RunsAreSound(run);
      UntouchedStep(O.After(run[..|run| - 1]), run[|run| - 1]);
    }
  }

  lemma MoveCommitsAt(s: System)
    requires O.Identity(s.world) && BatchIsCurrent(s) && s.scheduledBatch != []
    requires OnlyScheduled(RowsIn(s, s.scheduledBatch[0].id))
    ensures Commits(s, MoveNext(true))
  {
    hide O.Identity;
    RowsAfterAction(s, MoveNext(true), s.scheduledBatch[0].id);
  }

  /** So the mover's next transaction commits, unless the storage refuses it. */
  lemma MoveCommits(run: seq<Action>)
    requires IsRun(run) && After(run).scheduledBatch != []
    ensures Commits(After(run), MoveNext(true))
  {
    hide After, Next, Commits, OnlyScheduled, O.Identity, O.Next;
    BatchesAreCurrent(run);
    Refinement.RunsRefineTheOpenRegime(run);
    Refinement.EveryRunIsSound(run);
    ScheduledJobsAreUntouched(Refinement.StepsOf(run));
    MoveCommitsAt(After(run));
  }
}
