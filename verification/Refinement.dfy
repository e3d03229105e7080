/** Every run of the single processor, orderly or not, is a run of the open regime; so no run loses a
    job, changes one, or gives one up early. */
module Refinement {
  import opened Jobs
  import opened Storage
  import opened JobRows
  import L = Lifecycle
  import O = OpenRegime
  import opened SingleProcessor

  /** The storage steps of a run, in order. */
  function StepsOf(run: seq<Action>): seq<O.Step> {
    if run == [] then [] else
      var before, a := run[..|run| - 1], run[|run| - 1];
      match StepOf(After(before), a)
      case Some(step) => StepsOf(before) + [step]
      case None => StepsOf(before)
  }

  /** The copies that goroutines hold were read from the tables. */
  ghost predicate CopiesWereRead(s: System) {
    && (forall w :: Holds(s, w) ==> s.workers[w].job in s.world.claims)
    && (forall b :: b in s.scheduledBatch ==> b in s.world.snapshots)
    && (forall b :: b in s.orphanBatch ==> b in s.world.claims)
    && s.world.tables.scheduled.Values <= s.world.snapshots
    && s.world.tables.processing.Values <= s.world.claims
  }

  lemma ClaimIsRead(s: System, a: Action)
    requires a.Claim? && Enabled(s, a) && Commits(s, a)
    ensures L.ToProcessing(s.world.tables.enqueued[a.id], s.now) in NextWorld(s, a).claims
  {
    var job := L.ToProcessing(s.world.tables.enqueued[a.id], s.now);
    var t' := NextWorld(s, a).tables;
    assert t'.processing[job.id] == job;
  }

  lemma HistoryGrows(w: O.World, step: O.Step)
    ensures var w' := O.Next(w, step);
      && w.snapshots <= w'.snapshots && w.claims <= w'.claims
      && w'.tables.scheduled.Values <= w'.snapshots && w'.tables.processing.Values <= w'.claims
  {
  }

  lemma HistoryAfter(s: System, a: Action)
    requires CopiesWereRead(s)
    ensures var w' := NextWorld(s, a);
      && s.world.snapshots <= w'.snapshots && s.world.claims <= w'.claims
      && w'.tables.scheduled.Values <= w'.snapshots && w'.tables.processing.Values <= w'.claims
  {
    if StepOf(s, a).Some? {
      HistoryGrows(s.world, StepOf(s, a).value);
    }
  }

  lemma BatchesRead(s: System, a: Action)
    requires CopiesWereRead(s) && Enabled(s, a)
    ensures forall b :: b in Next(s, a).scheduledBatch ==> b in s.world.snapshots
    ensures forall b :: b in Next(s, a).orphanBatch ==> b in s.world.claims
  {
    var t := s.world.tables;
    forall b | b in Next(s, a).scheduledBatch ensures b in s.world.snapshots {
      if a.ReadScheduled? { assert b.id in t.scheduled && t.scheduled[b.id] == b; }
    }
    forall b | b in Next(s, a).orphanBatch ensures b in s.world.claims {
      if a.ReadOrphans? { assert b.id in t.processing && t.processing[b.id] == b; }
    }
  }

  lemma CopiesStep(s: System, a: Action)
    requires CopiesWereRead(s) && Enabled(s, a)
    ensures CopiesWereRead(Next(s, a))
  {
    HistoryAfter(s, a);
    BatchesRead(s, a);
    var s' := Next(s, a);
    forall w | Holds(s', w) ensures s'.workers[w].job in s'.world.claims {
      if a.Claim? && Commits(s, a) { ClaimIsRead(s, a); }
      HeldBefore(s, a, w);
    }
  }

  lemma HeldBefore(s: System, a: Action, w: nat)
    requires Enabled(s, a) && Holds(Next(s, a), w)
    ensures (Holds(s, w) && Next(s, a).workers[w].job == s.workers[w].job)
         || (a.Claim? && Commits(s, a) && Next(s, a).workers[w].job == L.ToProcessing(s.world.tables.enqueued[a.id], s.now))
  {
  }

  lemma StepIsOpen(s: System, a: Action)
    requires CopiesWereRead(s) && Enabled(s, a) && StepOf(s, a).Some?
    ensures O.Enabled(s.world, StepOf(s, a).value)
  {
    match a {
      case CompleteJob(worker, ok) => assert Holds(s, worker);
      case FailJob(worker, error, ok) => assert Holds(s, worker);
      case MoveNext(ok) => assert s.scheduledBatch[0] in s.scheduledBatch;
      case OrphanNext(ok) => assert s.orphanBatch[0] in s.orphanBatch;
      case _ =>
    }
  }

  /** The processor's tables, after any run, are those of an open run. */
  lemma {:induction false} RunsRefineTheOpenRegime(run: seq<Action>)
    requires IsRun(run)
    ensures CopiesWereRead(After(run))
    ensures O.IsRun(StepsOf(run)) && O.After(StepsOf(run)) == After(run).world
  {
    if run != [] {
      var before, a := run[..|run| - 1], run[|run| - 1];
      RunsRefineTheOpenRegime(before);
      CopiesStep(After(before), a);
      if StepOf(After(before), a).Some? {
        StepIsOpen(After(before), a);
        assert StepsOf(run)[..|StepsOf(run)| - 1] == StepsOf(before);
      }
    }
  }

  /** Even with a late Delete, no job is lost, no copy differs from the accepted job, and retry counts stay in range. */
  lemma EveryRunIsSound(run: seq<Action>)
    requires IsRun(run)
    ensures O.Sound(After(run).world)
  {
    RunsRefineTheOpenRegime(run);
    O.RunsAreSound(StepsOf(run));
  }
}
