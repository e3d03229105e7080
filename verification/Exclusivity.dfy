/** Safety of the single processor: every accepted job is in exactly one place, a live worker's row is
    its own, and the orphan checker only ever sees rows whose worker is gone. */
module Exclusivity {
  import opened Jobs
  import opened Storage
  import opened JobRows
  import L = Lifecycle
  import O = OpenRegime
  import opened SingleProcessor
  import Mover

  /** In how many of the five tables and the discarded jobs the job is. */
  function Places(r: Rows, discarded: bool): nat {
    One(r.scheduled.Some?) + One(r.enqueued.Some?) + One(r.processing.Some?)
    + One(r.processed.Some?) + One(r.failed.Some?) + One(discarded)
  }

  ghost predicate Exclusive(w: O.World) {
    forall id :: Places(RowsOf(w.tables, id), id in w.discarded) == One(id in w.accepted)
  }

  /** The copy of the record that the step works from is the record in the table. */
  predicate Backed(r: Rows, step: O.Step) {
    && (step.MoveScheduled? ==> r.scheduled == Some(step.snapshot))
    && (step.Complete? || step.Fail? ==> r.processing == Some(step.held))
    && (step.Dequeue? ==> r.enqueued.Some?)
  }

  ghost predicate BackedIn(w: O.World, step: O.Step) {
    O.Subject(step).Some? ==> Backed(RowsOf(w.tables, O.Subject(step).value), step)
  }

  lemma PlacesStep(r: Rows, step: O.Step, discarded: bool)
    requires Backed(r, step)
    requires Places(r, discarded) <= 1 && (step.Accept? ==> Places(r, discarded) == 0)
    ensures Places(O.RowsNext(r, step), discarded || (step.Fail? && L.Exhausted(step.held)))
         == if step.Accept? then 1 else Places(r, discarded)
  {
  }

  lemma ExclusiveStep(w: O.World, step: O.Step)
    requires O.Identity(w) && Exclusive(w) && O.Enabled(w, step) && BackedIn(w, step)
    ensures Exclusive(O.Next(w, step))
  {
    var w' := O.Next(w, step);
    O.IdentityMeansKeyed(w);
    forall id ensures Places(RowsOf(w'.tables, id), id in w'.discarded) == One(id in w'.accepted) {
      O.StepRows(w, step, id);
      assert Places(RowsOf(w.tables, id), id in w.discarded) == One(id in w.accepted);
      if O.Subject(step) == Some(id) {
        PlacesStep(RowsOf(w.tables, id), step, id in w.discarded);
      }
    }
  }

  // ---- the invariant ----

  function JobOf(s: System, worker: nat): ProcessingJob
    requires Holds(s, worker)
  {
    s.workers[worker].job
  }

  /** The deferred processingJobs.Delete(id) of `worker` is still to come. */
  predicate SharesEntry(s: System, worker: nat, id: JobId) {
    worker in s.workers && s.workers[worker].Leaving? && s.workers[worker].id == id
  }

  /** A live worker's job is the row in processing, and no two live workers share one. */
  ghost predicate WorkersOwnTheirRows(s: System) {
    && (forall w :: Holds(s, w) ==> RowsIn(s, JobOf(s, w).id).processing == Some(JobOf(s, w)))
    && (forall v, w :: Holds(s, v) && Holds(s, w) && v != w ==> JobOf(s, v).id != JobOf(s, w).id)
  }

  /** From processingJobs.Set until the worker is done, the emitter can see its job. */
  ghost predicate WorkersAreVisible(s: System) {
    && (forall w :: Holds(s, w) && !s.workers[w].Claimed? ==> JobOf(s, w).id in s.inFlight)
    && (forall v, w :: Holds(s, w) && !s.workers[w].Claimed? ==> !SharesEntry(s, v, JobOf(s, w).id))
  }

  /** What the movers still have to do is still there to be done. */
  ghost predicate BatchesAreCurrent(s: System) {
    && Mover.BatchIsCurrent(s)
    && (forall i :: 0 <= i < |s.orphanBatch| ==>
          RowsIn(s, s.orphanBatch[i].id).processing == Some(s.orphanBatch[i]))
    && (forall i, j :: 0 <= i < j < |s.orphanBatch| ==> s.orphanBatch[i].id != s.orphanBatch[j].id)
    && (forall i, w :: 0 <= i < |s.orphanBatch| && Holds(s, w) ==> JobOf(s, w).id != s.orphanBatch[i].id)
  }

  /** How far back the stored heartbeat of a live worker's row may be. */
  predicate FreshBeat(claimed: bool, startedAt: Time, waiting: bool, heartbeat: Option<Time>, now: Time, roundStart: Time) {
    && heartbeat.Some?
    && if claimed then startedAt <= heartbeat.value && startedAt <= now <= startedAt + REGISTER_GAP
       else if waiting then roundStart - REGISTER_GAP - HEARTBEAT_TICKER <= heartbeat.value
       else roundStart - REGISTER_GAP <= heartbeat.value
  }

  predicate Fresh(s: System, worker: nat)
    requires Holds(s, worker)
  {
    var job := JobOf(s, worker);
    FreshBeat(s.workers[worker].Claimed?, job.phase.startedAt, job.id in s.toBeat,
              RowsIn(s, job.id).heartbeat, s.now, s.roundStart)
  }

  ghost predicate RoundIsOnTime(s: System) {
    s.roundStart <= s.now && (s.emitterDone || s.now <= s.roundStart + HEARTBEAT_TICKER)
  }

  /** The live workers can be seen, and their heartbeats are recent. */
  ghost predicate LiveJobsAreSeen(s: System) {
    WorkersAreVisible(s) && forall w :: Holds(s, w) ==> Fresh(s, w)
  }

  /** In a shutdown the live workers' heartbeats stay where the last walk has left them. */
  ghost predicate BeatsAreRecent(s: System) {
    forall w :: Holds(s, w) ==>
      var heartbeat := RowsIn(s, JobOf(s, w).id).heartbeat;
      heartbeat.Some? && s.roundStart - REGISTER_GAP - HEARTBEAT_TICKER <= heartbeat.value
  }

  /** Every accepted job is in one place, and everybody works from the record in the table. */
  ghost predicate Core(s: System) {
    O.Identity(s.world) && Exclusive(s.world) && WorkersOwnTheirRows(s) && BatchesAreCurrent(s)
  }

  /** As long as the orphan checker runs, the live jobs are seen, or were when the shutdown began. */
  ghost predicate Inv(s: System) {
    && Core(s) && RoundIsOnTime(s)
    && if s.orphanLoopDone then s.orphanBatch == []
       else if s.emitterDone then BeatsAreRecent(s)
       else LiveJobsAreSeen(s)
  }

  /** No worker registers a job while another worker's deferred processingJobs.Delete (process.go:336)
      for the same job is still to come, unless the emitter or the orphan checker has stopped for good. */
  ghost predicate Orderly(s: System, a: Action) {
    a.Register? && Holds(s, a.worker) && !s.orphanLoopDone && !s.emitterDone ==>
      forall v :: !SharesEntry(s, v, JobOf(s, a.worker).id)
  }

  ghost predicate IsOrderlyRun(run: seq<Action>) {
    run != [] ==>
      && IsOrderlyRun(run[..|run| - 1])
      && Enabled(After(run[..|run| - 1]), run[|run| - 1])
      && Orderly(After(run[..|run| - 1]), run[|run| - 1])
  }

  // ---- one step ----

  /** Every storage step of the processor is a step of the open regime that works from the table's own record. */
  lemma ActionIsOpenStep(s: System, a: Action)
    requires Core(s) && Enabled(s, a) && StepOf(s, a).Some?
    ensures O.Enabled(s.world, StepOf(s, a).value) && BackedIn(s.world, StepOf(s, a).value)
  {
    var w := s.world;
    match a {
      case MoveNext(ok) =>
        assert RowsIn(s, s.scheduledBatch[0].id).scheduled == Some(s.scheduledBatch[0]);
        assert s.scheduledBatch[0] in w.tables.scheduled.Values;
      case OrphanNext(ok) =>
        assert RowsIn(s, s.orphanBatch[0].id).processing == Some(s.orphanBatch[0]);
        assert s.orphanBatch[0] in w.tables.processing.Values;
      case CompleteJob(worker, ok) =>
        assert Holds(s, worker);
        assert JobOf(s, worker) in w.tables.processing.Values;
      case FailJob(worker, error, ok) =>
        assert Holds(s, worker);
        assert JobOf(s, worker) in w.tables.processing.Values;
      case _ =>
    }
  }

  lemma WorldStep(s: System, a: Action)
    requires Core(s) && Enabled(s, a)
    ensures O.Identity(NextWorld(s, a)) && Exclusive(NextWorld(s, a))
  {
    if StepOf(s, a).Some? {
      var step := StepOf(s, a).value;
      ActionIsOpenStep(s, a);
      O.IdentityStep(s.world, step);
      ExclusiveStep(s.world, step);
    }
  }

  /** The action ends the stay of `id` in processing. */
  predicate Ends(s: System, a: Action, id: JobId) {
    StepOf(s, a).Some? && (StepOf(s, a).value.Complete? || StepOf(s, a).value.Fail?) && StepOf(s, a).value.held.id == id
  }

  lemma ProcessingRowStep(r: Rows, step: O.Step)
    requires Backed(r, step) && r.processing.Some? && !step.Accept? && !step.Complete? && !step.Fail?
    requires Places(r, false) == 1
    ensures var r' := O.RowsNext(r, step);
      && r'.processing == r.processing
      && (r'.heartbeat == r.heartbeat || (step.Heartbeat? && r'.heartbeat == Some(step.now)))
  {
  }

  lemma ProcessingPersists(s: System, a: Action, id: JobId)
    requires Core(s) && Enabled(s, a) && RowsIn(s, id).processing.Some? && !Ends(s, a, id)
    ensures var r := RowsOf(NextWorld(s, a).tables, id);
      && r.processing == RowsIn(s, id).processing
      && (r.heartbeat == RowsIn(s, id).heartbeat || r.heartbeat == Some(s.now))
      && (a == Beat(id) ==> r.heartbeat == Some(s.now))
  {
    RowsAfterAction(s, a, id);
    assert Places(RowsIn(s, id), id in s.world.discarded) == One(id in s.world.accepted);
    if StepOf(s, a).Some? && O.Subject(StepOf(s, a).value) == Some(id) {
      ActionIsOpenStep(s, a);
      ProcessingRowStep(RowsIn(s, id), StepOf(s, a).value);
    }
  }

  lemma CompletionCommits(s: System, worker: nat)
    requires Core(s) && Enabled(s, CompleteJob(worker, true))
    ensures Commits(s, CompleteJob(worker, true))
  {
    assert Holds(s, worker);
    var id := JobOf(s, worker).id;
    RowsAfterAction(s, CompleteJob(worker, true), id);
    assert Places(RowsIn(s, id), id in s.world.discarded) == One(id in s.world.accepted);
  }

  lemma LiveJobKept(s: System, a: Action, w: nat)
    requires Enabled(s, a) && Holds(s, w) && Holds(Next(s, a), w)
    ensures JobOf(Next(s, a), w) == JobOf(s, w)
    ensures s.workers[w].Claimed? && !Next(s, a).workers[w].Claimed? ==> a == Register(w)
    ensures Next(s, a).workers[w].Claimed? ==> s.workers[w].Claimed?
  {
  }

  /** Nobody ends the stay in processing of a job whose worker stays live. */
  lemma LiveJobNotEnded(s: System, a: Action, w: nat)
    requires Core(s) && Enabled(s, a) && Holds(s, w) && Ends(s, a, JobOf(s, w).id)
    ensures !Holds(Next(s, a), w)
  {
    match a {
      case CompleteJob(worker, ok) =>
        assert Holds(s, worker) && ok;
        CompletionCommits(s, worker);
      case FailJob(worker, error, ok) =>
        assert Holds(s, worker);
      case _ =>
        assert false;
    }
  }

  /** A job is claimed only while nobody holds it. */
  lemma ClaimIsNew(s: System, a: Action, w: nat)
    requires Core(s) && Enabled(s, a) && !Holds(s, w) && Holds(Next(s, a), w)
    ensures a.Claim? && a.worker == w && Commits(s, a)
    ensures Next(s, a).workers[w].Claimed?
    ensures RowsIn(Next(s, a), a.id).processing == Some(JobOf(Next(s, a), w))
    ensures JobOf(Next(s, a), w).id == a.id && JobOf(Next(s, a), w).phase.startedAt == s.now
    ensures RowsIn(Next(s, a), a.id).heartbeat == Some(s.now)
    ensures RowsIn(s, a.id).processing == None
  {
    assert RowsIn(s, a.id).enqueued.Some?;
    RowsAfterAction(s, a, a.id);
    assert O.Copies(RowsIn(s, a.id), a.id, s.world.accepted);
    assert Places(RowsIn(s, a.id), a.id in s.world.discarded) == One(a.id in s.world.accepted);
  }

  lemma WorkersStep(s: System, a: Action)
    requires Core(s) && Enabled(s, a)
    ensures WorkersOwnTheirRows(Next(s, a))
  {
    var s' := Next(s, a);
    forall w | Holds(s', w) ensures RowsIn(s', JobOf(s', w).id).processing == Some(JobOf(s', w)) {
      if Holds(s, w) {
        LiveJobKept(s, a, w);
        if Ends(s, a, JobOf(s, w).id) { LiveJobNotEnded(s, a, w); }
        ProcessingPersists(s, a, JobOf(s, w).id);
      } else {
        ClaimIsNew(s, a, w);
      }
    }
    forall v, w | Holds(s', v) && Holds(s', w) && v != w ensures JobOf(s', v).id != JobOf(s', w).id {
      if Holds(s, v) { LiveJobKept(s, a, v); } else { ClaimIsNew(s, a, v); }
      if Holds(s, w) { LiveJobKept(s, a, w); } else { ClaimIsNew(s, a, w); }
    }
  }

  /** The deferred Delete of another worker never takes a live worker's entry. */
  lemma StaysVisible(s: System, a: Action, w: nat)
    requires Core(s) && WorkersAreVisible(s) && Enabled(s, a)
    requires a == Register(w) ==> forall v :: !SharesEntry(s, v, JobOf(s, w).id)
    requires Holds(Next(s, a), w) && !Next(s, a).workers[w].Claimed?
    ensures JobOf(Next(s, a), w).id in Next(s, a).inFlight
    ensures forall v :: !SharesEntry(Next(s, a), v, JobOf(Next(s, a), w).id)
  {
    if !Holds(s, w) { ClaimIsNew(s, a, w); assert false; }
    LiveJobKept(s, a, w);
    var id := JobOf(s, w).id;
    forall v ensures !SharesEntry(Next(s, a), v, id) {
      if SharesEntry(Next(s, a), v, id) && !SharesEntry(s, v, id) {
        NewlyLeaving(s, a, v);
      }
    }
    assert a.Unregister? ==> !SharesEntry(s, a.worker, id);
  }

  lemma NewlyLeaving(s: System, a: Action, v: nat)
    requires Enabled(s, a) && v in Next(s, a).workers && Next(s, a).workers[v].Leaving?
    requires !SharesEntry(s, v, Next(s, a).workers[v].id)
    ensures Holds(s, v) && JobOf(s, v).id == Next(s, a).workers[v].id
  {
  }

  // ---- the orphan checker's batch ----

  lemma FreshIsRecent(s: System)
    requires LiveJobsAreSeen(s) && RoundIsOnTime(s)
    ensures BeatsAreRecent(s)
  {
    forall w | Holds(s, w)
      ensures var heartbeat := RowsIn(s, JobOf(s, w).id).heartbeat;
        heartbeat.Some? && s.roundStart - REGISTER_GAP - HEARTBEAT_TICKER <= heartbeat.value
    {
      assert Fresh(s, w);
    }
  }

  /** A row that the orphan checker selects has no live worker. */
  lemma StaleMeansAbandoned(s: System, id: JobId, asOf: Time, w: nat)
    requires BeatsAreRecent(s) && CheckerRuns(s) && asOf <= s.now
    requires StaleRow(s.world.tables, id, asOf - ORPHAN_AGE) && Holds(s, w)
    ensures JobOf(s, w).id != id
  {
  }

  lemma OrphanNotEnded(s: System, a: Action, i: nat)
    requires Core(s) && Enabled(s, a) && i < |s.orphanBatch| && (a.OrphanNext? ==> i > 0)
    ensures !Ends(s, a, s.orphanBatch[i].id)
  {
    hide O.Identity, Exclusive;
    if (a.CompleteJob? || a.FailJob?) && Holds(s, a.worker) {
      assert JobOf(s, a.worker).id != s.orphanBatch[i].id;
    }
  }

  lemma OrphanBatchStep(s: System, a: Action)
    requires Core(s) && Enabled(s, a)
    ensures var s' := Next(s, a);
      && (forall i :: 0 <= i < |s'.orphanBatch| ==>
            RowsIn(s', s'.orphanBatch[i].id).processing == Some(s'.orphanBatch[i]))
      && (forall i, j :: 0 <= i < j < |s'.orphanBatch| ==> s'.orphanBatch[i].id != s'.orphanBatch[j].id)
  {
    var s' := Next(s, a);
    forall i | 0 <= i < |s'.orphanBatch|
      ensures RowsIn(s', s'.orphanBatch[i].id).processing == Some(s'.orphanBatch[i])
    {
      if !a.ReadOrphans? {
        var j := if a.OrphanNext? then i + 1 else i;
        assert s'.orphanBatch[i] == s.orphanBatch[j];
        OrphanNotEnded(s, a, j);
        ProcessingPersists(s, a, s.orphanBatch[j].id);
      }
    }
  }

  /** The checker selects no job that a worker holds. */
  ghost predicate SelectsAbandoned(s: System, a: Action) {
    a.ReadOrphans? ==> forall i, w :: 0 <= i < |a.stale| && Holds(s, w) ==> JobOf(s, w).id != a.stale[i].id
  }

  lemma OrphansHaveNoWorker(s: System, a: Action)
    requires Core(s) && Enabled(s, a) && SelectsAbandoned(s, a)
    ensures var s' := Next(s, a);
      forall i, w :: 0 <= i < |s'.orphanBatch| && Holds(s', w) ==> JobOf(s', w).id != s'.orphanBatch[i].id
  {
    var s' := Next(s, a);
    forall i, w | 0 <= i < |s'.orphanBatch| && Holds(s', w) ensures JobOf(s', w).id != s'.orphanBatch[i].id {
      if Holds(s, w) { LiveJobKept(s, a, w); } else { ClaimIsNew(s, a, w); }
      if !a.ReadOrphans? {
        var j := if a.OrphanNext? then i + 1 else i;
        assert s'.orphanBatch[i] == s.orphanBatch[j];
      }
    }
  }

  // ---- heartbeats ----

  lemma BeatKept(s: System, a: Action, w: nat, heartbeat: Option<Time>)
    requires Enabled(s, a) && RoundIsOnTime(s) && !s.emitterDone && Holds(s, w) && Fresh(s, w) && Holds(Next(s, a), w)
    requires !s.workers[w].Claimed? ==> JobOf(s, w).id in s.inFlight
    requires heartbeat == RowsIn(s, JobOf(s, w).id).heartbeat || heartbeat == Some(s.now)
    requires a == Beat(JobOf(s, w).id) ==> heartbeat == Some(s.now)
    ensures FreshBeat(Next(s, a).workers[w].Claimed?, JobOf(s, w).phase.startedAt, JobOf(s, w).id in Next(s, a).toBeat,
                      heartbeat, Next(s, a).now, Next(s, a).roundStart)
  {
    LiveJobKept(s, a, w);
  }

  lemma FreshStep(s: System, a: Action, w: nat)
    requires Core(s) && RoundIsOnTime(s) && !s.emitterDone && LiveJobsAreSeen(s) && Enabled(s, a) && Holds(Next(s, a), w)
    ensures Fresh(Next(s, a), w)
  {
    if Holds(s, w) {
      LiveJobKept(s, a, w);
      var id := JobOf(s, w).id;
      if Ends(s, a, id) { LiveJobNotEnded(s, a, w); }
      ProcessingPersists(s, a, id);
      BeatKept(s, a, w, RowsOf(NextWorld(s, a).tables, id).heartbeat);
    } else {
      ClaimIsNew(s, a, w);
    }
  }

  lemma CoreStep(s: System, a: Action)
    requires Core(s) && Enabled(s, a) && SelectsAbandoned(s, a)
    ensures Core(Next(s, a))
  {
    WorldStep(s, a);
    WorkersStep(s, a);
    Mover.BatchStep(s, a);
    OrphanBatchStep(s, a);
    OrphansHaveNoWorker(s, a);
  }

  lemma SeenStep(s: System, a: Action)
    requires Core(s) && RoundIsOnTime(s) && !s.emitterDone && LiveJobsAreSeen(s) && Enabled(s, a)
    requires a.Register? && Holds(s, a.worker) ==> forall v :: !SharesEntry(s, v, JobOf(s, a.worker).id)
    ensures LiveJobsAreSeen(Next(s, a))
  {
    var s' := Next(s, a);
    forall w | Holds(s', w) ensures Fresh(s', w) { FreshStep(s, a, w); }
    forall w | Holds(s', w) && !s'.workers[w].Claimed?
      ensures JobOf(s', w).id in s'.inFlight && forall v :: !SharesEntry(s', v, JobOf(s', w).id)
    {
      StaysVisible(s, a, w);
    }
  }

  lemma SelectionIsAbandoned(s: System, a: Action)
    requires Inv(s) && Enabled(s, a)
    ensures SelectsAbandoned(s, a)
  {
    if a.ReadOrphans? {
      if !s.emitterDone { FreshIsRecent(s); }
      forall i, w | 0 <= i < |a.stale| && Holds(s, w) ensures JobOf(s, w).id != a.stale[i].id {
        StaleMeansAbandoned(s, a.stale[i].id, a.asOf, w);
      }
    }
  }

  lemma RecentStep(s: System, a: Action)
    requires Core(s) && RoundIsOnTime(s) && s.emitterDone && BeatsAreRecent(s) && Enabled(s, a) && a != Restart
    ensures BeatsAreRecent(Next(s, a))
  {
    var s' := Next(s, a);
    forall w | Holds(s', w)
      ensures var heartbeat := RowsIn(s', JobOf(s', w).id).heartbeat;
        heartbeat.Some? && s'.roundStart - REGISTER_GAP - HEARTBEAT_TICKER <= heartbeat.value
    {
      if Holds(s, w) {
        LiveJobKept(s, a, w);
        if Ends(s, a, JobOf(s, w).id) { LiveJobNotEnded(s, a, w); }
        ProcessingPersists(s, a, JobOf(s, w).id);
      } else {
        ClaimIsNew(s, a, w);
      }
    }
  }

  /** Once the checker has returned, only a restart brings it back, and a restart ends all workers. */
  lemma CheckerStaysAway(s: System, a: Action)
    requires Enabled(s, a) && s.orphanLoopDone && s.orphanBatch == []
    ensures var s' := Next(s, a);
      if s'.orphanLoopDone then s'.orphanBatch == [] else !s'.emitterDone && LiveJobsAreSeen(s')
  {
  }

  lemma RefusalEndsBatch(s: System, a: Action)
    requires Enabled(s, a) && !s.orphanLoopDone && Next(s, a).orphanLoopDone
    ensures Next(s, a).orphanBatch == []
  {
  }

  lemma InvStep(s: System, a: Action)
    requires Inv(s) && Enabled(s, a) && Orderly(s, a)
    ensures Inv(Next(s, a))
  {
    SelectionIsAbandoned(s, a);
    CoreStep(s, a);
    if s.orphanLoopDone {
      CheckerStaysAway(s, a);
    } else if Next(s, a).orphanLoopDone {
      RefusalEndsBatch(s, a);
    } else if a == Restart {
      RestartEndsWorkers(s);
    } else if s.emitterDone {
      RecentStep(s, a);
    } else {
      SeenStep(s, a);
      if a == Shutdown { FreshIsRecent(Next(s, a)); }
    }
  }

  lemma RestartEndsWorkers(s: System)
    ensures !Next(s, Restart).emitterDone && LiveJobsAreSeen(Next(s, Restart))
  {
  }

  // ---- whole runs ----

  lemma {:induction false} OrderlyRunsAreSafe(run: seq<Action>)
    requires IsOrderlyRun(run)
    ensures IsRun(run) && Inv(After(run))
  {
    if run != [] {
      OrderlyRunsAreSafe(run[..|run| - 1]);
      InvStep(After(run[..|run| - 1]), run[|run| - 1]);
    }
  }

  lemma TwoSets<T>(a: set<T>, b: set<T>)
    requires forall x :: x in a ==> x !in b
    ensures |a + b| == |a| + |b|
  {
    assert a !! b;
  }

  lemma ThreeSets<T(!new)>(a: set<T>, b: set<T>, c: set<T>, all: set<T>)
    requires forall x :: One(x in a) + One(x in b) + One(x in c) == One(x in all)
    ensures |a| + |b| + |c| == |all|
  {
    TwoSets(a, b);
    TwoSets(a + b, c);
    assert all == a + b + c;
  }

  lemma SixSets<T(!new)>(a: set<T>, b: set<T>, c: set<T>, d: set<T>, e: set<T>, f: set<T>, all: set<T>)
    requires forall x :: One(x in a) + One(x in b) + One(x in c) + One(x in d) + One(x in e) + One(x in f) == One(x in all)
    ensures |a| + |b| + |c| + |d| + |e| + |f| == |all|
  {
    var first := set x | x in all && (x in a || x in b || x in c);
    ThreeSets(a, b, c, first);
    ThreeSets(d, e, f, all - first);
    TwoSets(first, all - first);
    assert first + (all - first) == all;
  }

  /** Every accepted job is in exactly one of the five tables or was discarded, so the five Counts
      and the discarded jobs add up to the number of accepted jobs. */
  lemma CountsAddUp(run: seq<Action>)
    requires IsOrderlyRun(run)
    ensures var w := After(run).world; var t := w.tables;
      |t.scheduled| + |t.enqueued| + |t.processing| + |t.processed| + |t.failed| + |w.discarded| == |w.accepted|
  {
    OrderlyRunsAreSafe(run);
    var w := After(run).world;
    var t := w.tables;
    forall id ensures One(id in t.scheduled.Keys) + One(id in t.enqueued.Keys) + One(id in t.processing.Keys)
        + One(id in t.processed.Keys) + One(id in t.failed.Keys) + One(id in w.discarded) == One(id in w.accepted.Keys) {
      assert Places(RowsOf(t, id), id in w.discarded) == One(id in w.accepted);
    }
    SixSets(t.scheduled.Keys, t.enqueued.Keys, t.processing.Keys, t.processed.Keys, t.failed.Keys,
            w.discarded, w.accepted.Keys);
  }

  /** As long as the checker begins rounds, the row of a job that a worker holds never looks orphaned, whenever
      the checker took its cutoff; and such a job is never in the checker's hands. */
  lemma LiveJobsAreNeverOrphaned(run: seq<Action>, worker: nat, asOf: Time)
    requires IsOrderlyRun(run) && Holds(After(run), worker) && asOf <= After(run).now
    ensures CheckerRuns(After(run)) ==>
      !StaleRow(After(run).world.tables, JobOf(After(run), worker).id, asOf - ORPHAN_AGE)
    ensures forall job :: job in After(run).orphanBatch ==> job.id != JobOf(After(run), worker).id
  {
    OrderlyRunsAreSafe(run);
    var s := After(run);
    if CheckerRuns(s) {
      if !s.emitterDone { FreshIsRecent(s); }
      if StaleRow(s.world.tables, JobOf(s, worker).id, asOf - ORPHAN_AGE) {
        StaleMeansAbandoned(s, JobOf(s, worker).id, asOf, worker);
      }
    }
  }
}
