/** One processor with its goroutines: any number of workers, one scheduled mover, one retry mover, one
    orphan checker and one heartbeat emitter, each with the state it holds between storage calls.
    Web callers and submitters come from outside. Every storage call and every transaction is one action;
    between any two actions of a goroutine any other goroutine may run, and any transaction may be
    refused by the storage. Shutdown stops the emitter and then the checker while workers go on; Restart
    ends the process at any moment and starts a new one. */
module SingleProcessor {
  import opened Jobs
  import opened Storage
  import opened JobRows
  import L = Lifecycle
  import O = OpenRegime

  const HEARTBEAT_TICKER: int := 3 * SECOND
  const ORPHAN_AGE: int := 3 * HEARTBEAT_TICKER
  /** The longest a worker takes from stamping StartedAt to processingJobs.Set. */
  const REGISTER_GAP: int := 3 * SECOND

  datatype Worker =
    | Claimed(job: ProcessingJob)  // dequeue has committed, processingJobs.Set has not run
    | Working(job: ProcessingJob)  // in processingJobs; the handler or complete is next
    | Failing(job: ProcessingJob)  // complete was refused; fail is next
    | Leaving(id: JobId)           // only the deferred processingJobs.Delete is left

  datatype System = System(
    world: O.World,
    now: Time,
    workers: map<nat, Worker>,
    /** processingJobs */
    inFlight: map<JobId, ProcessingJob>,
    scheduledBatch: seq<ScheduledJob>,
    failedBatch: seq<FailedJob>,
    orphanBatch: seq<ProcessingJob>,
    /** the orphan checker returned after a refused fail */
    orphanLoopDone: bool,
    /** when the emitter last began to walk processingJobs, and what it has still to visit */
    roundStart: Time,
    toBeat: set<JobId>,
    /** the emitter has seen the shutdown: it begins no more walks */
    emitterDone: bool)

  datatype Action =
    | Pass(d: nat)
    | Submit(job: ScheduledJob, checkedAt: Time, stampedAt: Time)
    | Web(id: JobId)
    | ReadScheduled(batch: seq<ScheduledJob>)
    | MoveNext(ok: bool)
    | ReadFailed(due: seq<FailedJob>)
    | RetryNext(ok: bool)
    | ReadOrphans(asOf: Time, stale: seq<ProcessingJob>)
    | OrphanNext(ok: bool)
    | Claim(worker: nat, queue: string, id: JobId)
    | Register(worker: nat)
    | CompleteJob(worker: nat, ok: bool)
    | FailJob(worker: nat, error: string, ok: bool)
    | Unregister(worker: nat)
    | StartRound
    | Beat(id: JobId)
    | Shutdown
    | Restart

  const ORPHAN_ERROR := "{\"message\":\"orphan job\"}"

  const START := System(O.START, 0, map[], map[], [], [], [], false, 0, {}, false)

  predicate Live(worker: Worker) {
    !worker.Leaving?
  }

  predicate Holds(s: System, worker: nat) {
    worker in s.workers && Live(s.workers[worker])
  }

  /** The orphan checker may begin a round: it returns after a refused fail, and in a shutdown it
      begins none later than one heartbeat period after the emitter's last walk began. */
  predicate CheckerRuns(s: System) {
    !s.orphanLoopDone && s.now <= s.roundStart + HEARTBEAT_TICKER
  }

  ghost predicate Enabled(s: System, a: Action) {
    var t := s.world.tables;
    match a
    case Pass(d) =>
      s.emitterDone
      || (&& s.now + d <= s.roundStart + HEARTBEAT_TICKER
          && (forall w :: w in s.workers && s.workers[w].Claimed? ==>
                s.now + d <= s.workers[w].job.phase.startedAt + REGISTER_GAP))
    case Submit(job, checkedAt, stampedAt) =>
      job.id !in s.world.accepted && job.scheduledAt <= checkedAt <= stampedAt <= s.now
    case Web(_) => true
    case ReadScheduled(batch) =>
      s.scheduledBatch == [] && Lists(batch, t.scheduled, (j: ScheduledJob) => j.phase.enqueueAt <= s.now)
    case MoveNext(_) => s.scheduledBatch != []
    case ReadFailed(due) =>
      s.failedBatch == [] && Lists(due, t.failed, (j: FailedJob) => j.phase.nextRetryAt <= s.now)
    case RetryNext(_) => s.failedBatch != []
    case ReadOrphans(asOf, stale) =>
      && s.orphanBatch == [] && CheckerRuns(s) && asOf <= s.now
      && Lists(stale, t.processing, (j: ProcessingJob) => StaleRow(t, j.id, asOf - ORPHAN_AGE))
    case OrphanNext(_) => s.orphanBatch != []
    case Claim(worker, queue, id) => worker !in s.workers && IsOldest(t.enqueued, queue, id)
    case Register(worker) => worker in s.workers && s.workers[worker].Claimed? && s.toBeat == {}
    case CompleteJob(worker, _) => worker in s.workers && s.workers[worker].Working?
    case FailJob(worker, _, _) => worker in s.workers && (s.workers[worker].Working? || s.workers[worker].Failing?)
    case Unregister(worker) => worker in s.workers && s.workers[worker].Leaving? && s.toBeat == {}
    case StartRound => s.toBeat == {} && !s.emitterDone
    case Beat(id) => id in s.toBeat
    case Shutdown => true
    case Restart => true
  }

  /** The storage step the action performs, if any. */
  function StepOf(s: System, a: Action): Option<O.Step> {
    match a
    case Submit(job, checkedAt, stampedAt) => Some(O.Accept(job, checkedAt, stampedAt, s.now))
    case Web(id) => Some(O.WebRetry(id, s.now))
    case MoveNext(ok) =>
      if s.scheduledBatch == [] then None
      else Some(if ok then O.MoveScheduled(s.scheduledBatch[0], s.now) else O.StorageFault)
    case RetryNext(ok) =>
      if s.failedBatch == [] then None
      else Some(if ok then O.Retry(s.failedBatch[0].id, s.now) else O.StorageFault)
    case OrphanNext(ok) =>
      if s.orphanBatch == [] then None
      else Some(if ok then O.Fail(s.orphanBatch[0], ORPHAN_ERROR, s.now) else O.StorageFault)
    case Claim(_, queue, id) => Some(O.Dequeue(queue, id, s.now))
    case CompleteJob(worker, ok) =>
      if !Holds(s, worker) then None
      else Some(if ok then O.Complete(s.workers[worker].job, s.now) else O.StorageFault)
    case FailJob(worker, error, ok) =>
      if !Holds(s, worker) then None
      else Some(if ok then O.Fail(s.workers[worker].job, error, s.now) else O.StorageFault)
    case Beat(id) => Some(O.Heartbeat(id, s.now))
    case _ => None
  }

  function NextWorld(s: System, a: Action): O.World {
    match StepOf(s, a)
    case Some(step) => O.Next(s.world, step)
    case None => s.world
  }

  predicate Commits(s: System, a: Action) {
    StepOf(s, a).Some? && O.Body(s.world.tables, StepOf(s, a).value).Ok?
  }

  function NextWorkers(s: System, a: Action): map<nat, Worker> {
    match a
    case Claim(worker, _, id) =>
      if Commits(s, a) && id in s.world.tables.enqueued
      then s.workers[worker := Claimed(L.ToProcessing(s.world.tables.enqueued[id], s.now))] else s.workers
    case Register(worker) => if Holds(s, worker) then s.workers[worker := Working(s.workers[worker].job)] else s.workers
    case CompleteJob(worker, _) =>
      if !Holds(s, worker) then s.workers
      else if Commits(s, a) then s.workers[worker := Leaving(s.workers[worker].job.id)]
      else s.workers[worker := Failing(s.workers[worker].job)]
    // processJob only logs a refused fail: the row is left behind
    case FailJob(worker, _, _) =>
      if Holds(s, worker) then s.workers[worker := Leaving(s.workers[worker].job.id)] else s.workers
    case Unregister(worker) => s.workers - {worker}
    case Restart => map[]
    case _ => s.workers
  }

  function NextInFlight(s: System, a: Action): map<JobId, ProcessingJob> {
    match a
    case Register(worker) =>
      if Holds(s, worker) then s.inFlight[s.workers[worker].job.id := s.workers[worker].job] else s.inFlight
    case Unregister(worker) =>
      if worker in s.workers && s.workers[worker].Leaving? then s.inFlight - {s.workers[worker].id} else s.inFlight
    case Restart => map[]
    case _ => s.inFlight
  }

  /** A refused transaction ends the mover's batch. */
  function Advance<T>(batch: seq<T>, committed: bool): seq<T> {
    if batch != [] && committed then batch[1..] else []
  }

  function Next(s: System, a: Action): System {
    System(
      NextWorld(s, a),
      if a.Pass? then s.now + a.d else s.now,
      NextWorkers(s, a),
      NextInFlight(s, a),
      match a { case ReadScheduled(batch) => batch case MoveNext(_) => Advance(s.scheduledBatch, Commits(s, a))
                case Restart => [] case _ => s.scheduledBatch },
      match a { case ReadFailed(due) => due case RetryNext(_) => Advance(s.failedBatch, Commits(s, a))
                case Restart => [] case _ => s.failedBatch },
      match a { case ReadOrphans(_, stale) => stale case OrphanNext(_) => Advance(s.orphanBatch, Commits(s, a))
                case Restart => [] case _ => s.orphanBatch },
      match a { case OrphanNext(_) => s.orphanLoopDone || !Commits(s, a) case Restart => false
                case _ => s.orphanLoopDone },
      if a.StartRound? || a.Restart? then s.now else s.roundStart,
      match a { case StartRound => s.inFlight.Keys case Beat(id) => s.toBeat - {id}
                case Restart => {} case _ => s.toBeat },
      if a.Shutdown? then true else if a.Restart? then false else s.emitterDone)
  }

  function After(run: seq<Action>): System {
    if run == [] then START else Next(After(run[..|run| - 1]), run[|run| - 1])
  }

  ghost predicate IsRun(run: seq<Action>) {
    run != [] ==> IsRun(run[..|run| - 1]) && Enabled(After(run[..|run| - 1]), run[|run| - 1])
  }

  // ---- one job ----

  function RowsIn(s: System, id: JobId): Rows {
    RowsOf(s.world.tables, id)
  }

  lemma RowsAfterAction(s: System, a: Action, id: JobId)
    requires O.Identity(s.world)
    ensures RowsOf(NextWorld(s, a).tables, id) ==
      if StepOf(s, a).Some? && O.Subject(StepOf(s, a).value) == Some(id)
      then O.RowsNext(RowsIn(s, id), StepOf(s, a).value) else RowsIn(s, id)
    ensures StepOf(s, a).Some? && O.Subject(StepOf(s, a).value) == Some(id) ==>
      (Commits(s, a) <==> O.RowStep(RowsIn(s, id), StepOf(s, a).value).Some?)
  {
    O.IdentityMeansKeyed(s.world);
    if StepOf(s, a).Some? {
      O.StepRows(s.world, StepOf(s, a).value, id);
    }
  }

  // ---- runs put together ----

  ghost predicate Reaches(run: seq<Action>, s: System) {
    IsRun(run) && After(run) == s
  }

  lemma Then(run: seq<Action>, s: System, a: Action, s': System)
    requires Reaches(run, s) && Enabled(s, a) && Next(s, a) == s'
    ensures Reaches(run + [a], s')
  {
    var longer := run + [a];
    assert longer[..|longer| - 1] == run && longer[|longer| - 1] == a;
    assert After(longer) == Next(After(run), a);
  }
}
