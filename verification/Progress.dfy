/** A job only moves forward: each of its moves costs rank, so it makes at most sixty of them and
    starts at most twenty times. */
module Progress {
  import opened Jobs
  import opened Storage
  import opened JobRows
  import L = Lifecycle
  import O = OpenRegime
  import opened SingleProcessor
  import opened Exclusivity
  import opened Disorder
  import opened Ways
  import A = Attempts
  import Mover
  import Refinement

  datatype Place =
    | Nowhere
    | InSchedule
    | InQueue(retryCount: int)
    | InProcessing(retryCount: int)
    | InFailed(retryCount: int)
    | Processed
    | Discarded

  function PlaceOf(r: Rows, discarded: bool): Place {
    if r.processed.Some? then Processed
    else if r.scheduled.Some? then InSchedule
    else if r.enqueued.Some? then InQueue(r.enqueued.value.phase.retryCount)
    else if r.processing.Some? then InProcessing(r.processing.value.phase.retryCount)
    else if r.failed.Some? then InFailed(r.failed.value.phase.retryCount)
    else if discarded then Discarded
    else Nowhere
  }

  function PlaceIn(s: System, id: JobId): Place {
    PlaceOf(RowsIn(s, id), id in s.world.discarded)
  }

  /** The arrows of the job lifecycle. */
  predicate Arrow(p: Place, q: Place) {
    match p
    case Nowhere => q == InSchedule || q == InQueue(0)
    case InSchedule => q == InQueue(0)
    case InQueue(k) => q == InProcessing(k)
    case InProcessing(k) => q == Processed || q == if k < L.DEFAULT_MAX_RETRY_COUNT then InFailed(k + 1) else Discarded
    case InFailed(k) => q == InQueue(k)
    case Processed => false
    case Discarded => false
  }

  predicate InRange(r: Rows) {
    && (r.enqueued.Some? ==> 0 <= r.enqueued.value.phase.retryCount <= L.DEFAULT_MAX_RETRY_COUNT)
    && (r.processing.Some? ==> 0 <= r.processing.value.phase.retryCount <= L.DEFAULT_MAX_RETRY_COUNT)
    && (r.failed.Some? ==> 1 <= r.failed.value.phase.retryCount <= L.DEFAULT_MAX_RETRY_COUNT)
  }

  lemma RowArrow(r: Rows, step: O.Step, discarded: bool)
    requires Backed(r, step) && InRange(r)
    requires Places(r, discarded) <= 1 && (step.Accept? ==> Places(r, discarded) == 0)
    ensures var p, q := PlaceOf(r, discarded), PlaceOf(O.RowsNext(r, step), discarded || (step.Fail? && L.Exhausted(step.held)));
      p == q || Arrow(p, q)
  {
  }

  /** The action performs this step on the job. */
  predicate About(s: System, a: Action, id: JobId) {
    StepOf(s, a).Some? && O.Subject(StepOf(s, a).value) == Some(id)
  }

  lemma PlaceAfter(s: System, a: Action, id: JobId)
    requires Core(s) && Enabled(s, a)
    ensures PlaceIn(Next(s, a), id) ==
      if About(s, a, id) then
        PlaceOf(O.RowsNext(RowsIn(s, id), StepOf(s, a).value),
                id in s.world.discarded || (StepOf(s, a).value.Fail? && L.Exhausted(StepOf(s, a).value.held)))
      else PlaceIn(s, id)
    ensures About(s, a, id) ==>
      && Backed(RowsIn(s, id), StepOf(s, a).value)
      && Places(RowsIn(s, id), id in s.world.discarded) == One(id in s.world.accepted)
      && (StepOf(s, a).value.Accept? ==> id !in s.world.accepted)
  {
    hide PlaceOf, O.RowsNext, O.RowStep, O.Identity, Mover.BatchIsCurrent;
    RowsAfterAction(s, a, id);
    if StepOf(s, a).Some? { ActionIsOpenStep(s, a); }
  }

  /** Whatever the processor does, a job stays where it is or follows an arrow of the lifecycle. */
  lemma EveryMoveIsAnArrow(s: System, a: Action, id: JobId)
    requires Inv(s) && O.Sound(s.world) && Enabled(s, a)
    ensures PlaceIn(s, id) == PlaceIn(Next(s, a), id) || Arrow(PlaceIn(s, id), PlaceIn(Next(s, a), id))
  {
    hide Next, Enabled, Core, PlaceOf, Arrow, O.RowsNext;
    PlaceAfter(s, a, id);
    assert O.AttemptsAt(RowsIn(s, id), id, s.world.claims);
    if About(s, a, id) {
      RowArrow(RowsIn(s, id), StepOf(s, a).value, id in s.world.discarded);
    }
  }

  function Rank(p: Place): int {
    match p
    case Nowhere => 61
    case InSchedule => 60
    case InFailed(k) => 60 - 3 * k
    case InQueue(k) => 59 - 3 * k
    case InProcessing(k) => 58 - 3 * k
    case Processed => 0
    case Discarded => 0
  }

  predicate Possible(p: Place) {
    match p
    case InQueue(k) => 0 <= k <= L.DEFAULT_MAX_RETRY_COUNT
    case InProcessing(k) => 0 <= k <= L.DEFAULT_MAX_RETRY_COUNT
    case InFailed(k) => 1 <= k <= L.DEFAULT_MAX_RETRY_COUNT
    case _ => true
  }

  lemma ArrowsCostRank(p: Place, q: Place)
    requires Possible(p) && Arrow(p, q)
    ensures Possible(q) && 0 <= Rank(q) < Rank(p)
  {
  }

  /** How many actions of the run moved the accepted job, and how many started an attempt. */
  function Moves(run: seq<Action>, id: JobId): nat {
    if run == [] then 0 else
      var before := run[..|run| - 1];
      Moves(before, id)
      + One(PlaceIn(After(before), id) != Nowhere && PlaceIn(After(run), id) != PlaceIn(After(before), id))
  }

  function Starts(run: seq<Action>, id: JobId): nat {
    A.StartsIn(run, id, A.Any())
  }

  /** The number of attempts that a job in this place has started. */
  predicate StartsAt(p: Place, starts: nat) {
    match p
    case Nowhere => starts == 0
    case InSchedule => starts == 0
    case InQueue(k) => starts == k
    case InProcessing(k) => starts == k + 1
    case InFailed(k) => starts == k
    case Processed => 1 <= starts <= L.DEFAULT_MAX_RETRY_COUNT + 1
    case Discarded => starts == L.DEFAULT_MAX_RETRY_COUNT + 1
  }

  lemma RunIsSound(run: seq<Action>)
    requires IsOrderlyRun(run)
    ensures Inv(After(run)) && O.Sound(After(run).world)
  {
    OrderlyRunsAreSafe(run);
    Refinement.EveryRunIsSound(run);
  }

  lemma StartMoves(run: seq<Action>, id: JobId)
    requires IsOrderlyRun(run) && run != []
    ensures var p, q := PlaceIn(After(run[..|run| - 1]), id), PlaceIn(After(run), id); p == q || Arrow(p, q)
  {
    RunIsSound(run[..|run| - 1]);
    EveryMoveIsAnArrow(After(run[..|run| - 1]), run[|run| - 1], id);
  }

  lemma RowStarts(r: Rows, step: O.Step, discarded: bool)
    requires Backed(r, step) && Places(r, discarded) <= 1 && (step.Accept? ==> Places(r, discarded) == 0)
    ensures PlaceOf(r, discarded).InQueue?
            && PlaceOf(O.RowsNext(r, step), discarded || (step.Fail? && L.Exhausted(step.held))).InProcessing?
      <==> step.Dequeue? && O.RowStep(r, step).Some?
  {
  }

  /** A committed claim takes the job from its queue into processing, and nothing else does. */
  lemma StartIsClaim(s: System, a: Action, id: JobId)
    requires Inv(s) && Enabled(s, a)
    ensures A.Starts(s, a, id, A.Any()) <==> PlaceIn(s, id).InQueue? && PlaceIn(Next(s, a), id).InProcessing?
  {
    hide Next, Core, PlaceOf, Commits, O.Identity, O.RowsNext, O.RowStep;
    PlaceAfter(s, a, id);
    CoreIsSound(s);
    RowsAfterAction(s, a, id);
    if About(s, a, id) {
      RowStarts(RowsIn(s, id), StepOf(s, a).value, id in s.world.discarded);
    }
  }

  lemma CoreIsSound(s: System)
    requires Core(s)
    ensures O.Identity(s.world)
  {
  }

  lemma ArrowsCountStarts(p: Place, q: Place, starts: nat)
    requires Possible(p) && StartsAt(p, starts) && (p == q || Arrow(p, q))
    ensures Possible(q) && StartsAt(q, starts + One(p.InQueue? && q.InProcessing?))
  {
  }

  lemma StartsUpToTwenty(p: Place, starts: nat)
    requires Possible(p) && StartsAt(p, starts)
    ensures starts <= 20
  {
  }

  /** Retry counts are exact: a record with retry count k stands for k earlier starts. */
  lemma {:induction false} StartsAreCounted(run: seq<Action>, id: JobId)
    requires IsOrderlyRun(run)
    ensures Possible(PlaceIn(After(run), id)) && StartsAt(PlaceIn(After(run), id), Starts(run, id))
    ensures Starts(run, id) <= 20
  {
    if run != [] {
      hide Next, A.Starts, PlaceIn, Possible, StartsAt, Arrow;
      var before := run[..|run| - 1];
      StartsAreCounted(before, id);
      StartMoves(run, id);
      RunIsSound(before);
      StartIsClaim(After(before), run[|run| - 1], id);
      ArrowsCountStarts(PlaceIn(After(before), id), PlaceIn(After(run), id), Starts(before, id));
      StartsUpToTwenty(PlaceIn(After(run), id), Starts(run, id));
    }
  }

  /** An accepted job's rank pays for its moves: there are at most sixty. */
  lemma {:induction false} MovesAreBounded(run: seq<Action>, id: JobId)
    requires IsOrderlyRun(run)
    ensures Moves(run, id) + Rank(PlaceIn(After(run), id)) <= if PlaceIn(After(run), id) == Nowhere then 61 else 60
    ensures PlaceIn(After(run), id) == Nowhere ==> Moves(run, id) == 0
  {
    if run != [] {
      MovesAreBounded(run[..|run| - 1], id);
      StartsAreCounted(run[..|run| - 1], id);
      StartMoves(run, id);
      var p, q := PlaceIn(After(run[..|run| - 1]), id), PlaceIn(After(run), id);
      if p != q { ArrowsCostRank(p, q); }
    }
  }

  /** The moves of all the given jobs together. */
  ghost function MovesOfAll(run: seq<Action>, ids: set<JobId>): nat {
    if ids == {} then 0 else
      var id :| id in ids;
      Moves(run, id) + MovesOfAll(run, ids - {id})
  }

  lemma {:induction false} MovesOfAllBounded(run: seq<Action>, ids: set<JobId>)
    requires IsOrderlyRun(run)
    ensures MovesOfAll(run, ids) <= 60 * |ids|
  {
    if ids != {} {
      var id :| id in ids && MovesOfAll(run, ids) == Moves(run, id) + MovesOfAll(run, ids - {id});
      MovesAreBounded(run, id);
      RankIsNatural(run, id);
      MovesOfAllBounded(run, ids - {id});
    }
  }

  lemma RankIsNatural(run: seq<Action>, id: JobId)
    requires IsOrderlyRun(run)
    ensures Rank(PlaceIn(After(run), id)) >= 0
  {
    StartsAreCounted(run, id);
  }

  /** N accepted jobs make at most 60 N moves, however long the run is. */
  lemma TotalMovesAreBounded(run: seq<Action>)
    requires IsOrderlyRun(run)
    ensures MovesOfAll(run, After(run).world.accepted.Keys) <= 60 * |After(run).world.accepted|
  {
    MovesOfAllBounded(run, After(run).world.accepted.Keys);
  }

  // ---- when jobs keep to the arrows ----

  predicate KeepsToArrows(s: System, a: Action, id: JobId) {
    PlaceIn(s, id) == PlaceIn(Next(s, a), id) || Arrow(PlaceIn(s, id), PlaceIn(Next(s, a), id))
  }

  /** On every way on, as long as every registration is orderly, each job keeps to the arrows. */
  ghost predicate AllKeepToArrows(s: System) {
    forall rest, end, a, id :: Path(s, rest, end) && Enabled(end, a) && Orderly(end, a) ==> KeepsToArrows(end, a, id)
  }

  lemma OrderlyKeepsToArrows(run: seq<Action>, w: nat)
    requires IsOrderlyRun(run) && Enabled(After(run), Register(w)) && Orderly(After(run), Register(w))
    ensures AllKeepToArrows(Next(After(run), Register(w)))
  {
    hide Enabled, Orderly, Next, PlaceIn, Arrow;
    var longer := run + [Register(w)];
    assert longer[..|run|] == run && longer[|run|] == Register(w);
    OrderlyRunsAreSafe(longer);
    forall rest, end, a, id | Path(After(longer), rest, end) && Enabled(end, a) && Orderly(end, a)
      ensures KeepsToArrows(end, a, id)
    {
      InvOnPath(After(longer), rest, end);
      LeadsIsRun(longer, rest, end, (x, b) => Orderly(x, b));
      Refinement.EveryRunIsSound(longer + rest);
      EveryMoveIsAnArrow(end, a, id);
    }
  }

  lemma CompletesFailedRow(r: Rows, job: ProcessingJob, now: Time)
    requires r.processing == Some(job) && Places(r, false) == 1
    ensures var r' := O.RowsNext(r, O.Fail(job, ORPHAN_ERROR, now));
      var p, q := PlaceOf(r', L.Exhausted(job)), PlaceOf(O.RowsNext(r', O.Complete(job, now)), L.Exhausted(job));
      p != q && !Arrow(p, q)
  {
  }

  /** The checker fails the live job, and then the worker completes it, which no arrow allows. */
  lemma CompletionLeavesTheArrows(s: System, w: nat, job: ProcessingJob)
    requires SelectedAlive(s, w, job)
    ensures var s1 := Next(s, OrphanNext(true));
      && Enabled(s, OrphanNext(true)) && Orderly(s, OrphanNext(true))
      && Enabled(s1, CompleteJob(w, true)) && Orderly(s1, CompleteJob(w, true))
      && !KeepsToArrows(s1, CompleteJob(w, true), job.id)
  {
    hide Enabled, Orderly, Next, O.Identity, O.RowsNext, PlaceOf, Arrow;
    assert Places(RowsIn(s, job.id), job.id in s.world.discarded) == One(job.id in s.world.accepted);
    FailOfLiveJob(s, w, job);
    CompletionOfFailedJob(Next(s, OrphanNext(true)), w, job);
    CompletesFailedRow(RowsIn(s, job.id), job, s.now);
  }

  lemma NotAllKeepToArrows(s: System, rest: seq<Action>, end: System, a: Action, id: JobId)
    requires Path(s, rest, end) && Enabled(end, a) && Orderly(end, a) && !KeepsToArrows(end, a, id)
    ensures !AllKeepToArrows(s)
  {
    hide Path, Enabled, Orderly, KeepsToArrows;
  }

  lemma DisorderLeavesTheArrows(s: System, w: nat)
    requires Inv(s) && Enabled(s, Register(w)) && !Orderly(s, Register(w))
    ensures !AllKeepToArrows(Next(s, Register(w)))
  {
    hide Path, Enabled, Orderly, Next, Inv, SelectedAlive, KeepsToArrows, AllKeepToArrows;
    var rest, selected, job := DisorderIsSelected(s, w);
    CompletionLeavesTheArrows(selected, w, job);
    Longer(Next(s, Register(w)), rest, selected, OrphanNext(true));
    NotAllKeepToArrows(Next(s, Register(w)), rest + [OrphanNext(true)], Next(selected, OrphanNext(true)), CompleteJob(w, true), job.id);
  }

  /** After an orderly run, a registration is orderly exactly when on every orderly way on each action keeps
      each job in its place or moves it along an arrow. */
  lemma ArrowsAreSafeIff(run: seq<Action>, w: nat)
    requires IsOrderlyRun(run) && Enabled(After(run), Register(w))
    ensures Orderly(After(run), Register(w)) <==> AllKeepToArrows(Next(After(run), Register(w)))
  {
    hide Enabled, Orderly, Next, Inv, AllKeepToArrows;
    OrderlyRunsAreSafe(run);
    if Orderly(After(run), Register(w)) { OrderlyKeepsToArrows(run, w); } else { DisorderLeavesTheArrows(After(run), w); }
  }
}
